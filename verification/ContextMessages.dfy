/** Chat messages, requests and turns, and the projections that keep a long conversation within its budget. */
module ContextMessages {
  datatype ToolCall = ToolCall(id: string, kind: string, name: string, arguments: string)

  datatype Message = Message(role: string, content: string, calls: seq<ToolCall>, callId: string)

  datatype Tool = Tool(kind: string, name: string, description: string, parameters: string)

  datatype Request = Request(messages: seq<Message>, tools: seq<Tool>, maxTokens: int)

  // ----- Turns -----

  function Flatten(groups: seq<seq<Message>>): seq<Message> {
    if |groups| == 0 then [] else Flatten(groups[..|groups| - 1]) + groups[|groups| - 1]
  }

  /** A turn starts at a user message, unless it is the first, and has no other one. */
  ghost predicate Turn(g: seq<Message>, first: bool) {
    |g| > 0 && (first || g[0].role == "user") && forall i :: 0 < i < |g| ==> g[i].role != "user"
  }

  ghost predicate Turns(groups: seq<seq<Message>>) {
    forall k :: 0 <= k < |groups| ==> Turn(groups[k], k == 0)
  }

  lemma FlattenSnoc(groups: seq<seq<Message>>, g: seq<Message>)
    ensures Flatten(groups + [g]) == Flatten(groups) + g
  {
    assert (groups + [g])[..|groups|] == groups;
  }

  /** A list of turns with one more message. */
  function Extended(groups: seq<seq<Message>>, m: Message): seq<seq<Message>> {
    if m.role == "user" || |groups| == 0 then groups + [[m]] else groups[..|groups| - 1] + [groups[|groups| - 1] + [m]]
  }

  lemma ExtendedDivides(groups: seq<seq<Message>>, m: Message)
    requires Turns(groups)
    ensures Turns(Extended(groups, m)) && Flatten(Extended(groups, m)) == Flatten(groups) + [m]
  {
    hide Turn, Flatten;
    if m.role == "user" || |groups| == 0 {
      OneMessageTurn(m, |groups| == 0);
      FlattenSnoc(groups, [m]);
    } else {
      var n := |groups| - 1;
      LongerTurn(groups[n], n == 0, m);
      FlattenSnoc(groups[..n], groups[n]);
      FlattenSnoc(groups[..n], groups[n] + [m]);
      assert groups == groups[..n] + [groups[n]];
      assert Flatten(groups) + [m] == Flatten(groups[..n]) + (groups[n] + [m]);
    }
  }

  /** The turns of a conversation. */
  ghost function TurnsOf(messages: seq<Message>): (groups: seq<seq<Message>>)
    ensures Turns(groups) && Flatten(groups) == messages && (|groups| == 0 <==> |messages| == 0)
  {
    if |messages| == 0 then []
    else
      var n := |messages| - 1;
      ExtendedDivides(TurnsOf(messages[..n]), messages[n]);
      assert messages == messages[..n] + [messages[n]];
      Extended(TurnsOf(messages[..n]), messages[n])
  }

  /** `messageGroups`: the only division of the conversation into turns. */
  method MessageGroups(messages: seq<Message>) returns (groups: seq<seq<Message>>)
    ensures Turns(groups) && Flatten(groups) == messages && (|groups| == 0 <==> |messages| == 0)
    ensures groups == TurnsOf(messages)
  {
    hide Turn, Flatten, TurnsOf;
    groups := [];
    assert Flatten([]) == [] by { FlattenNone(); }
    for k := 0 to |messages|
      invariant Turns(groups) && Flatten(groups) == messages[..k] && (|groups| == 0 <==> k == 0)
    {
      var message := messages[k];
      assert messages[..k + 1] == messages[..k] + [message];
      ExtendedDivides(groups, message);
      if message.role == "user" || |groups| == 0 {
        groups := groups + [[message]];
      } else {
        var n := |groups| - 1;
        groups := groups[..n] + [groups[n] + [message]];
      }
    }
    assert messages[..|messages|] == messages;
    TurnsUnique(groups, TurnsOf(messages));
  }

  lemma FlattenNone()
    ensures Flatten([]) == []
  {
  }

  lemma OneMessageTurn(m: Message, first: bool)
    requires first || m.role == "user"
    ensures Turn([m], first)
  {
  }

  lemma LongerTurn(g: seq<Message>, first: bool, m: Message)
    requires Turn(g, first) && m.role != "user"
    ensures Turn(g + [m], first)
  {
  }

  /** A conversation divides into turns in one way only. */
  lemma {:induction false} TurnsUnique(a: seq<seq<Message>>, b: seq<seq<Message>>)
    requires Turns(a) && Turns(b) && Flatten(a) == Flatten(b)
    ensures a == b
  {
    if |a| == 0 || |b| == 0 {
      if |a| > 0 { LastTurn(a); }
      if |b| > 0 { LastTurn(b); }
    } else {
      var x, y := a[..|a| - 1], b[..|b| - 1];
      var p, q := a[|a| - 1], b[|b| - 1];
      LastTurn(a);
      LastTurn(b);
      hide Turns, Turn, Flatten;
      if |p| < |q| { LastTurnNotShorter(Flatten(x), p, Flatten(y), q, |a| == 1); }
      if |q| < |p| { LastTurnNotShorter(Flatten(y), q, Flatten(x), p, |b| == 1); }
      SameEnds(Flatten(x), p, Flatten(y), q);
      TurnsUnique(x, y);
      assert a == x + [p] && b == y + [q];
    }
  }

  lemma LastTurn(a: seq<seq<Message>>)
    requires Turns(a) && |a| > 0
    ensures var x, p := a[..|a| - 1], a[|a| - 1];
            Turns(x) && Turn(p, |a| == 1) && |p| > 0 && Flatten(a) == Flatten(x) + p && (|a| == 1 ==> Flatten(x) == [])
  {
  }

  lemma SameEnds(x: seq<Message>, p: seq<Message>, y: seq<Message>, q: seq<Message>)
    requires x + p == y + q && |p| == |q|
    ensures x == y && p == q
  {
    assert x == (x + p)[..|x|] && y == (y + q)[..|y|];
    assert p == (x + p)[|x|..] && q == (y + q)[|y|..];
  }

  /** The last user message is in one place only. */
  lemma LastTurnNotShorter(x: seq<Message>, p: seq<Message>, y: seq<Message>, q: seq<Message>, first: bool)
    requires Turn(p, first) && (first ==> x == []) && x + p == y + q && (Turn(q, true) || Turn(q, false))
    ensures |p| >= |q|
  {
    if |p| < |q| { SharedMessage(x, p, y, q); }
  }

  lemma SharedMessage(x: seq<Message>, p: seq<Message>, y: seq<Message>, q: seq<Message>)
    requires x + p == y + q && 0 < |p| < |q|
    ensures |x| > 0 && p[0] == q[|q| - |p|]
  {
    assert p[0] == (x + p)[|x|] && q[|q| - |p|] == (y + q)[|x|];
  }

  // ----- System messages -----

  function Systems(ms: seq<Message>): seq<Message> {
    if |ms| == 0 then []
    else Systems(ms[..|ms| - 1]) + (if ms[|ms| - 1].role == "system" then [ms[|ms| - 1]] else [])
  }

  function Conversation(ms: seq<Message>): seq<Message> {
    if |ms| == 0 then []
    else Conversation(ms[..|ms| - 1]) + (if ms[|ms| - 1].role == "system" then [] else [ms[|ms| - 1]])
  }

  lemma SplitNext(ms: seq<Message>, k: nat)
    requires k < |ms|
    ensures Systems(ms[..k + 1]) == Systems(ms[..k]) + (if ms[k].role == "system" then [ms[k]] else [])
    ensures Conversation(ms[..k + 1]) == Conversation(ms[..k]) + (if ms[k].role == "system" then [] else [ms[k]])
  {
    assert ms[..k + 1][..k] == ms[..k];
  }

  /** Splitting loses and invents nothing. */
  lemma {:induction false} SplitKeepsAll(ms: seq<Message>)
    ensures multiset(Systems(ms)) + multiset(Conversation(ms)) == multiset(ms)
  {
    hide Systems, Conversation;
    if |ms| == 0 {
      SplitNothing();
    } else {
      var k := |ms| - 1;
      SplitKeepsAll(ms[..k]);
      SplitNext(ms, k);
      assert ms[..k + 1] == ms && ms == ms[..k] + [ms[k]];
      CountLast(Systems(ms[..k]), Conversation(ms[..k]), ms[..k], ms[k]);
    }
  }

  lemma CountLast(a: seq<Message>, b: seq<Message>, c: seq<Message>, m: Message)
    requires multiset(a) + multiset(b) == multiset(c)
    ensures multiset(a + [m]) + multiset(b) == multiset(c + [m]) && multiset(a) + multiset(b + [m]) == multiset(c + [m])
    ensures b + [] == b && a + [] == a
  {
    assert multiset(c + [m]) == multiset(c) + multiset{m};
  }

  lemma {:induction false} SplitRoles(ms: seq<Message>)
    ensures forall m :: m in Systems(ms) ==> m.role == "system"
    ensures forall m :: m in Conversation(ms) ==> m.role != "system"
  {
    if |ms| > 0 { SplitRoles(ms[..|ms| - 1]); }
  }

  /** `SplitSystemMessages`. */
  method SplitSystemMessages(messages: seq<Message>) returns (system: seq<Message>, conversation: seq<Message>)
    ensures system == Systems(messages) && conversation == Conversation(messages)
  {
    hide Systems, Conversation;
    system, conversation := [], [];
    SplitNothing();
    for k := 0 to |messages|
      invariant system == Systems(messages[..k]) && conversation == Conversation(messages[..k])
    {
      SplitNext(messages, k);
      if messages[k].role == "system" { system := system + [messages[k]]; } else { conversation := conversation + [messages[k]]; }
    }
    assert messages[..|messages|] == messages;
  }

  lemma SplitNothing()
    ensures Systems([]) == [] && Conversation([]) == []
  {
  }

  // ----- Projections -----

  /** A projected message is in the same place of the same exchange: only an assistant's or a tool's text, or the
      arguments of a call, may differ. */
  predicate MessageKept(m: Message, n: Message) {
    && n.role == m.role && n.callId == m.callId && |n.calls| == |m.calls|
    && (forall i :: 0 <= i < |m.calls| ==> n.calls[i].id == m.calls[i].id && n.calls[i].kind == m.calls[i].kind && n.calls[i].name == m.calls[i].name)
    && (m.role != "assistant" && m.role != "tool" ==> n == m)
  }

  ghost predicate GroupKept(g: seq<Message>, h: seq<Message>) {
    |h| == |g| && forall i :: 0 <= i < |g| ==> MessageKept(g[i], h[i])
  }

  predicate CallsTool(m: Message, id: string) { exists i :: 0 <= i < |m.calls| && m.calls[i].id == id }

  /** Every tool result follows a message of the group that made its call. */
  ghost predicate ResultsFollow(g: seq<Message>) {
    forall i :: 0 <= i < |g| && g[i].role == "tool" ==> exists j :: 0 <= j < i && CallsTool(g[j], g[i].callId)
  }

  lemma CallKept(m: Message, n: Message, id: string)
    requires MessageKept(m, n) && CallsTool(m, id)
    ensures CallsTool(n, id)
  {
    var i :| 0 <= i < |m.calls| && m.calls[i].id == id;
    assert n.calls[i].id == id;
  }

  /** A projection leaves every tool result behind its call. */
  lemma ResultsStillFollow(g: seq<Message>, h: seq<Message>)
    requires GroupKept(g, h) && ResultsFollow(g)
    ensures ResultsFollow(h)
  {
    forall i | 0 <= i < |h| && h[i].role == "tool" ensures exists j :: 0 <= j < i && CallsTool(h[j], h[i].callId) {
      assert MessageKept(g[i], h[i]);
      var j :| 0 <= j < i && CallsTool(g[j], g[i].callId);
      assert MessageKept(g[j], h[j]);
      CallKept(g[j], h[j], g[i].callId);
    }
  }

  lemma GroupKeptTransitive(f: seq<Message>, g: seq<Message>, h: seq<Message>)
    requires GroupKept(f, g) && GroupKept(g, h)
    ensures GroupKept(f, h)
  {
    forall i | 0 <= i < |f| ensures MessageKept(f[i], h[i]) {
      assert MessageKept(f[i], g[i]) && MessageKept(g[i], h[i]);
    }
  }

  method GroupHasTools(group: seq<Message>) returns (has: bool)
    ensures has == HasTools(group)
  {
    for k := 0 to |group|
      invariant forall i :: 0 <= i < k ==> group[i].role != "tool" && group[i].calls == []
    {
      if group[k].role == "tool" || |group[k].calls| > 0 { return true; }
    }
    has := false;
  }

  predicate HasTools(group: seq<Message>) { exists i :: 0 <= i < |group| && (group[i].role == "tool" || group[i].calls != []) }

  function HistoryMessage(m: Message, history: map<string, string>): Message {
    if m.role == "tool" && m.callId in history && history[m.callId] != "" then m.(content := history[m.callId]) else m
  }

  function HistoryGroup(group: seq<Message>, history: map<string, string>): (r: seq<Message>)
    ensures |r| == |group| && forall i :: 0 <= i < |group| ==> r[i] == HistoryMessage(group[i], history)
  {
    seq(|group|, i requires 0 <= i < |group| => HistoryMessage(group[i], history))
  }

  /** `projectHistoryGroup`: a tool result gives way to its recorded projection, if there is one. */
  method ProjectHistoryGroup(group: seq<Message>, history: map<string, string>) returns (r: seq<Message>)
    ensures r == HistoryGroup(group, history) && GroupKept(group, r)
  {
    r := group;
    for k := 0 to |group|
      invariant |r| == |group|
      invariant forall i :: 0 <= i < |group| ==> r[i] == if i < k then HistoryMessage(group[i], history) else group[i]
    {
      if r[k].role == "tool" && r[k].callId in history && history[r[k].callId] != "" {
        r := r[k := r[k].(content := history[r[k].callId])];
      }
    }
  }

  predicate Completed(group: seq<Message>, id: string) {
    id != "" && exists i :: 0 <= i < |group| && group[i].role == "tool" && group[i].callId == id
  }

  function CompletedCall(group: seq<Message>, call: ToolCall): ToolCall {
    if Completed(group, call.id) then call.(arguments := "{}") else call
  }

  ghost predicate ArgumentsDropped(group: seq<Message>, m: Message, n: Message) {
    if m.role == "assistant" then
      n == m.(calls := n.calls) && |n.calls| == |m.calls| && forall i :: 0 <= i < |m.calls| ==> n.calls[i] == CompletedCall(group, m.calls[i])
    else n == m
  }

  /** A turn without the arguments of its answered calls. */
  function WithoutArguments(group: seq<Message>): (r: seq<Message>)
    ensures |r| == |group| && forall i :: 0 <= i < |group| ==> ArgumentsDropped(group, group[i], r[i])
  {
    seq(|group|, i requires 0 <= i < |group| =>
      var m := group[i];
      if m.role == "assistant" then m.(calls := seq(|m.calls|, k requires 0 <= k < |m.calls| => CompletedCall(group, m.calls[k]))) else m)
  }

  lemma WithoutArgumentsUnique(group: seq<Message>, r: seq<Message>)
    requires |r| == |group| && forall i :: 0 <= i < |group| ==> ArgumentsDropped(group, group[i], r[i])
    ensures r == WithoutArguments(group)
  {
    hide CompletedCall;
    var w := WithoutArguments(group);
    forall i | 0 <= i < |group| ensures r[i] == w[i] {
      assert ArgumentsDropped(group, group[i], r[i]) && ArgumentsDropped(group, group[i], w[i]);
      if group[i].role == "assistant" { assert r[i].calls == w[i].calls; }
    }
  }

  /** `projectCompletedToolCallArguments`: in a turn that is too large, the arguments of calls already answered
      become an empty object; calls still open keep theirs. */
  method ProjectCompletedArguments(group: seq<Message>) returns (r: seq<Message>)
    ensures |r| == |group| && forall i :: 0 <= i < |group| ==> ArgumentsDropped(group, group[i], r[i])
    ensures GroupKept(group, r) && r == WithoutArguments(group)
  {
    var completed: set<string> := {};
    for k := 0 to |group|
      invariant forall id :: id in completed <==> Completed(group[..k], id)
    {
      assert group[..k + 1] == group[..k] + [group[k]];
      if group[k].role == "tool" && group[k].callId != "" { completed := completed + {group[k].callId}; }
      CompletedNext(group, k);
    }
    assert group[..|group|] == group;
    r := [];
    for k := 0 to |group|
      invariant |r| == k && forall i :: 0 <= i < k ==> ArgumentsDropped(group, group[i], r[i])
    {
      var message := group[k];
      if message.role == "assistant" && |message.calls| > 0 {
        var calls := [];
        for c := 0 to |message.calls|
          invariant |calls| == c && forall i :: 0 <= i < c ==> calls[i] == CompletedCall(group, message.calls[i])
        {
          calls := calls + [if message.calls[c].id in completed then message.calls[c].(arguments := "{}") else message.calls[c]];
        }
        message := message.(calls := calls);
      }
      r := r + [message];
    }
    forall i | 0 <= i < |group| ensures MessageKept(group[i], r[i]) { assert ArgumentsDropped(group, group[i], r[i]); }
    WithoutArgumentsUnique(group, r);
  }

  lemma CompletedNext(group: seq<Message>, k: nat)
    requires k < |group|
    ensures forall id :: Completed(group[..k + 1], id) <==>
              Completed(group[..k], id) || (id != "" && group[k].role == "tool" && group[k].callId == id)
  {
    var a, b := group[..k], group[..k + 1];
    forall id ensures Completed(b, id) <==> Completed(a, id) || (id != "" && group[k].role == "tool" && group[k].callId == id) {
      if Completed(a, id) {
        var i :| 0 <= i < |a| && a[i].role == "tool" && a[i].callId == id;
        assert b[i] == a[i];
      }
      if id != "" && group[k].role == "tool" && group[k].callId == id { assert b[k] == group[k]; }
    }
  }

  // ----- Text -----

  /** How many bytes the UTF-8 form of a character takes. */
  function Bytes(c: char): nat {
    if c as int < 0x80 then 1 else if c as int < 0x800 then 2 else if c as int < 0x10000 then 3 else 4
  }

  function ByteLength(s: string): nat {
    if |s| == 0 then 0 else ByteLength(s[..|s| - 1]) + Bytes(s[|s| - 1])
  }

  lemma {:induction false} ByteLengthGrows(s: string, i: nat, k: nat)
    requires i <= k <= |s|
    ensures ByteLength(s[..i]) + (k - i) <= ByteLength(s[..k])
    decreases k - i
  {
    if i < k {
      ByteLengthGrows(s, i, k - 1);
      assert s[..k][..k - 1] == s[..k - 1];
    }
  }

  /** Whether cutting the UTF-8 form of `s` after `cut` bytes leaves valid UTF-8, that is, cuts between characters. */
  ghost predicate Boundary(s: string, cut: nat) { exists k :: 0 <= k <= |s| && ByteLength(s[..k]) == cut }

  /** How many characters of `s` end at or before byte `cut`. */
  function CharsWithin(s: string, cut: nat): (k: nat)
    ensures k <= |s| && ByteLength(s[..k]) <= cut
    ensures k < |s| ==> ByteLength(s[..k + 1]) > cut
    decreases |s|
  {
    if ByteLength(s) <= cut then assert s[..|s|] == s; |s|
    else
      var t := s[..|s| - 1];
      var k := CharsWithin(t, cut);
      assert t[..k] == s[..k] && s[..|s|] == s;
      assert k < |t| ==> t[..k + 1] == s[..k + 1];
      k
  }

  predicate Valid(s: string, cut: nat) { ByteLength(s[..CharsWithin(s, cut)]) == cut }

  lemma ValidIsBoundary(s: string, cut: nat)
    ensures Valid(s, cut) <==> Boundary(s, cut)
  {
    var k := CharsWithin(s, cut);
    forall i | 0 <= i <= |s| && ByteLength(s[..i]) == cut ensures i == k {
      if i < k { ByteLengthGrows(s, i, k); }
      if k < i { ByteLengthGrows(s, k + 1, i); }
    }
  }

  /** `truncateUTF8`: bytes are taken off until what is left is valid; that is the longest run of whole characters
      within the limit. */
  method TruncateUtf8(value: string, limit: nat) returns (r: string)
    ensures r <= value && ByteLength(r) <= limit
    ensures r == value || ByteLength(value[..|r| + 1]) > limit
    ensures r == Excerpt(value, limit)
  {
    if ByteLength(value) <= limit {
      assert value[..|value|] == value;
      CharsWithinAll(value, limit);
      return value;
    }
    var cut := limit;
    ghost var k := CharsWithin(value, limit);
    while !Valid(value, cut)
      invariant ByteLength(value[..k]) <= cut <= limit && CharsWithin(value, cut) == k
      decreases cut
    {
      cut := cut - 1;
      CharsWithinUnique(value, cut, k);
    }
    r := value[..CharsWithin(value, cut)];
    assert k < |value| by { assert value[..|value|] == value; }
  }

  lemma CharsWithinAll(s: string, cut: nat)
    requires ByteLength(s) <= cut
    ensures CharsWithin(s, cut) == |s|
  {
  }

  lemma CharsWithinUnique(s: string, cut: nat, k: nat)
    requires k <= |s| && ByteLength(s[..k]) <= cut && (k < |s| ==> ByteLength(s[..k + 1]) > cut)
    ensures CharsWithin(s, cut) == k
  {
    var i := CharsWithin(s, cut);
    if i < k { ByteLengthGrows(s, i + 1, k); }
    if k < i { ByteLengthGrows(s, k + 1, i); }
  }

  function Excerpt(s: string, limit: nat): string { s[..CharsWithin(s, limit)] }

  predicate Space(c: char) {
    var n := c as int;
    9 <= n <= 13 || n == 32 || n == 0x85 || n == 0xA0 || n == 0x1680 || 0x2000 <= n <= 0x200A || n == 0x2028 || n == 0x2029 || n == 0x202F
    || n == 0x205F || n == 0x3000
  }

  function TrimSpace(s: string): string {
    if |s| > 0 && Space(s[0]) then TrimSpace(s[1..])
    else if |s| > 0 && Space(s[|s| - 1]) then TrimSpace(s[..|s| - 1])
    else s
  }
}
