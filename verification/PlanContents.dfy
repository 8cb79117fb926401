/** What a plan's request holds, message by message and in which order, read off the request and the conversation
    alone: positions, contents and numbers that do not pass through the planner's own functions. */
module PlanContents {
  import opened Basics
  import opened ContextMessages
  import opened TokenBudget
  import opened TokenEstimator
  import opened ContextPlanner

  // ----- System messages and conversation -----

  /** How many of the first `n` messages are system messages. */
  function SystemsAmong(ms: seq<Message>, n: nat): (r: nat)
    requires n <= |ms|
    ensures r <= n
  {
    if n == 0 then 0 else SystemsAmong(ms, n - 1) + (if ms[n - 1].role == "system" then 1 else 0)
  }

  lemma {:induction false} SplitLengths(ms: seq<Message>, n: nat)
    requires n <= |ms|
    ensures |Systems(ms[..n])| == SystemsAmong(ms, n) && |Conversation(ms[..n])| == n - SystemsAmong(ms, n)
    ensures Systems(ms[..n]) <= Systems(ms) && Conversation(ms[..n]) <= Conversation(ms)
    decreases |ms| - n
  {
    SplitCounts(ms, n);
    if n < |ms| {
      SplitLengths(ms, n + 1);
      SplitNext(ms, n);
    } else {
      assert ms[..n] == ms;
    }
  }

  lemma {:induction false} SplitCounts(ms: seq<Message>, n: nat)
    requires n <= |ms|
    ensures |Systems(ms[..n])| == SystemsAmong(ms, n) && |Conversation(ms[..n])| == n - SystemsAmong(ms, n)
  {
    if n == 0 {
      assert ms[..0] == [];
    } else {
      SplitCounts(ms, n - 1);
      SplitNext(ms, n - 1);
    }
  }

  /** Where each message goes: a system message behind the system messages before it, any other behind the others. */
  lemma SplitPosition(ms: seq<Message>, i: nat)
    requires i < |ms|
    ensures var s := SystemsAmong(ms, i);
            if ms[i].role == "system" then s < |Systems(ms)| && Systems(ms)[s] == ms[i]
            else i - s < |Conversation(ms)| && Conversation(ms)[i - s] == ms[i]
    ensures |Systems(ms)| == SystemsAmong(ms, |ms|) && |Conversation(ms)| == |ms| - SystemsAmong(ms, |ms|)
  {
    hide Systems, Conversation;
    SplitLengths(ms, i);
    SplitLengths(ms, i + 1);
    SplitLengths(ms, |ms|);
    assert ms[..|ms|] == ms;
    SplitNext(ms, i);
  }

  // ----- Positions of turns -----

  /** How many messages the selected turns before turn `i` have. */
  function Offset(groups: seq<seq<Message>>, selected: seq<bool>, i: nat): nat
    requires i <= |groups| == |selected|
  {
    if i == 0 then 0 else Offset(groups, selected, i - 1) + (if selected[i - 1] then |groups[i - 1]| else 0)
  }

  lemma {:induction false} OffsetsGrow(groups: seq<seq<Message>>, selected: seq<bool>, i: nat, k: nat)
    requires i < k <= |groups| == |selected| && selected[i]
    ensures Offset(groups, selected, i) + |groups[i]| <= Offset(groups, selected, k)
  {
    if k > i + 1 { OffsetsGrow(groups, selected, i, k - 1); }
  }

  lemma {:induction false} SelectedLength(groups: seq<seq<Message>>, selected: seq<bool>, n: nat)
    requires n <= |groups| == |selected|
    ensures |SelectedMessages(groups, selected, n)| == Offset(groups, selected, n)
  {
    if n > 0 { SelectedLength(groups, selected, n - 1); }
  }

  lemma {:induction false} SelectedAt(groups: seq<seq<Message>>, selected: seq<bool>, n: nat, i: nat)
    requires i < n <= |groups| == |selected| && selected[i]
    ensures var a := Offset(groups, selected, i);
            && a + |groups[i]| <= |SelectedMessages(groups, selected, n)|
            && SelectedMessages(groups, selected, n)[a..a + |groups[i]|] == groups[i]
  {
    SelectedLength(groups, selected, n - 1);
    if i < n - 1 {
      SelectedAt(groups, selected, n - 1, i);
      var s, t := SelectedMessages(groups, selected, n - 1), SelectedMessages(groups, selected, n);
      assert s <= t;
      var a := Offset(groups, selected, i);
      assert t[a..a + |groups[i]|] == s[a..a + |groups[i]|];
    }
  }

  /** A compacted request: the system messages, the memory message, and then every selected turn, whole, at the place
      that the selected turns before it leave; nothing else. So the turns stand in the order of the conversation. */
  lemma TurnsStandInOrder(p: Planner, messages: seq<Message>, tools: seq<Tool>, plan: Plan, c: Choice, i: nat)
    requires Structured(p, messages, tools, plan, c) && i < |c.groups| && c.selected[i]
    ensures var h, ms := |Systems(messages)| + (if c.memory.Some? then 1 else 0), plan.request.messages;
            && |ms| == h + Offset(c.projected, c.selected, |c.groups|)
            && ms[..|Systems(messages)|] == Systems(messages) && (c.memory.Some? ==> ms[|Systems(messages)|] == c.memory.value)
            && var a := h + Offset(c.projected, c.selected, i);
               a + |c.projected[i]| <= |ms| && ms[a..a + |c.projected[i]|] == c.projected[i]
    ensures forall k :: i < k < |c.groups| ==> Offset(c.projected, c.selected, i) + |c.projected[i]| <= Offset(c.projected, c.selected, k)
  {
    hide Turns, Flatten, Mandatory, GroupKept, Count, Both, SelectedMessages, Systems, Conversation;
    SelectedLength(c.projected, c.selected, |c.groups|);
    SelectedAt(c.projected, c.selected, |c.groups|, i);
    forall k | i < k < |c.groups| ensures Offset(c.projected, c.selected, i) + |c.projected[i]| <= Offset(c.projected, c.selected, k) {
      OffsetsGrow(c.projected, c.selected, i, k);
    }
    var h := Head(Systems(messages), c.memory);
    var s := SelectedMessages(c.projected, c.selected, |c.groups|);
    var a := Offset(c.projected, c.selected, i);
    assert (h + s)[|h| + a..|h| + a + |c.projected[i]|] == s[a..a + |c.projected[i]|];
  }

  lemma {:induction false} AllSelected(groups: seq<seq<Message>>, selected: seq<bool>, n: nat)
    requires n <= |groups| == |selected| && forall i :: 0 <= i < n ==> selected[i]
    ensures SelectedMessages(groups, selected, n) == Flatten(groups[..n])
  {
    if n > 0 {
      AllSelected(groups, selected, n - 1);
      assert groups[..n][..n - 1] == groups[..n - 1];
    }
  }

  /** With every turn selected and none altered, the conversation stands behind the head as it is. */
  lemma WholeConversationStands(p: Planner, messages: seq<Message>, tools: seq<Tool>, plan: Plan, c: Choice)
    requires Structured(p, messages, tools, plan, c) && c.projected == c.groups && forall i :: 0 <= i < |c.groups| ==> c.selected[i]
    ensures plan.request.messages == Systems(messages) + (if c.memory.Some? then [c.memory.value] else []) + Conversation(messages)
  {
    hide Turns, Flatten, Mandatory, GroupKept, Count, Both, SelectedMessages, Systems, Conversation;
    AllSelected(c.projected, c.selected, |c.groups|);
    assert c.groups[..|c.groups|] == c.groups;
  }

  lemma {:induction false} CountIsNumber(flags: seq<bool>, n: nat)
    requires n <= |flags|
    ensures Count(flags, n) == |set i | 0 <= i < n && flags[i]|
  {
    if n > 0 {
      CountIsNumber(flags, n - 1);
      var a, b := set i | 0 <= i < n - 1 && flags[i], set i | 0 <= i < n && flags[i];
      assert b == a + if flags[n - 1] then {n - 1} else {};
    }
  }

  // ----- What is kept -----

  /** The last three turns, every protected turn, and every turn with a tool result or a tool call are in the request. */
  lemma MustStay(p: Planner, messages: seq<Message>, tools: seq<Tool>, plan: Plan, c: Choice, i: nat)
    requires Structured(p, messages, tools, plan, c) && i < |c.groups|
    requires i + 3 >= |c.groups| || i in p.protectedTurns || exists j :: 0 <= j < |c.groups[i]| && (c.groups[i][j].role == "tool" || |c.groups[i][j].calls| > 0)
    ensures c.selected[i]
  {
    hide Turns, Flatten, GroupKept, Count, Both, SelectedMessages, Systems, Conversation;
    assert Mandatory(p, c.groups, i);
  }

  /** What becomes of a message of an older turn: a tool result gives way to its recorded projection, a long answer of
      an unprotected turn that was looked at to its bounded form, and everything else stays. */
  lemma OlderMessages(p: Planner, e: Estimate, history: map<string, string>, fixedTokens: int, c: Choice, i: nat, j: nat)
    requires Necessary(p, e, history, fixedTokens, c) && i < |c.groups| - 1 && j < |c.groups[i]|
    ensures |c.projected[i]| == |c.groups[i]|
    ensures var m, n := c.groups[i][j], c.projected[i][j];
            if m.role == "tool" then n == m.(content := if m.callId in history && history[m.callId] != "" then history[m.callId] else m.content)
            else if m.role == "assistant" && ByteLength(m.content) > 2048 && i < c.looked && i !in p.protectedTurns && Mandatory(p, c.groups, i)
            then var source := if i in p.sources && m.content in p.sources[i] then p.sources[i][m.content] else "";
                 n == m.(content := ProjectionText(i + 1, source, p.sha(m.content), ByteLength(m.content), Excerpt(m.content, 1024)))
            else n == m
  {
    hide Cost, MaximumInput, Mandatory, ByteLength, ProjectionText, Excerpt;
    var turns, kept := HistoryTurns(c.groups, c.current, history), MandatoryTurns(p, c.groups);
    assert turns[i] == HistoryGroup(c.groups[i], history) && kept[i] == Mandatory(p, c.groups, i);
    assert turns[i][j] == HistoryMessage(c.groups[i][j], history);
    if LongProse(turns[i][j]) && i < c.looked && kept[i] && i !in p.protectedTurns { assert Boundable(p, turns, kept, i); }
  }

  /** The turn in progress stands as it is, or without the arguments of the calls that a tool result answers. */
  lemma CurrentMessages(group: seq<Message>, j: nat, k: nat)
    requires j < |group| && k < |group[j].calls|
    ensures var n, call := WithoutArguments(group)[j], group[j].calls[k];
            && n == group[j].(calls := n.calls) && |n.calls| == |group[j].calls|
            && (group[j].role != "assistant" ==> n == group[j])
            && n.calls[k] == (if group[j].role == "assistant" && call.id != "" && exists i :: 0 <= i < |group| && group[i].role == "tool" && group[i].callId == call.id
                              then call.(arguments := "{}") else call)
  {
    assert ArgumentsDropped(group, group[j], WithoutArguments(group)[j]);
  }

  // ----- What is taken -----

  /** The mandatory turns and what was taken of those newer than `i`. */
  function NewerThan(kept: seq<bool>, selected: seq<bool>, i: nat): (r: seq<bool>)
    requires |kept| == |selected|
    ensures |r| == |kept| && forall k :: 0 <= k < |r| ==> r[k] == (kept[k] || (k > i && selected[k]))
  {
    seq(|kept|, k requires 0 <= k < |kept| => kept[k] || (k > i && selected[k]))
  }

  lemma {:induction false} NewerIsCost(e: Estimate, groups: seq<seq<Message>>, kept: seq<bool>, selected: seq<bool>, i: nat)
    requires |groups| == |kept| == |selected| && i < |groups|
    ensures Cost(e, groups, NewerThan(kept, selected, i), |groups|) == Cost(e, groups, kept, |groups|) + Newer(e, groups, kept, selected, i)
    decreases |groups| - i
  {
    hide Additional;
    var u := NewerThan(kept, selected, i);
    if i + 1 == |groups| {
      assert u == kept;
    } else {
      NewerIsCost(e, groups, kept, selected, i + 1);
      var v := NewerThan(kept, selected, i + 1);
      if selected[i + 1] && !kept[i + 1] {
        assert u == v[i + 1 := true];
        CostSelected(e, groups, v, i + 1, |groups|);
      } else {
        assert u == v;
      }
    }
  }

  /** With an additive estimator a turn that may be dropped is taken exactly if the request with the mandatory turns, the
      newer turns that were taken, and this one fits the input limit. */
  lemma TakenExactlyIfItFits(p: Planner, e: Estimate, messages: seq<Message>, tools: seq<Tool>, history: map<string, string>,
                             groups: seq<seq<Message>>, current: seq<Message>, c: Choice, i: nat)
    requires Additive(e) && Chosen(p, e, messages, tools, history, groups, current, c) && i < |groups| && !Mandatory(p, groups, i)
    ensures var taken := NewerThan(MandatoryTurns(p, groups), c.selected, i)[i := true];
            var request := Systems(messages) + (if c.memory.Some? then [c.memory.value] else []) + SelectedMessages(c.projected, taken, |groups|);
            c.selected[i] <==> e(Request(request, tools, 0)) <= c.inputLimit
  {
    hide Additive, Cost, SelectedMessages, Additional, Necessary, Accounted, Limited, Newer, Mandatory, Systems;
    var kept, system := MandatoryTurns(p, groups), Systems(messages);
    var u := NewerThan(kept, c.selected, i);
    NewerIsCost(e, c.projected, kept, c.selected, i);
    CostSelected(e, c.projected, u, i, |groups|);
    var head := system + (if c.memory.Some? then [c.memory.value] else []);
    EstimateAddsUp(e, head, c.projected, u[i := true], |groups|, tools);
    if c.memory.Some? { AdditiveStep(e, system, [c.memory.value], tools); } else { assert head == system; }
  }

  // ----- The memory message -----

  /** Where item `i` stands in the joined items. */
  function ItemAt(items: seq<string>, i: nat): nat
    requires i <= |items|
  {
    if i == 0 then 0 else ItemAt(items, i - 1) + |items[i - 1]| + 1
  }

  lemma {:induction false} JoinHolds(items: seq<string>, i: nat)
    requires i < |items|
    ensures var a, t := ItemAt(items, i), Join(items, "\n");
            && |t| + 1 == ItemAt(items, |items|) && a + |items[i]| <= |t| && t[a..a + |items[i]|] == items[i]
            && (i > 0 ==> a > 0 && t[a - 1] == '\n')
  {
    var n := |items| - 1;
    var t := Join(items, "\n");
    if n == 0 {
    } else {
      var u := Join(items[..n], "\n");
      ItemsPrefix(items, n, n);
      JoinHolds(items[..n], if i < n then i else n - 1);
      assert t == u + "\n" + items[n];
      if i < n {
        ItemsPrefix(items, n, i);
        var a := ItemAt(items, i);
        assert t[a..a + |items[i]|] == u[a..a + |items[i]|];
      } else {
        assert |u| + 1 == ItemAt(items, n);
        assert t[|u| + 1..] == items[n] && t[|u|] == '\n';
      }
    }
  }

  lemma {:induction false} ItemsPrefix(items: seq<string>, n: nat, i: nat)
    requires i <= n <= |items|
    ensures ItemAt(items[..n], i) == ItemAt(items, i)
  {
    if i > 0 { ItemsPrefix(items, n, i - 1); }
  }

  /** The memory message: the instruction without outer space, the heading, and the items, in order, a line apart. */
  lemma MemoryHoldsItems(memory: Memory, k: nat, i: nat)
    requires i < k <= |memory.items|
    ensures var m, instruction := MemoryMessage(memory, k), TrimSpace(memory.instruction);
            && m.role == "system" && m.calls == [] && m.callId == ""
            && |instruction| + 8 + ItemAt(memory.items, k) == |m.content| + 1
            && |MEMORY_HEADING| == 8 && m.content[..|instruction| + 8] == instruction + MEMORY_HEADING
            && var a := |instruction| + 8 + ItemAt(memory.items, i);
               a + |memory.items[i]| <= |m.content| && m.content[a..a + |memory.items[i]|] == memory.items[i]
  {
    hide *;
    MemoryParts(memory, k);
    var s, j := TrimSpace(memory.instruction), Join(memory.items[..k], "\n");
    JoinHolds(memory.items[..k], i);
    ItemsPrefix(memory.items, k, i);
    ItemsPrefix(memory.items, k, k);
    AfterHead(s + MEMORY_HEADING, j, ItemAt(memory.items, i), |memory.items[i]|);
  }

  lemma MemoryParts(memory: Memory, k: nat)
    requires k <= |memory.items|
    ensures var m := MemoryMessage(memory, k);
            && m.role == "system" && m.calls == [] && m.callId == "" && |MEMORY_HEADING| == 8
            && m.content == TrimSpace(memory.instruction) + MEMORY_HEADING + Join(memory.items[..k], "\n")
  {
    hide TrimSpace, Join;
  }

  lemma AfterHead(h: string, t: string, a: nat, n: nat)
    requires a + n <= |t|
    ensures (h + t)[..|h|] == h && (h + t)[|h| + a..|h| + a + n] == t[a..a + n]
  {
  }

  /** Trimming takes away space only, all of it at both ends. */
  lemma {:induction false} TrimTakesSpace(s: string) returns (a: nat, b: nat)
    ensures a <= b <= |s| && TrimSpace(s) == s[a..b] && (forall i :: 0 <= i < a || b <= i < |s| ==> Space(s[i]))
    ensures a < b ==> !Space(s[a]) && !Space(s[b - 1])
    decreases |s|
  {
    hide Space;
    if |s| > 0 && Space(s[0]) {
      var t := s[1..];
      var x, y := TrimTakesSpace(t);
      a, b := x + 1, y + 1;
      forall i | 0 <= i < a || b <= i < |s| ensures Space(s[i]) { if i > 0 { assert s[i] == t[i - 1]; } }
      assert t[x..y] == s[a..b];
    } else if |s| > 0 && Space(s[|s| - 1]) {
      var t := s[..|s| - 1];
      a, b := TrimTakesSpace(t);
      forall i | 0 <= i < a || b <= i < |s| ensures Space(s[i]) { if i < |t| { assert s[i] == t[i]; } }
      assert t[a..b] == s[a..b];
    } else {
      a, b := 0, |s|;
      assert s[0..|s|] == s;
    }
  }

  // ----- Numbers -----

  /** The safety margin is a twentieth of the window, rounded up; the output may be as much as was asked for, or in a
      window too small for that at most the larger of 1024 and 15 percent; and half a thousand of it is never given up. */
  lemma LimitsMean(p: Planner)
    requires Misconfigured(p).None?
    ensures 20 * SafetyMargin(p) - 20 < p.window <= 20 * SafetyMargin(p)
    ensures var asked := if p.maxTokens == 0 then 128000 else p.maxTokens;
            var wanted := if 0 < p.reservedOverride < asked then p.reservedOverride else asked;
            && wanted >= 1 && OutputCeiling(p) <= wanted
            && (wanted + SafetyMargin(p) < p.window ==> OutputCeiling(p) == wanted)
            && (wanted + SafetyMargin(p) >= p.window && wanted <= 1024 ==> OutputCeiling(p) == wanted)
            && (wanted + SafetyMargin(p) >= p.window && wanted > 1024 ==>
                  1024 <= OutputCeiling(p) && (OutputCeiling(p) > 1024 ==> OutputCeiling(p) == wanted || (100 * OutputCeiling(p) - 100 < 15 * p.window <= 100 * OutputCeiling(p)))
                  && (OutputCeiling(p) == 1024 ==> 15 * p.window <= 102400))
    ensures MaximumInput(p) + SafetyMargin(p) + MinimumOutput(p) == p.window && MinimumOutput(p) == (if OutputCeiling(p) < 512 then OutputCeiling(p) else 512)
  {
    PercentRoundUpIsCeiling(p.window, 5);
    PercentRoundUpIsCeiling(p.window, 15);
    hide PercentRoundUp;
  }

  /** Soft pressure looks at the whole conversation: with an additive estimator the full estimate is that of the request
      with every turn in it, as recorded history and turn in progress stand, and no prose bounded. */
  lemma PressureIsOfEverything(e: Estimate, system: seq<Message>, tools: seq<Tool>, groups: seq<seq<Message>>, current: seq<Message>, history: map<string, string>)
    requires Additive(e)
    ensures FullEstimate(e, groups, current, history, e(Request(system, tools, 0)))
         == e(Request(system + Flatten(HistoryTurns(groups, current, history)), tools, 0))
  {
    hide Additive, Cost, SelectedMessages, Flatten, Additional;
    var turns, all := HistoryTurns(groups, current, history), AllTurns(|groups|);
    EstimateAddsUp(e, system, turns, all, |groups|, tools);
    AllSelected(turns, all, |groups|);
    assert turns[..|groups|] == turns;
  }
}
