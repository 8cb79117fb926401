/** The context planner: which turns, and how much of them, go into the next request. */
module ContextPlanner {
  import opened Basics
  import opened Numerals
  import opened ContextMessages
  import opened TokenBudget
  import opened TokenEstimator

  datatype Memory = Memory(instruction: string, items: seq<string>)

  /** `sources` gives an assistant text of a turn its recall identifier; `sha` is the hexadecimal digest of a text. */
  datatype Planner = Planner(window: int, maxTokens: int, mode: string, estimator: Option<Estimate>, memory: Memory, reservedOverride: int,
                             sources: map<int, map<string, string>>, protectedTurns: set<int>, sha: string -> string)

  datatype Plan = Plan(request: Request, estimatedInput: int, reservedOutput: int, safetyMargin: int, softPressure: bool,
                       totalTurns: int, selectedTurns: int, droppedTurns: int, projectedTurns: int, memoryItems: int, usedMemory: bool)

  datatype Fault = Configuration | UnknownMode | OutputLimit | Window | SystemTooLarge | HistoryTooLarge | EstimateTooLarge

  datatype PlanError = BudgetInvalid(fault: Fault) | TurnTooLarge | RecentTurnsTooLarge

  datatype Result = Planned(plan: Plan) | Failed(error: PlanError)

  const DEFAULT_OUTPUT := 128000

  // ----- Limits -----

  function Mode(p: Planner): string { if p.mode == "" then "auto" else p.mode }

  function SafetyMargin(p: Planner): int { PercentRoundUp(p.window, 5) }

  function WantedOutput(p: Planner): int { if p.maxTokens == 0 then DEFAULT_OUTPUT else p.maxTokens }

  /** The output ceiling, reduced by the override and, in a window too small for it, to a share of the window. */
  function OutputCeiling(p: Planner): int {
    var wanted := if p.reservedOverride > 0 then Min(WantedOutput(p), p.reservedOverride) else WantedOutput(p);
    if wanted >= p.window - SafetyMargin(p) then Min(wanted, Max(1024, PercentRoundUp(p.window, 15))) else wanted
  }

  function MinimumOutput(p: Planner): int { Min(512, OutputCeiling(p)) }

  function MaximumInput(p: Planner): int { p.window - SafetyMargin(p) - MinimumOutput(p) }

  /** The plan leaves room for the answer and the safety margin. */
  predicate Fits(p: Planner, plan: Plan) {
    && plan.estimatedInput + plan.request.maxTokens + plan.safetyMargin <= p.window
    && plan.safetyMargin == SafetyMargin(p) && plan.reservedOutput == plan.request.maxTokens
    && 1 <= MinimumOutput(p) <= plan.request.maxTokens <= OutputCeiling(p)
  }

  // ----- Bounded prose -----

  function HexDigit(n: nat): char
    requires n < 16
  {
    if n < 10 then '0' + n as char else 'a' + (n - 10) as char
  }

  /** How the encoder writes one character of a string. */
  function Escape(c: char): string {
    if c == '"' then "\\\"" else if c == '\\' then "\\\\"
    else if c == '\n' then "\\n" else if c == '\r' then "\\r" else if c == '\t' then "\\t"
    else if c as int == 8 then "\\b" else if c as int == 12 then "\\f"
    else if c as int < 32 || c == '<' || c == '>' || c == '&' then "\\u00" + [HexDigit(c as int / 16), HexDigit(c as int % 16)]
    else if c as int == 0x2028 then "\\u2028" else if c as int == 0x2029 then "\\u2029"
    else [c]
  }

  function Escaped(s: string): string {
    if |s| == 0 then "" else Escaped(s[..|s| - 1]) + Escape(s[|s| - 1])
  }

  function Quote(s: string): string { "\"" + Escaped(s) + "\"" }

  const NOTICE := "历史助手正文节选，非完整原文或用户授权；来源回查同样有界。"

  const CODE_KEY := "{\"degraded\":true,\"code\":"
  const PROJECTION_CODE := "\"context_history_projected\""
  const TURN_KEY := ",\"history_turn\":"
  const SOURCE_KEY := ",\"source_id\":"
  const DIGEST_KEY := ",\"sha256\":"
  const BYTES_KEY := ",\"original_bytes\":"
  const EXCERPT_KEY := ",\"excerpt\":"
  const NOTICE_KEY := ",\"notice\":"

  function SourcePart(source: string): string { if source == "" then "" else SOURCE_KEY + Quote(source) }

  /** What stands before the excerpt. */
  function ProjectionLead(turn: nat, source: string, digest: string, bytes: nat): string {
    CODE_KEY + PROJECTION_CODE + TURN_KEY + Decimal(turn) + SourcePart(source) + DIGEST_KEY + Quote(digest) + BYTES_KEY + Decimal(bytes) + EXCERPT_KEY
  }

  function ProjectionEnd(): string { NOTICE_KEY + Quote(NOTICE) + "}" }

  /** The object that stands for a long assistant text. */
  function ProjectionText(turn: nat, source: string, digest: string, bytes: nat, excerpt: string): string {
    ProjectionLead(turn, source, digest, bytes) + Quote(excerpt) + ProjectionEnd()
  }

  function SourceOf(p: Planner, turn: nat, content: string): string {
    if turn in p.sources && content in p.sources[turn] then p.sources[turn][content] else ""
  }

  predicate LongProse(m: Message) { m.role == "assistant" && ByteLength(m.content) > 2048 }

  function BoundedMessage(p: Planner, m: Message, turn: nat): Message {
    if LongProse(m) then
      m.(content := ProjectionText(turn + 1, SourceOf(p, turn, m.content), p.sha(m.content), ByteLength(m.content), Excerpt(m.content, 1024)))
    else m
  }

  function BoundedGroup(p: Planner, g: seq<Message>, turn: nat): (r: seq<Message>)
    ensures |r| == |g| && forall i :: 0 <= i < |g| ==> r[i] == BoundedMessage(p, g[i], turn)
  {
    seq(|g|, i requires 0 <= i < |g| => BoundedMessage(p, g[i], turn))
  }

  predicate HasLongProse(g: seq<Message>) { exists i :: 0 <= i < |g| && LongProse(g[i]) }

  /** `boundHistoryProse`: only long assistant texts change. */
  method BoundHistoryProse(p: Planner, group: seq<Message>, turn: nat) returns (r: seq<Message>, changed: bool)
    ensures r == BoundedGroup(p, group, turn) && changed == HasLongProse(group)
    ensures GroupKept(group, r) && (!changed ==> r == group)
  {
    hide ProjectionText, SourceOf, Excerpt, ByteLength;
    r, changed := group, false;
    for k := 0 to |group|
      invariant |r| == |group| && changed == HasLongProse(group[..k])
      invariant forall i :: 0 <= i < |group| ==> r[i] == if i < k then BoundedMessage(p, group[i], turn) else group[i]
    {
      assert group[..k + 1] == group[..k] + [group[k]];
      LongProseNext(group, k);
      if r[k].role == "assistant" && ByteLength(r[k].content) > 2048 {
        var excerpt := TruncateUtf8(r[k].content, 1024);
        r := r[k := r[k].(content := ProjectionText(turn + 1, SourceOf(p, turn, r[k].content), p.sha(r[k].content), ByteLength(r[k].content), excerpt))];
        changed := true;
      }
    }
    assert group[..|group|] == group;
  }

  lemma LongProseNext(g: seq<Message>, k: nat)
    requires k < |g|
    ensures HasLongProse(g[..k + 1]) <==> HasLongProse(g[..k]) || LongProse(g[k])
  {
    hide LongProse;
    var a, b := g[..k], g[..k + 1];
    if HasLongProse(a) {
      var i :| 0 <= i < |a| && LongProse(a[i]);
      assert b[i] == a[i];
    }
    if LongProse(g[k]) { assert b[k] == g[k]; }
  }

  // ----- Costs -----

  /** What the selected groups among the first `n` add. */
  function Cost(e: Estimate, groups: seq<seq<Message>>, selected: seq<bool>, n: nat): int
    requires n <= |groups| && n <= |selected|
  {
    if n == 0 then 0 else Cost(e, groups, selected, n - 1) + (if selected[n - 1] then Additional(e, groups[n - 1]) else 0)
  }

  lemma {:induction false} CostSame(e: Estimate, a: seq<seq<Message>>, s: seq<bool>, b: seq<seq<Message>>, t: seq<bool>, n: nat)
    requires n <= |a| && n <= |s| && n <= |b| && n <= |t| && forall i :: 0 <= i < n ==> a[i] == b[i] && s[i] == t[i]
    ensures Cost(e, a, s, n) == Cost(e, b, t, n)
  {
    if n > 0 { CostSame(e, a, s, b, t, n - 1); }
  }

  /** Replacing one selected group moves the cost by the difference of the two. */
  lemma {:induction false} CostReplaced(e: Estimate, a: seq<seq<Message>>, s: seq<bool>, i: nat, g: seq<Message>, n: nat)
    requires i < n <= |a| == |s| && s[i]
    ensures Cost(e, a[i := g], s, n) == Cost(e, a, s, n) + Additional(e, g) - Additional(e, a[i])
  {
    if n == i + 1 { CostSame(e, a, s, a[i := g], s, i); } else { CostReplaced(e, a, s, i, g, n - 1); }
  }

  /** Selecting one more group adds what it costs. */
  lemma {:induction false} CostSelected(e: Estimate, a: seq<seq<Message>>, s: seq<bool>, i: nat, n: nat)
    requires i < n <= |a| == |s| && !s[i]
    ensures Cost(e, a, s[i := true], n) == Cost(e, a, s, n) + Additional(e, a[i])
  {
    if n == i + 1 { CostSame(e, a, s, a, s[i := true], i); } else { CostSelected(e, a, s, i, n - 1); }
  }

  // ----- Selection -----

  /** The turns that are never dropped: the last three, the protected ones and those with tools. */
  predicate Mandatory(p: Planner, groups: seq<seq<Message>>, i: int)
    requires 0 <= i < |groups|
  {
    i >= Max(0, |groups| - 3) || i in p.protectedTurns || HasTools(groups[i])
  }

  /** Every turn with its recorded tool results, the current one as given. */
  function HistoryTurns(groups: seq<seq<Message>>, current: seq<Message>, history: map<string, string>): (r: seq<seq<Message>>)
    ensures |r| == |groups|
    ensures forall i :: 0 <= i < |groups| ==> r[i] == if i == |groups| - 1 then current else HistoryGroup(groups[i], history)
  {
    seq(|groups|, i requires 0 <= i < |groups| => if i == |groups| - 1 then current else HistoryGroup(groups[i], history))
  }

  function MandatoryTurns(p: Planner, groups: seq<seq<Message>>): (r: seq<bool>)
    ensures |r| == |groups| && forall i :: 0 <= i < |groups| ==> r[i] == Mandatory(p, groups, i)
  {
    seq(|groups|, i requires 0 <= i < |groups| => Mandatory(p, groups, i))
  }

  function AllTurns(n: nat): (r: seq<bool>)
    ensures |r| == n && forall i :: 0 <= i < n ==> r[i]
  {
    seq(n, _ => true)
  }

  lemma CostNone(e: Estimate, groups: seq<seq<Message>>, selected: seq<bool>)
    ensures Cost(e, groups, selected, 0) == 0
  {
  }

  lemma CostNext(e: Estimate, groups: seq<seq<Message>>, selected: seq<bool>, i: nat)
    requires i < |groups| && i < |selected|
    ensures Cost(e, groups, selected, i + 1) == Cost(e, groups, selected, i) + (if selected[i] then Additional(e, groups[i]) else 0)
  {
  }

  /** The first pass of `Plan` over the turns. */
  method ProjectTurns(p: Planner, e: Estimate, groups: seq<seq<Message>>, current: seq<Message>, history: map<string, string>, fixedTokens: int)
      returns (projected: array<seq<Message>>, selected: array<bool>, total: int, full: int)
    requires |groups| > 0
    ensures fresh(projected) && fresh(selected) && projected.Length == selected.Length == |groups|
    ensures projected[..] == HistoryTurns(groups, current, history) && selected[..] == MandatoryTurns(p, groups)
    ensures total == fixedTokens + Cost(e, projected[..], selected[..], |groups|)
    ensures full == fixedTokens + Cost(e, projected[..], AllTurns(|groups|), |groups|)
  {
    hide Additional, HasTools, Mandatory, Cost, HistoryTurns, MandatoryTurns, AllTurns;
    var n := |groups|;
    projected, selected := new seq<Message>[n](_ => []), new bool[n](_ => false);
    ghost var turns, kept, all := HistoryTurns(groups, current, history), MandatoryTurns(p, groups), AllTurns(n);
    total, full := fixedTokens, fixedTokens;
    CostNone(e, turns, kept);
    CostNone(e, turns, all);
    for i := 0 to n
      invariant forall k :: 0 <= k < i ==> projected[k] == turns[k] && selected[k] == kept[k]
      invariant total == fixedTokens + Cost(e, turns, kept, i) && full == fixedTokens + Cost(e, turns, all, i)
    {
      if i == n - 1 {
        projected[i] := current;
      } else {
        projected[i] := ProjectHistoryGroup(groups[i], history);
      }
      var tools := GroupHasTools(groups[i]);
      selected[i] := i >= Max(0, n - 3) || i in p.protectedTurns || tools;
      MandatoryMeans(p, groups, i);
      CostNext(e, turns, kept, i);
      CostNext(e, turns, all, i);
      full := full + Additional(e, projected[i]);
      if selected[i] { total := total + Additional(e, projected[i]); }
    }
    assert projected[..] == turns && selected[..] == kept;
  }

  lemma MandatoryMeans(p: Planner, groups: seq<seq<Message>>, i: nat)
    requires i < |groups|
    ensures Mandatory(p, groups, i) <==> i >= Max(0, |groups| - 3) || i in p.protectedTurns || HasTools(groups[i])
  {
  }

  // ----- Bounding older prose -----

  /** A selected, unprotected turn with long assistant prose. */
  predicate Boundable(p: Planner, projected: seq<seq<Message>>, selected: seq<bool>, i: int)
    requires 0 <= i < |projected| == |selected|
  {
    selected[i] && i !in p.protectedTurns && HasLongProse(projected[i])
  }

  /** The turns with the first `m` looked at. */
  function BoundedUpTo(p: Planner, projected: seq<seq<Message>>, selected: seq<bool>, m: nat): (r: seq<seq<Message>>)
    requires |projected| == |selected|
    ensures |r| == |projected|
    ensures forall i :: 0 <= i < |r| ==> r[i] == if i < m && Boundable(p, projected, selected, i) then BoundedGroup(p, projected[i], i) else projected[i]
  {
    seq(|projected|, i requires 0 <= i < |projected| =>
      if i < m && Boundable(p, projected, selected, i) then BoundedGroup(p, projected[i], i) else projected[i])
  }

  lemma BoundedNext(p: Planner, e: Estimate, projected: seq<seq<Message>>, selected: seq<bool>, m: nat)
    requires m < |projected| == |selected|
    ensures var a, b := BoundedUpTo(p, projected, selected, m), BoundedUpTo(p, projected, selected, m + 1);
            && a[m] == projected[m]
            && b == (if Boundable(p, projected, selected, m) then a[m := BoundedGroup(p, projected[m], m)] else a)
            && Cost(e, b, selected, |projected|) == Cost(e, a, selected, |projected|)
                 + (if Boundable(p, projected, selected, m) then Additional(e, b[m]) - Additional(e, projected[m]) else 0)
  {
    hide Boundable, BoundedGroup, Additional;
    var a, b := BoundedUpTo(p, projected, selected, m), BoundedUpTo(p, projected, selected, m + 1);
    if Boundable(p, projected, selected, m) {
      assert b == a[m := BoundedGroup(p, projected[m], m)];
      BoundableIsSelected(p, projected, selected, m);
      CostReplaced(e, a, selected, m, BoundedGroup(p, projected[m], m), |projected|);
    } else {
      assert b == a;
    }
  }

  lemma BoundableIsSelected(p: Planner, projected: seq<seq<Message>>, selected: seq<bool>, i: nat)
    requires i < |projected| == |selected| && Boundable(p, projected, selected, i)
    ensures selected[i]
  {
  }

  /** The second pass of `Plan`: while the selection is too large, bound the prose of older turns, oldest first.
      `looked` is how many turns it looked at; at each of them the selection was still too large. */
  method BoundOlder(p: Planner, e: Estimate, projected: array<seq<Message>>, selected: array<bool>, maximumInput: int, fixedTokens: int, total0: int)
      returns (bounded: array<bool>, total: int, ghost looked: nat)
    requires projected.Length == selected.Length > 0
    requires total0 == fixedTokens + Cost(e, projected[..], selected[..], projected.Length)
    modifies projected
    ensures fresh(bounded) && bounded.Length == projected.Length && looked < projected.Length
    ensures projected[..] == BoundedUpTo(p, old(projected[..]), selected[..], looked)
    ensures forall i :: 0 <= i < projected.Length ==> bounded[i] == (i < looked && Boundable(p, old(projected[..]), selected[..], i))
    ensures total == fixedTokens + Cost(e, projected[..], selected[..], projected.Length)
    ensures total > maximumInput ==> looked == projected.Length - 1
    ensures forall j :: 0 <= j < looked ==>
              fixedTokens + Cost(e, BoundedUpTo(p, old(projected[..]), selected[..], j), selected[..], projected.Length) > maximumInput
  {
    hide Additional, HasLongProse, BoundedGroup, Cost, GroupKept, LongProse, BoundedMessage;
    var n := projected.Length;
    ghost var before, chosen := projected[..], selected[..];
    bounded := new bool[n](_ => false);
    total := total0;
    var index := 0;
    assert BoundedUpTo(p, before, chosen, 0) == before;
    while total > maximumInput && index < n - 1
      invariant 0 <= index <= n - 1
      invariant projected[..] == BoundedUpTo(p, before, chosen, index)
      invariant forall i :: 0 <= i < n ==> bounded[i] == (i < index && Boundable(p, before, chosen, i))
      invariant total == fixedTokens + Cost(e, projected[..], chosen, n)
      invariant forall j :: 0 <= j < index ==> fixedTokens + Cost(e, BoundedUpTo(p, before, chosen, j), chosen, n) > maximumInput
      decreases n - index
    {
      BoundedNext(p, e, before, chosen, index);
      assert projected[..][index] == before[index];
      if selected[index] && index !in p.protectedTurns {
        var candidate, changed := BoundHistoryProse(p, projected[index], index);
        if changed {
          ghost var a := projected[..];
          total := total + Additional(e, candidate) - Additional(e, projected[index]);
          projected[index] := candidate;
          bounded[index] := true;
          assert projected[..] == a[index := candidate];
        }
      }
      index := index + 1;
    }
    looked := index;
  }

  // ----- Memory -----

  function Join(items: seq<string>, separator: string): string {
    if |items| == 0 then "" else if |items| == 1 then items[0]
    else Join(items[..|items| - 1], separator) + separator + items[|items| - 1]
  }

  const MEMORY_HEADING := "\n\n会话记忆：\n"

  /** The memory message with the first `k` items. */
  function MemoryMessage(memory: Memory, k: nat): Message
    requires k <= |memory.items|
  {
    Message("system", TrimSpace(memory.instruction) + MEMORY_HEADING + Join(memory.items[..k], "\n"), [], "")
  }

  /** `k` is how many items fit: every shorter message was within the cap, and the next one is not. */
  ghost predicate MemoryFits(e: Estimate, memory: Memory, cap: int, k: nat)
    requires k <= |memory.items|
  {
    && (forall j :: 1 <= j <= k ==> Additional(e, [MemoryMessage(memory, j)]) <= cap)
    && (k < |memory.items| ==> Additional(e, [MemoryMessage(memory, k + 1)]) > cap)
  }

  /** The longest prefix of the items is unique. */
  lemma MemoryPrefixUnique(e: Estimate, memory: Memory, cap: int, i: nat, k: nat)
    requires i <= |memory.items| && k <= |memory.items| && MemoryFits(e, memory, cap, i) && MemoryFits(e, memory, cap, k)
    ensures i == k
  {
    hide Additional, MemoryMessage;
  }

  /** `selectMemoryMessage`. */
  method SelectMemoryMessage(e: Estimate, memory: Memory, cap: int) returns (message: Option<Message>, count: nat)
    ensures count <= |memory.items| && (message.Some? <==> count > 0)
    ensures message.Some? ==> message.value == MemoryMessage(memory, count)
    ensures TrimSpace(memory.instruction) == "" ==> count == 0
    ensures TrimSpace(memory.instruction) != "" ==> MemoryFits(e, memory, cap, count)
  {
    hide Additional, TrimSpace, Join;
    var instruction := TrimSpace(memory.instruction);
    if instruction == "" || |memory.items| == 0 { return None, 0; }
    var chosen: seq<string> := [];
    for k := 0 to |memory.items|
      invariant chosen == memory.items[..k]
      invariant forall j :: 1 <= j <= k ==> Additional(e, [MemoryMessage(memory, j)]) <= cap
    {
      assert memory.items[..k + 1] == memory.items[..k] + [memory.items[k]];
      var candidate := Message("system", instruction + MEMORY_HEADING + Join(chosen + [memory.items[k]], "\n"), [], "");
      if Additional(e, [candidate]) > cap {
        if k == 0 { return None, 0; }
        return Some(Message("system", instruction + MEMORY_HEADING + Join(chosen, "\n"), [], "")), k;
      }
      chosen := chosen + [memory.items[k]];
    }
    assert memory.items[..|memory.items|] == memory.items;
    message, count := Some(Message("system", instruction + MEMORY_HEADING + Join(chosen, "\n"), [], "")), |memory.items|;
  }

  // ----- Filling backwards -----

  /** What the turns newer than `i` added since the selection was `before`. */
  function Newer(e: Estimate, groups: seq<seq<Message>>, before: seq<bool>, after: seq<bool>, i: nat): int
    requires |groups| == |before| == |after| && i < |groups|
    decreases |groups| - i
  {
    if i + 1 == |groups| then 0
    else Newer(e, groups, before, after, i + 1) + (if after[i + 1] && !before[i + 1] then Additional(e, groups[i + 1]) else 0)
  }

  lemma {:induction false} NewerSame(e: Estimate, groups: seq<seq<Message>>, before: seq<bool>, a: seq<bool>, b: seq<bool>, i: nat)
    requires |groups| == |before| == |a| == |b| && i < |groups| && forall k :: i < k < |groups| ==> a[k] == b[k]
    ensures Newer(e, groups, before, a, i) == Newer(e, groups, before, b, i)
    decreases |groups| - i
  {
    if i + 1 < |groups| { NewerSame(e, groups, before, a, b, i + 1); }
  }

  /** The last pass of `Plan`: from the newest to the oldest, take every turn that still fits. */
  method FillBackward(e: Estimate, projected: array<seq<Message>>, selected: array<bool>, inputLimit: int, ghost base: int, total0: int) returns (total: int)
    requires projected.Length == selected.Length
    requires total0 == base + Cost(e, projected[..], selected[..], projected.Length) && total0 <= inputLimit
    modifies selected
    ensures forall i :: 0 <= i < selected.Length && old(selected[i]) ==> selected[i]
    ensures total == base + Cost(e, projected[..], selected[..], projected.Length) && total0 <= total <= inputLimit
    ensures forall i :: 0 <= i < selected.Length && !old(selected[i]) ==>
              (selected[i] <==> total0 + Newer(e, projected[..], old(selected[..]), selected[..], i) + Additional(e, projected[i]) <= inputLimit)
    ensures forall i :: 0 <= i < selected.Length && !selected[i] ==> total + Additional(e, projected[i]) > inputLimit
  {
    hide Additional;
    ghost var before, groups := selected[..], projected[..];
    var n := projected.Length;
    total := total0;
    for index := n downto 0
      invariant |selected[..]| == n
      invariant forall i :: 0 <= i < n && (i < index || before[i]) ==> selected[i] == before[i]
      invariant total == base + Cost(e, groups, selected[..], n) && total0 <= total <= inputLimit
      invariant index > 0 ==> total == total0 + Newer(e, groups, before, selected[..], index - 1)
      invariant forall i :: index <= i < n && !before[i] ==>
                  (selected[i] <==> total0 + Newer(e, groups, before, selected[..], i) + Additional(e, groups[i]) <= inputLimit)
      invariant forall i :: index <= i < n && !selected[i] ==> total + Additional(e, groups[i]) > inputLimit
    {
      ghost var chosen := selected[..];
      assert groups[index] == projected[index];
      if !selected[index] {
        var size := Additional(e, projected[index]);
        if total + size <= inputLimit {
          CostSelected(e, groups, chosen, index, n);
          selected[index] := true;
          assert selected[..] == chosen[index := true];
          total := total + size;
          forall i | index <= i < n ensures Newer(e, groups, before, selected[..], i) == Newer(e, groups, before, chosen, i) {
            NewerSame(e, groups, before, selected[..], chosen, i);
          }
        }
      }
    }
  }

  // ----- Putting the request together -----

  /** The selected turns among the first `n`, whole and in order. */
  function SelectedMessages(groups: seq<seq<Message>>, selected: seq<bool>, n: nat): seq<Message>
    requires n <= |groups| && n <= |selected|
  {
    if n == 0 then [] else SelectedMessages(groups, selected, n - 1) + (if selected[n - 1] then groups[n - 1] else [])
  }

  function Count(flags: seq<bool>, n: nat): (r: nat)
    requires n <= |flags|
    ensures r <= n
  {
    if n == 0 then 0 else Count(flags, n - 1) + (if flags[n - 1] then 1 else 0)
  }

  function Both(a: seq<bool>, b: seq<bool>): (r: seq<bool>)
    requires |a| == |b|
    ensures |r| == |a| && forall i :: 0 <= i < |r| ==> r[i] == (a[i] && b[i])
  {
    seq(|a|, i requires 0 <= i < |a| => a[i] && b[i])
  }

  method Assemble(system: seq<Message>, memory: Option<Message>, projected: array<seq<Message>>, selected: array<bool>, bounded: array<bool>)
      returns (messages: seq<Message>, selectedCount: int, projectedCount: int)
    requires projected.Length == selected.Length == bounded.Length
    ensures messages == Head(system, memory) + SelectedMessages(projected[..], selected[..], projected.Length)
    ensures selectedCount == Count(selected[..], selected.Length)
    ensures projectedCount == Count(Both(selected[..], bounded[..]), selected.Length)
  {
    messages := system;
    if memory.Some? { messages := messages + [memory.value]; }
    selectedCount, projectedCount := 0, 0;
    for i := 0 to projected.Length
      invariant messages == Head(system, memory) + SelectedMessages(projected[..], selected[..], i)
      invariant selectedCount == Count(selected[..], i) && projectedCount == Count(Both(selected[..], bounded[..]), i)
    {
      if selected[i] {
        selectedCount := selectedCount + 1;
        if bounded[i] { projectedCount := projectedCount + 1; }
        messages := messages + projected[i];
      }
    }
  }

  /** The system messages, and behind them the memory message if there is one. */
  function Head(system: seq<Message>, memory: Option<Message>): seq<Message> {
    system + (match memory case None => [] case Some(m) => [m])
  }

  // ----- The plan -----

  /** What a plan was made of: the turns, their projections, which were taken and which were bounded, the memory, the
      running total, the turn in progress as projected, and how many older turns were looked at for long prose. */
  datatype Choice = Choice(groups: seq<seq<Message>>, projected: seq<seq<Message>>, selected: seq<bool>, bounded: seq<bool>,
                           memory: Option<Message>, memoryCap: int, inputLimit: int, total: int, current: seq<Message>, looked: nat)

  ghost predicate Shaped(c: Choice) {
    |c.groups| == |c.projected| == |c.selected| == |c.bounded|
  }

  /** The structure of a compacted request. */
  ghost predicate Structured(p: Planner, messages: seq<Message>, tools: seq<Tool>, plan: Plan, c: Choice) {
    && Shaped(c) && Turns(c.groups) && Flatten(c.groups) == Conversation(messages)
    && plan.request.tools == tools
    && plan.request.messages == Head(Systems(messages), c.memory) + SelectedMessages(c.projected, c.selected, |c.groups|)
    && (forall i :: 0 <= i < |c.groups| && Mandatory(p, c.groups, i) ==> c.selected[i])
    && (forall i :: 0 <= i < |c.groups| ==> GroupKept(c.groups[i], c.projected[i]))
    && (forall i :: 0 <= i < |c.groups| && c.bounded[i] ==> c.selected[i] && i !in p.protectedTurns && i < |c.groups| - 1)
    && plan.totalTurns == |c.groups| && plan.selectedTurns == Count(c.selected, |c.groups|)
    && plan.selectedTurns + plan.droppedTurns == plan.totalTurns && plan.projectedTurns == Count(Both(c.selected, c.bounded), |c.groups|)
  }

  /** The memory message is the longest prefix of the items within its cap. */
  ghost predicate Remembered(p: Planner, e: Estimate, plan: Plan, c: Choice) {
    && plan.usedMemory == c.memory.Some? && 0 <= plan.memoryItems <= |p.memory.items| && (c.memory.Some? <==> plan.memoryItems > 0)
    && (c.memory.Some? ==> Mode(p) == "auto" && c.memory.value == MemoryMessage(p.memory, plan.memoryItems))
    && (Mode(p) == "auto" && c.memoryCap > 0 && TrimSpace(p.memory.instruction) != "" ==> MemoryFits(e, p.memory, c.memoryCap, plan.memoryItems))
    && c.memoryCap <= PercentRoundUp(p.window, 20)
  }

  /** No dropped turn would still have fitted. */
  ghost predicate Maximal(e: Estimate, c: Choice)
    requires Shaped(c)
  {
    c.total <= c.inputLimit
    && forall i :: 0 <= i < |c.groups| && !c.selected[i] ==> c.total + Additional(e, c.projected[i]) > c.inputLimit
  }

  /** Prose was bounded no further than necessary: the projections are those with the first `looked` turns bounded;
      with fewer the mandatory turns were still too large, with these they fit. */
  ghost predicate Necessary(p: Planner, e: Estimate, history: map<string, string>, fixedTokens: int, c: Choice) {
    var turns, kept := HistoryTurns(c.groups, c.current, history), MandatoryTurns(p, c.groups);
    && Shaped(c) && c.looked < |c.groups| && c.projected == BoundedUpTo(p, turns, kept, c.looked)
    && fixedTokens + Cost(e, c.projected, kept, |c.groups|) <= MaximumInput(p)
    && forall j :: 0 <= j < c.looked ==> fixedTokens + Cost(e, BoundedUpTo(p, turns, kept, j), kept, |c.groups|) > MaximumInput(p)
  }

  /** The optional turns were taken greedily from the newest: each exactly if it fitted behind the newer ones. */
  ghost predicate Greedy(p: Planner, e: Estimate, fixedTokens: int, c: Choice)
    requires Shaped(c)
  {
    var kept := MandatoryTurns(p, c.groups);
    var base := fixedTokens + Cost(e, c.projected, kept, |c.groups|) + MemoryCost(e, c.memory);
    forall i :: 0 <= i < |c.groups| && !kept[i] ==>
      (c.selected[i] <==> base + Newer(e, c.projected, kept, c.selected, i) + Additional(e, c.projected[i]) <= c.inputLimit)
  }

  /** The running total is the cost of what was taken. */
  ghost predicate Accounted(e: Estimate, fixedTokens: int, c: Choice)
    requires Shaped(c)
  {
    c.total == fixedTokens + MemoryCost(e, c.memory) + Cost(e, c.projected, c.selected, |c.groups|)
  }

  lemma AdditiveStep(e: Estimate, a: seq<Message>, b: seq<Message>, tools: seq<Tool>)
    requires Additive(e)
    ensures e(Request(a + b, tools, 0)) == e(Request(a, tools, 0)) + Additional(e, b)
  {
  }

  /** With an additive estimator the estimate of the whole request is the running total. */
  lemma {:induction false} EstimateAddsUp(e: Estimate, head: seq<Message>, groups: seq<seq<Message>>, selected: seq<bool>, n: nat, tools: seq<Tool>)
    requires Additive(e) && n <= |groups| && n <= |selected|
    ensures e(Request(head + SelectedMessages(groups, selected, n), tools, 0)) == e(Request(head, tools, 0)) + Cost(e, groups, selected, n)
  {
    hide Additive, Additional;
    if n == 0 {
      assert head + [] == head;
    } else {
      EstimateAddsUp(e, head, groups, selected, n - 1, tools);
      var front := SelectedMessages(groups, selected, n - 1);
      if selected[n - 1] {
        AdditiveStep(e, head + front, groups[n - 1], tools);
        assert head + (front + groups[n - 1]) == head + front + groups[n - 1];
      } else {
        assert front + [] == front;
      }
    }
  }

  lemma OutputNotCharged(e: Estimate, messages: seq<Message>, tools: seq<Tool>, n: int)
    requires Additive(e)
    ensures e(Request(messages, tools, n)) == e(Request(messages, tools, 0))
  {
    assert messages + [] == messages;
    assert e(Request(messages + [], tools, n)) == e(Request(messages, tools, 0)) + Additional(e, []);
    assert e(Request(messages + [], tools, 0)) == e(Request(messages, tools, 0)) + Additional(e, []);
  }

  lemma TotalIsEstimate(e: Estimate, system: seq<Message>, tools: seq<Tool>, c: Choice, reserved: int)
    requires Additive(e) && Shaped(c) && Accounted(e, e(Request(system, tools, 0)), c)
    ensures e(Request(Head(system, c.memory) + SelectedMessages(c.projected, c.selected, |c.groups|), tools, reserved)) == c.total
  {
    hide Additive, Additional;
    var head := Head(system, c.memory);
    EstimateAddsUp(e, head, c.projected, c.selected, |c.groups|, tools);
    OutputNotCharged(e, head + SelectedMessages(c.projected, c.selected, |c.groups|), tools, reserved);
    match c.memory
    case None => assert system + [] == system;
    case Some(m) => AdditiveStep(e, system, [m], tools);
  }

  lemma BoundedKept(p: Planner, g: seq<Message>, turn: nat)
    ensures GroupKept(g, BoundedGroup(p, g, turn))
  {
    hide ProjectionText, SourceOf, Excerpt, ByteLength;
  }

  lemma KeptItself(g: seq<Message>)
    ensures GroupKept(g, g)
  {
  }

  lemma TurnsKept(p: Planner, groups: seq<seq<Message>>, current: seq<Message>, history: map<string, string>, selected: seq<bool>, looked: nat)
    requires |selected| == |groups| > 0 && GroupKept(groups[|groups| - 1], current)
    ensures forall i :: 0 <= i < |groups| ==> GroupKept(groups[i], BoundedUpTo(p, HistoryTurns(groups, current, history), selected, looked)[i])
  {
    hide GroupKept, BoundedGroup, HistoryGroup, Boundable;
    var before := HistoryTurns(groups, current, history);
    forall i | 0 <= i < |groups| ensures GroupKept(groups[i], BoundedUpTo(p, before, selected, looked)[i]) {
      HistoryKept(groups[i], history);
      assert GroupKept(groups[i], before[i]);
      BoundedKept(p, before[i], i);
      GroupKeptTransitive(groups[i], before[i], BoundedGroup(p, before[i], i));
    }
  }

  lemma HistoryKept(g: seq<Message>, history: map<string, string>)
    ensures GroupKept(g, HistoryGroup(g, history))
  {
  }

  /** The selection is too large however far the oldest-first bounding goes: with the first `j` older turns looked at,
      for every `j`, the mandatory turns still exceed the input limit. */
  ghost predicate TooLarge(p: Planner, e: Estimate, groups: seq<seq<Message>>, current: seq<Message>, history: map<string, string>, fixedTokens: int) {
    forall j :: 0 <= j < |groups| ==>
      fixedTokens + Cost(e, BoundedUpTo(p, HistoryTurns(groups, current, history), MandatoryTurns(p, groups), j), MandatoryTurns(p, groups), |groups|) > MaximumInput(p)
  }

  /** What the request would cost with every turn in it and no prose bounded. */
  function FullEstimate(e: Estimate, groups: seq<seq<Message>>, current: seq<Message>, history: map<string, string>, fixedTokens: int): int {
    fixedTokens + Cost(e, HistoryTurns(groups, current, history), AllTurns(|groups|), |groups|)
  }

  /** What the first two passes establish. */
  ghost predicate Prepared(p: Planner, groups: seq<seq<Message>>, projected: seq<seq<Message>>, selected: seq<bool>, bounded: seq<bool>)
    requires |groups| == |projected| == |selected| == |bounded|
  {
    && (forall i :: 0 <= i < |groups| ==> GroupKept(groups[i], projected[i]))
    && (forall i :: 0 <= i < |groups| && Mandatory(p, groups, i) ==> selected[i])
    && forall i :: 0 <= i < |groups| && bounded[i] ==> selected[i] && i !in p.protectedTurns && i < |groups| - 1
  }

  /** The first two passes of `Plan`. */
  method PrepareTurns(p: Planner, e: Estimate, groups: seq<seq<Message>>, current: seq<Message>, history: map<string, string>, fixedTokens: int)
      returns (projected: array<seq<Message>>, selected: array<bool>, bounded: array<bool>, total: int, full: int, ghost looked: nat)
    requires |groups| > 0 && GroupKept(groups[|groups| - 1], current)
    ensures fresh(projected) && fresh(selected) && fresh(bounded) && selected != bounded
    ensures projected.Length == selected.Length == bounded.Length == |groups|
    ensures Prepared(p, groups, projected[..], selected[..], bounded[..])
    ensures total == fixedTokens + Cost(e, projected[..], selected[..], |groups|)
    ensures full == FullEstimate(e, groups, current, history, fixedTokens)
    ensures total > MaximumInput(p) <==> TooLarge(p, e, groups, current, history, fixedTokens)
    ensures looked < |groups| && selected[..] == MandatoryTurns(p, groups)
    ensures projected[..] == BoundedUpTo(p, HistoryTurns(groups, current, history), MandatoryTurns(p, groups), looked)
    ensures forall j :: 0 <= j < looked ==>
              fixedTokens + Cost(e, BoundedUpTo(p, HistoryTurns(groups, current, history), MandatoryTurns(p, groups), j),
                                 MandatoryTurns(p, groups), |groups|) > MaximumInput(p)
  {
    hide GroupKept, Cost, Mandatory, HasLongProse, MaximumInput;
    projected, selected, total, full := ProjectTurns(p, e, groups, current, history, fixedTokens);
    ghost var before := projected[..];
    bounded, total, looked := BoundOlder(p, e, projected, selected, MaximumInput(p), fixedTokens, total);
    TurnsKept(p, groups, current, history, selected[..], looked);
  }

  /** The memory pass of `Plan`. */
  method Remember(p: Planner, e: Estimate, inputLimit: int, total0: int) returns (memory: Option<Message>, items: nat, cap: int, total: int)
    requires total0 <= inputLimit
    ensures items <= |p.memory.items| && (memory.Some? <==> items > 0) && cap <= Max(0, PercentRoundUp(p.window, 20))
    ensures memory.Some? ==> Mode(p) == "auto" && memory.value == MemoryMessage(p.memory, items)
    ensures Mode(p) == "auto" && |p.memory.items| > 0 ==> cap == Min(PercentRoundUp(p.window, 20), inputLimit - total0)
    ensures Mode(p) == "auto" && cap > 0 && TrimSpace(p.memory.instruction) != "" ==> MemoryFits(e, p.memory, cap, items)
    ensures total == total0 + MemoryCost(e, memory) && total <= inputLimit
  {
    hide TrimSpace, Additional, PercentRoundUp, MemoryMessage;
    memory, items, cap, total := None, 0, 0, total0;
    if Mode(p) == "auto" && |p.memory.items| > 0 {
      cap := Min(PercentRoundUp(p.window, 20), inputLimit - total);
      if cap > 0 {
        memory, items := SelectMemoryMessage(e, p.memory, cap);
        if memory.Some? { total := total + Additional(e, [memory.value]); }
      }
    }
  }

  function MemoryCost(e: Estimate, memory: Option<Message>): int {
    match memory case None => 0 case Some(m) => Additional(e, [m])
  }

  lemma PercentNonNegative(value: int, percent: int)
    requires 0 <= percent
    ensures PercentRoundUp(value, percent) >= 0
  {
    if value > 0 { assert value / 100 * percent >= 0 && value % 100 * percent >= 0; }
  }

  lemma StructuredFrom(p: Planner, messages: seq<Message>, tools: seq<Tool>, plan: Plan, c: Choice, before: seq<bool>)
    requires Shaped(c) && |before| == |c.groups| && Turns(c.groups) && Flatten(c.groups) == Conversation(messages)
    requires Prepared(p, c.groups, c.projected, before, c.bounded)
    requires forall i :: 0 <= i < |before| && before[i] ==> c.selected[i]
    requires plan.request.tools == tools
    requires plan.request.messages == Head(Systems(messages), c.memory) + SelectedMessages(c.projected, c.selected, |c.groups|)
    requires plan.totalTurns == |c.groups| && plan.selectedTurns == Count(c.selected, |c.groups|)
    requires plan.droppedTurns == plan.totalTurns - plan.selectedTurns && plan.projectedTurns == Count(Both(c.selected, c.bounded), |c.groups|)
    ensures Structured(p, messages, tools, plan, c)
  {
    hide GroupKept, Mandatory, Turns, Flatten, Count, Both, Head, SelectedMessages, Systems, Conversation;
  }

  lemma NecessaryFrom(p: Planner, e: Estimate, history: map<string, string>, fixedTokens: int, c: Choice)
    requires Shaped(c) && c.looked < |c.groups|
    requires c.projected == BoundedUpTo(p, HistoryTurns(c.groups, c.current, history), MandatoryTurns(p, c.groups), c.looked)
    requires fixedTokens + Cost(e, c.projected, MandatoryTurns(p, c.groups), |c.groups|) <= MaximumInput(p)
    requires forall j :: 0 <= j < c.looked ==>
               fixedTokens + Cost(e, BoundedUpTo(p, HistoryTurns(c.groups, c.current, history), MandatoryTurns(p, c.groups), j),
                                  MandatoryTurns(p, c.groups), |c.groups|) > MaximumInput(p)
    ensures Necessary(p, e, history, fixedTokens, c)
  {
    hide Cost, BoundedUpTo, HistoryTurns, MandatoryTurns, MaximumInput;
  }

  lemma GreedyFrom(p: Planner, e: Estimate, fixedTokens: int, c: Choice, before: seq<bool>, base: int)
    requires Shaped(c) && before == MandatoryTurns(p, c.groups)
    requires base == fixedTokens + Cost(e, c.projected, before, |c.groups|) + MemoryCost(e, c.memory)
    requires forall i :: 0 <= i < |before| && !before[i] ==>
               (c.selected[i] <==> base + Newer(e, c.projected, before, c.selected, i) + Additional(e, c.projected[i]) <= c.inputLimit)
    ensures Greedy(p, e, fixedTokens, c)
  {
    hide Cost, Newer, Additional, MandatoryTurns, MemoryCost;
  }

  /** The output is what the ceiling allows behind the mandatory turns, and the memory may have a fifth of the window
      as far as that leaves room. */
  ghost predicate Limited(p: Planner, e: Estimate, fixedTokens: int, c: Choice)
    requires Shaped(c)
  {
    var spent := fixedTokens + Cost(e, c.projected, MandatoryTurns(p, c.groups), |c.groups|);
    && p.window - SafetyMargin(p) - c.inputLimit == Min(OutputCeiling(p), p.window - SafetyMargin(p) - spent)
    && (Mode(p) == "auto" && |p.memory.items| > 0 ==> c.memoryCap == Min(PercentRoundUp(p.window, 20), c.inputLimit - spent))
  }

  lemma LimitedFrom(p: Planner, e: Estimate, fixedTokens: int, c: Choice, before: seq<bool>, spent: int)
    requires Shaped(c) && before == MandatoryTurns(p, c.groups) && spent == fixedTokens + Cost(e, c.projected, before, |c.groups|)
    requires p.window - SafetyMargin(p) - c.inputLimit == Min(OutputCeiling(p), p.window - SafetyMargin(p) - spent)
    requires Mode(p) == "auto" && |p.memory.items| > 0 ==> c.memoryCap == Min(PercentRoundUp(p.window, 20), c.inputLimit - spent)
    ensures Limited(p, e, fixedTokens, c)
  {
    hide Cost, MandatoryTurns, SafetyMargin, OutputCeiling, Mode, PercentRoundUp;
  }

  /** The choice is the one the passes over the turns make. */
  ghost predicate Chosen(p: Planner, e: Estimate, messages: seq<Message>, tools: seq<Tool>, history: map<string, string>,
                         groups: seq<seq<Message>>, current: seq<Message>, c: Choice)
  {
    var fixedTokens := e(Request(Systems(messages), tools, 0));
    && Shaped(c) && c.groups == groups && c.current == current
    && Necessary(p, e, history, fixedTokens, c) && Greedy(p, e, fixedTokens, c) && Accounted(e, fixedTokens, c) && Limited(p, e, fixedTokens, c)
  }

  /** The request a choice comes to, with the output reserved for it. */
  ghost function AssembledRequest(p: Planner, messages: seq<Message>, tools: seq<Tool>, c: Choice): Request
    requires Shaped(c)
  {
    Request(Head(Systems(messages), c.memory) + SelectedMessages(c.projected, c.selected, |c.groups|), tools, p.window - SafetyMargin(p) - c.inputLimit)
  }

  /** The part of `Plan` that selects: project, bound, remember, fill, and estimate once more. */
  method PlanCompacted(p: Planner, e: Estimate, messages: seq<Message>, tools: seq<Tool>, history: map<string, string>,
                       groups: seq<seq<Message>>, current: seq<Message>) returns (r: Result, ghost c: Choice)
    requires |groups| > 0 && Turns(groups) && Flatten(groups) == Conversation(messages) && GroupKept(groups[|groups| - 1], current)
    requires 1 <= MinimumOutput(p)
    ensures r.Planned? ==> Fits(p, r.plan) && Structured(p, messages, tools, r.plan, c) && Remembered(p, e, r.plan, c) && Maximal(e, c)
    ensures r != Failed(RecentTurnsTooLarge) ==> Chosen(p, e, messages, tools, history, groups, current, c)
    ensures r.Planned? ==> r.plan.estimatedInput == e(Request(r.plan.request.messages, tools, p.window - SafetyMargin(p) - c.inputLimit))
    ensures r == Failed(RecentTurnsTooLarge) <==> TooLarge(p, e, groups, current, history, e(Request(Systems(messages), tools, 0)))
    ensures r.Failed? ==> r.error == RecentTurnsTooLarge || (r.error == BudgetInvalid(EstimateTooLarge) && !Additive(e))
    ensures r == Failed(BudgetInvalid(EstimateTooLarge)) <==>
              r != Failed(RecentTurnsTooLarge) && Shaped(c) && e(AssembledRequest(p, messages, tools, c)) > MaximumInput(p)
    ensures r.Planned? && Additive(e) ==> r.plan.estimatedInput == c.total && r.plan.reservedOutput == p.window - SafetyMargin(p) - c.inputLimit
    ensures r.Planned? ==> (r.plan.softPressure <==>
              FullEstimate(e, groups, current, history, e(Request(Systems(messages), tools, 0))) >= PercentRoundUp(c.inputLimit, 72))
  {
    hide FullEstimate, Limited, Turns, Flatten, Conversation, Systems, GroupKept, Mandatory, Prepared, Structured, Cost, Count, Both, Head, SelectedMessages, Additive, Additional,
      PercentRoundUp, TrimSpace, MemoryMessage, MemoryFits, OutputCeiling, TooLarge, Necessary, Greedy, MandatoryTurns, HistoryTurns, BoundedUpTo, Newer;
    var n, system := |groups|, Systems(messages);
    var fixedTokens := e(Request(system, tools, 0));
    var projected, selected, bounded, total, full;
    ghost var looked;
    projected, selected, bounded, total, full, looked := PrepareTurns(p, e, groups, current, history, fixedTokens);
    ghost var before, prepared := selected[..], total;
    if total > MaximumInput(p) {
      c := Choice([], [], [], [], None, 0, 0, 0, [], 0);
      return Failed(RecentTurnsTooLarge), c;
    }
    var reserved := Min(OutputCeiling(p), p.window - SafetyMargin(p) - total);
    var inputLimit := p.window - SafetyMargin(p) - reserved;
    var memory, memoryItems, memoryCap, withMemory := Remember(p, e, inputLimit, total);
    PercentNonNegative(p.window, 20);
    total := FillBackward(e, projected, selected, inputLimit, fixedTokens + MemoryCost(e, memory), withMemory);
    var all, selectedCount, projectedCount := Assemble(system, memory, projected, selected, bounded);
    c := Choice(groups, projected[..], selected[..], bounded[..], memory, memoryCap, inputLimit, total, current, looked);
    NecessaryFrom(p, e, history, fixedTokens, c);
    GreedyFrom(p, e, fixedTokens, c, before, withMemory);
    LimitedFrom(p, e, fixedTokens, c, before, prepared);
    var estimated := e(Request(all, tools, reserved));
    var output := Min(reserved, p.window - SafetyMargin(p) - estimated);
    if Additive(e) { TotalIsEstimate(e, system, tools, c, reserved); }
    assert AssembledRequest(p, messages, tools, c) == Request(all, tools, reserved);
    if output < MinimumOutput(p) { return Failed(BudgetInvalid(EstimateTooLarge)), c; }
    var plan := Plan(Request(all, tools, output), estimated, output, SafetyMargin(p), full >= PercentRoundUp(inputLimit, 72),
                     n, selectedCount, n - selectedCount, projectedCount, memoryItems, memory.Some?);
    StructuredFrom(p, messages, tools, plan, c, before);
    r := Planned(plan);
  }

  /** Why `Plan` refuses its settings before it looks at any message, if it does. */
  function Misconfigured(p: Planner): Option<Fault> {
    if p.window < 1 || p.estimator.None? then Some(Configuration)
    else if Mode(p) != "auto" && Mode(p) != "recent-only" && Mode(p) != "off" then Some(UnknownMode)
    else if WantedOutput(p) <= 0 then Some(OutputLimit)
    else if MaximumInput(p) <= 0 then Some(Window)
    else None
  }

  function FixedTokens(p: Planner, messages: seq<Message>, tools: seq<Tool>): int
    requires p.estimator.Some?
  {
    p.estimator.value(Request(Systems(messages), tools, 0))
  }

  /** The settings are in order, the system messages fit, and there is a conversation. */
  ghost predicate Converses(p: Planner, messages: seq<Message>, tools: seq<Tool>) {
    Misconfigured(p).None? && p.estimator.Some? && FixedTokens(p, messages, tools) <= MaximumInput(p) && Conversation(messages) != []
  }

  function Room(p: Planner, messages: seq<Message>, tools: seq<Tool>): int
    requires p.estimator.Some?
  {
    MaximumInput(p) - FixedTokens(p, messages, tools)
  }

  /** The turn in progress: the last one, without the arguments of its answered calls if it is too large with them
      and may be projected. */
  ghost function InProgress(p: Planner, messages: seq<Message>, tools: seq<Tool>): seq<Message>
    requires Converses(p, messages, tools)
  {
    var groups := TurnsOf(Conversation(messages));
    var last := groups[|groups| - 1];
    if Additional(p.estimator.value, last) > Room(p, messages, tools) && Mode(p) != "off" then WithoutArguments(last) else last
  }

  ghost predicate TurnFits(p: Planner, messages: seq<Message>, tools: seq<Tool>) {
    Converses(p, messages, tools) && Additional(p.estimator.value, InProgress(p, messages, tools)) <= Room(p, messages, tools)
  }

  ghost predicate WholeHistoryTooLarge(p: Planner, messages: seq<Message>, tools: seq<Tool>)
    requires p.estimator.Some?
  {
    p.estimator.value(Request(Systems(messages) + Conversation(messages), tools, 0)) > MaximumInput(p)
  }

  ghost predicate RecentTooLarge(p: Planner, messages: seq<Message>, tools: seq<Tool>, history: map<string, string>)
    requires Converses(p, messages, tools)
  {
    TooLarge(p, p.estimator.value, TurnsOf(Conversation(messages)), InProgress(p, messages, tools), history, FixedTokens(p, messages, tools))
  }

  /** Nothing is refused before the turns are selected. */
  ghost predicate Selects(p: Planner, messages: seq<Message>, tools: seq<Tool>, history: map<string, string>) {
    TurnFits(p, messages, tools) && Mode(p) != "off" && !RecentTooLarge(p, messages, tools, history)
  }

  /** What a request that was not compacted is. */
  ghost predicate Uncompacted(p: Planner, messages: seq<Message>, tools: seq<Tool>, plan: Plan)
    requires p.estimator.Some?
  {
    && plan.request.messages == Systems(messages) + Conversation(messages) && plan.request.tools == tools
    && plan.estimatedInput == p.estimator.value(Request(plan.request.messages, tools, 0)) && !plan.softPressure
    && plan.totalTurns == plan.selectedTurns == |TurnsOf(Conversation(messages))| && plan.droppedTurns == 0
  }

  /** What a compacted one is. */
  ghost predicate Compacted(p: Planner, messages: seq<Message>, tools: seq<Tool>, history: map<string, string>, plan: Plan, c: Choice)
    requires Converses(p, messages, tools)
  {
    var e, fixedTokens := p.estimator.value, FixedTokens(p, messages, tools);
    && Structured(p, messages, tools, plan, c) && Remembered(p, e, plan, c) && Maximal(e, c)
    && Chosen(p, e, messages, tools, history, TurnsOf(Conversation(messages)), InProgress(p, messages, tools), c)
    && plan.estimatedInput == e(Request(plan.request.messages, tools, p.window - SafetyMargin(p) - c.inputLimit))
    && (plan.softPressure <==> FullEstimate(e, c.groups, c.current, history, fixedTokens) >= PercentRoundUp(c.inputLimit, 72))
    && (Additive(e) ==> plan.estimatedInput == c.total)
  }

  /** `Plan` with compaction off: the whole history or nothing. */
  method PlanWhole(p: Planner, messages: seq<Message>, tools: seq<Tool>, system: seq<Message>, conversation: seq<Message>, turns: int) returns (r: Result)
    requires p.estimator.Some? && 1 <= MinimumOutput(p) <= OutputCeiling(p)
    requires system == Systems(messages) && conversation == Conversation(messages) && turns == |TurnsOf(conversation)|
    ensures r.Failed? ==> r == Failed(BudgetInvalid(HistoryTooLarge))
    ensures r.Failed? <==> WholeHistoryTooLarge(p, messages, tools)
    ensures r.Planned? ==> Fits(p, r.plan) && Uncompacted(p, messages, tools, r.plan)
  {
    hide Systems, Conversation, TurnsOf, OutputCeiling, SafetyMargin, Uncompacted, Fits, MinimumOutput, MaximumInput;
    var estimated := p.estimator.value(Request(system + conversation, tools, 0));
    if estimated > MaximumInput(p) { return Failed(BudgetInvalid(HistoryTooLarge)); }
    var output := Min(OutputCeiling(p), p.window - SafetyMargin(p) - estimated);
    var plan := Plan(Request(system + conversation, tools, output), estimated, output, SafetyMargin(p), false, turns, turns, 0, 0, 0, false);
    UncompactedFrom(p, messages, tools, plan);
    r := Planned(plan);
  }

  /** `Plan` once there is a conversation: the turn in progress, then the whole history or a compacted one. */
  method PlanConversation(p: Planner, messages: seq<Message>, tools: seq<Tool>, history: map<string, string>, groups: seq<seq<Message>>)
      returns (r: Result, ghost c: Choice)
    requires Converses(p, messages, tools) && groups == TurnsOf(Conversation(messages)) && |groups| > 0
    ensures r == Failed(TurnTooLarge) <==> !TurnFits(p, messages, tools)
    ensures r == Failed(BudgetInvalid(HistoryTooLarge)) <==>
              TurnFits(p, messages, tools) && Mode(p) == "off" && WholeHistoryTooLarge(p, messages, tools)
    ensures r == Failed(RecentTurnsTooLarge) <==>
              TurnFits(p, messages, tools) && Mode(p) != "off" && RecentTooLarge(p, messages, tools, history)
    ensures Selects(p, messages, tools, history) ==>
              && Chosen(p, p.estimator.value, messages, tools, history, TurnsOf(Conversation(messages)), InProgress(p, messages, tools), c)
              && (r == Failed(BudgetInvalid(EstimateTooLarge)) <==> p.estimator.value(AssembledRequest(p, messages, tools, c)) > MaximumInput(p))
    ensures r == Failed(BudgetInvalid(EstimateTooLarge)) ==> Selects(p, messages, tools, history) && !Additive(p.estimator.value)
    ensures r.Failed? && r.error.BudgetInvalid? ==> r.error.fault == HistoryTooLarge || r.error.fault == EstimateTooLarge
    ensures r.Planned? ==> Fits(p, r.plan)
    ensures r.Planned? && Mode(p) == "off" ==> Uncompacted(p, messages, tools, r.plan)
    ensures r.Planned? && Mode(p) != "off" ==> Compacted(p, messages, tools, history, r.plan, c)
  {
    c := Choice([], [], [], [], None, 0, 0, 0, [], 0);
    hide *;
    ConversationMeans(p, messages, tools, history, groups);
    OutputIsPositive(p);
    var e, maximumInput := p.estimator.value, MaximumInput(p);
    var system, conversation := SplitSystemMessages(messages);
    var fixedTokens := e(Request(system, tools, 0));
    var last := groups[|groups| - 1];
    var current := last;
    KeptItself(last);
    if fixedTokens + Additional(e, current) > maximumInput && Mode(p) != "off" {
      current := ProjectCompletedArguments(last);
    }
    if fixedTokens + Additional(e, current) > maximumInput { return Failed(TurnTooLarge), c; }
    if Mode(p) == "off" {
      r := PlanWhole(p, messages, tools, system, conversation, |groups|);
      return;
    }
    r, c := PlanCompacted(p, e, messages, tools, history, groups, current);
    if r.Planned? { CompactedFrom(p, messages, tools, history, r.plan, c); }
  }

  /** What the refusals of a conversation come to. */
  lemma ConversationMeans(p: Planner, messages: seq<Message>, tools: seq<Tool>, history: map<string, string>, groups: seq<seq<Message>>)
    requires Converses(p, messages, tools) && groups == TurnsOf(Conversation(messages)) && |groups| > 0
    ensures p.estimator.Some? && Misconfigured(p).None?
    ensures var e, last, current := p.estimator.value, groups[|groups| - 1], InProgress(p, messages, tools);
            var fixedTokens, maximum := e(Request(Systems(messages), tools, 0)), MaximumInput(p);
            && fixedTokens == FixedTokens(p, messages, tools)
            && current == (if fixedTokens + Additional(e, last) > maximum && Mode(p) != "off" then WithoutArguments(last) else last)
            && (TurnFits(p, messages, tools) <==> fixedTokens + Additional(e, current) <= maximum)
            && (WholeHistoryTooLarge(p, messages, tools) <==> e(Request(Systems(messages) + Conversation(messages), tools, 0)) > maximum)
            && (RecentTooLarge(p, messages, tools, history) <==> TooLarge(p, e, groups, current, history, fixedTokens))
            && (Selects(p, messages, tools, history) <==>
                  TurnFits(p, messages, tools) && Mode(p) != "off" && !TooLarge(p, e, groups, current, history, fixedTokens))
  {
    hide Systems, Conversation, TurnsOf, Mode, Misconfigured, MaximumInput, Additional, WithoutArguments, TooLarge;
  }

  lemma UncompactedFrom(p: Planner, messages: seq<Message>, tools: seq<Tool>, plan: Plan)
    requires p.estimator.Some? && 1 <= MinimumOutput(p) <= OutputCeiling(p)
    requires plan.request.messages == Systems(messages) + Conversation(messages) && plan.request.tools == tools
    requires plan.estimatedInput == p.estimator.value(Request(plan.request.messages, tools, 0)) <= MaximumInput(p) && !plan.softPressure
    requires plan.totalTurns == plan.selectedTurns == |TurnsOf(Conversation(messages))| && plan.droppedTurns == 0
    requires plan.safetyMargin == SafetyMargin(p) && plan.reservedOutput == plan.request.maxTokens
    requires plan.request.maxTokens == Min(OutputCeiling(p), p.window - SafetyMargin(p) - plan.estimatedInput)
    ensures Uncompacted(p, messages, tools, plan) && Fits(p, plan)
  {
    hide Systems, Conversation, TurnsOf, OutputCeiling, SafetyMargin;
  }

  lemma CompactedFrom(p: Planner, messages: seq<Message>, tools: seq<Tool>, history: map<string, string>, plan: Plan, c: Choice)
    requires Converses(p, messages, tools) && p.estimator.Some?
    requires var e, fixedTokens := p.estimator.value, FixedTokens(p, messages, tools);
             && Structured(p, messages, tools, plan, c) && Remembered(p, e, plan, c) && Maximal(e, c) && |c.groups| > 0
             && Chosen(p, e, messages, tools, history, TurnsOf(Conversation(messages)), InProgress(p, messages, tools), c)
             && plan.estimatedInput == e(Request(plan.request.messages, tools, p.window - SafetyMargin(p) - c.inputLimit))
             && (plan.softPressure <==> FullEstimate(e, c.groups, c.current, history, fixedTokens) >= PercentRoundUp(c.inputLimit, 72))
             && (Additive(e) ==> plan.estimatedInput == c.total)
    ensures Compacted(p, messages, tools, history, plan, c)
  {
    hide Structured, Remembered, Maximal, Chosen, SafetyMargin, FullEstimate, PercentRoundUp, Additive, TurnsOf, InProgress, FixedTokens;
  }

  lemma OutputIsPositive(p: Planner)
    requires Misconfigured(p).None?
    ensures 1 <= MinimumOutput(p) <= OutputCeiling(p)
  {
    hide PercentRoundUp;
  }

  /** `Plan`. */
  method MakePlan(p: Planner, messages: seq<Message>, tools: seq<Tool>, history: map<string, string>) returns (r: Result, ghost c: Choice)
    ensures Misconfigured(p).Some? ==> r == Failed(BudgetInvalid(Misconfigured(p).value))
    ensures Misconfigured(p).None? ==> p.estimator.Some? && (r == Failed(BudgetInvalid(SystemTooLarge)) <==> FixedTokens(p, messages, tools) > MaximumInput(p))
    ensures r == Failed(TurnTooLarge) <==> Converses(p, messages, tools) && !TurnFits(p, messages, tools)
    ensures r == Failed(BudgetInvalid(HistoryTooLarge)) <==>
              TurnFits(p, messages, tools) && Mode(p) == "off" && WholeHistoryTooLarge(p, messages, tools)
    ensures r == Failed(RecentTurnsTooLarge) <==>
              TurnFits(p, messages, tools) && Mode(p) != "off" && RecentTooLarge(p, messages, tools, history)
    ensures Selects(p, messages, tools, history) ==>
              && Chosen(p, p.estimator.value, messages, tools, history, TurnsOf(Conversation(messages)), InProgress(p, messages, tools), c)
              && (r == Failed(BudgetInvalid(EstimateTooLarge)) <==> p.estimator.value(AssembledRequest(p, messages, tools, c)) > MaximumInput(p))
    ensures r == Failed(BudgetInvalid(EstimateTooLarge)) ==> Selects(p, messages, tools, history) && !Additive(p.estimator.value)
    ensures r.Planned? ==> Misconfigured(p).None? && Fits(p, r.plan)
    ensures r.Planned? && !(Converses(p, messages, tools) && Mode(p) != "off") ==> p.estimator.Some? && Uncompacted(p, messages, tools, r.plan)
    ensures r.Planned? && Converses(p, messages, tools) && Mode(p) != "off" ==> Compacted(p, messages, tools, history, r.plan, c)
  {
    c := Choice([], [], [], [], None, 0, 0, 0, [], 0);
    hide Turns, Flatten, Compacted, Additive, Systems, Conversation, TurnsOf, Mode, OutputCeiling, SafetyMargin, InProgress, RecentTooLarge, WholeHistoryTooLarge;
    var fault := Misconfigured(p);
    if fault.Some? { return Failed(BudgetInvalid(fault.value)), c; }
    var e, maximumInput := p.estimator.value, MaximumInput(p);
    var system, conversation := SplitSystemMessages(messages);
    var fixedTokens := e(Request(system, tools, 0));
    if fixedTokens > maximumInput { return Failed(BudgetInvalid(SystemTooLarge)), c; }
    var groups := MessageGroups(conversation);
    OutputIsPositive(p);
    if |groups| == 0 {
      var output := Min(OutputCeiling(p), p.window - SafetyMargin(p) - fixedTokens);
      assert conversation == [] && system + conversation == system;
      return Planned(Plan(Request(system, tools, output), fixedTokens, output, SafetyMargin(p), false, 0, 0, 0, 0, 0, false)), c;
    }
    r, c := PlanConversation(p, messages, tools, history, groups);
  }

  // ----- What the structure means -----

  lemma FollowConcat(a: seq<Message>, b: seq<Message>)
    requires ResultsFollow(a) && ResultsFollow(b)
    ensures ResultsFollow(a + b)
  {
    hide CallsTool;
    var s := a + b;
    forall i | 0 <= i < |s| && s[i].role == "tool" ensures exists j :: 0 <= j < i && CallsTool(s[j], s[i].callId) {
      if i < |a| {
        var j :| 0 <= j < i && CallsTool(a[j], a[i].callId);
        assert s[j] == a[j];
      } else {
        var j :| 0 <= j < i - |a| && CallsTool(b[j], b[i - |a|].callId);
        assert s[|a| + j] == b[j];
      }
    }
  }

  lemma {:induction false} SelectedFollow(groups: seq<seq<Message>>, selected: seq<bool>, n: nat)
    requires n <= |groups| && n <= |selected| && forall i :: 0 <= i < n ==> ResultsFollow(groups[i])
    ensures ResultsFollow(SelectedMessages(groups, selected, n))
  {
    hide ResultsFollow;
    if n == 0 {
      NothingFollows();
    } else {
      SelectedFollow(groups, selected, n - 1);
      FollowConcat(SelectedMessages(groups, selected, n - 1), groups[n - 1]);
      assert SelectedMessages(groups, selected, n - 1) + [] == SelectedMessages(groups, selected, n - 1);
    }
  }

  lemma NothingFollows()
    ensures ResultsFollow([])
  {
  }

  lemma HeadHasNoResults(messages: seq<Message>, memory: Option<Message>)
    requires memory.Some? ==> memory.value.role == "system"
    ensures ResultsFollow(Head(Systems(messages), memory))
  {
    SplitRoles(messages);
    forall m | m in Head(Systems(messages), memory) ensures m.role == "system" {}
  }

  /** In a plan no tool result loses its call: if in every turn each result follows its call, then in the whole
      request each result follows its call. And nothing a user said is altered. */
  lemma PlanKeepsToolOrder(p: Planner, e: Estimate, messages: seq<Message>, tools: seq<Tool>, plan: Plan, c: Choice)
    requires Structured(p, messages, tools, plan, c) && Remembered(p, e, plan, c)
    requires forall i :: 0 <= i < |c.groups| ==> ResultsFollow(c.groups[i])
    ensures ResultsFollow(plan.request.messages)
    ensures forall i, k :: 0 <= i < |c.groups| && 0 <= k < |c.groups[i]| && c.groups[i][k].role == "user" ==>
              |c.projected[i]| == |c.groups[i]| && c.projected[i][k] == c.groups[i][k]
  {
    hide ResultsFollow, Mandatory, Turns, Flatten, Count, Both, Head, SelectedMessages, Systems, Conversation, MemoryFits, TrimSpace, Join, PercentRoundUp;
    forall i | 0 <= i < |c.groups| ensures ResultsFollow(c.projected[i]) { ResultsStillFollow(c.groups[i], c.projected[i]); }
    SelectedFollow(c.projected, c.selected, |c.groups|);
    HeadHasNoResults(messages, c.memory);
    FollowConcat(Head(Systems(messages), c.memory), SelectedMessages(c.projected, c.selected, |c.groups|));
    forall i, k | 0 <= i < |c.groups| && 0 <= k < |c.groups[i]| && c.groups[i][k].role == "user"
      ensures |c.projected[i]| == |c.groups[i]| && c.projected[i][k] == c.groups[i][k]
    {
      assert GroupKept(c.groups[i], c.projected[i]);
      assert MessageKept(c.groups[i][k], c.projected[i][k]);
    }
  }
}
