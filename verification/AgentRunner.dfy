/** The runner: one user turn as a loop of model calls and tool batches, under a round budget that pauses share. */
module AgentRunner {
  import opened Basics
  import opened ContextMessages

  const MAX_TEXT := 65536
  const MAX_ASSISTANT_TEXT := 1048576
  const MAX_ARGUMENTS := 8192
  const MAX_FILE_ARGUMENTS := 65536
  const MAX_ARGUMENTS_TOTAL := 131072

  // ----- Message validation -----

  function ArgumentLimit(name: string): int {
    if name in {"write", "edit", "apply_patch", "shell", "task"} then MAX_FILE_ARGUMENTS else MAX_ARGUMENTS
  }

  function ArgumentBytes(calls: seq<ToolCall>): nat {
    if |calls| == 0 then 0 else ArgumentBytes(calls[..|calls| - 1]) + ByteLength(calls[|calls| - 1].arguments)
  }

  predicate CallValid(c: ToolCall) {
    c.id != "" && c.kind == "function" && c.name != "" && ByteLength(c.arguments) <= ArgumentLimit(c.name)
  }

  ghost predicate DistinctCalls(calls: seq<ToolCall>) { forall i, k :: 0 <= i < k < |calls| ==> calls[i].id != calls[k].id }

  /** The messages `ValidateModelMessage` accepts. */
  ghost predicate MessageValid(m: Message) {
    && ByteLength(m.content) <= (if m.role == "assistant" then MAX_ASSISTANT_TEXT else MAX_TEXT)
    && DistinctCalls(m.calls) && (forall i :: 0 <= i < |m.calls| ==> CallValid(m.calls[i]))
    && ArgumentBytes(m.calls) <= MAX_ARGUMENTS_TOTAL
  }

  /** `ValidateModelMessage`. */
  method ValidateModelMessage(m: Message) returns (ok: bool)
    ensures ok <==> MessageValid(m)
  {
    hide ByteLength, ArgumentLimit;
    if ByteLength(m.content) > (if m.role == "assistant" then MAX_ASSISTANT_TEXT else MAX_TEXT) { return false; }
    var total, seen: set<string> := 0, {};
    for k := 0 to |m.calls|
      invariant total == ArgumentBytes(m.calls[..k]) && DistinctCalls(m.calls[..k])
      invariant forall i :: 0 <= i < k ==> CallValid(m.calls[i])
      invariant forall id :: id in seen <==> exists i :: 0 <= i < k && m.calls[i].id == id
    {
      var call := m.calls[k];
      assert m.calls[..k + 1][..k] == m.calls[..k];
      if call.id == "" || call.kind != "function" || call.name == "" { return false; }
      if call.id in seen { return false; }
      seen := seen + {call.id};
      if ByteLength(call.arguments) > ArgumentLimit(call.name) { return false; }
      total := total + ByteLength(call.arguments);
    }
    assert m.calls[..|m.calls|] == m.calls;
    ok := total <= MAX_ARGUMENTS_TOTAL;
  }

  // ----- The budget -----

  /** The rounds of one user turn; `limit` 0 means there is no bound. */
  class RoundBudget {
    const limit: int
    var remaining: int

    constructor (limit: int)
      ensures this.limit == limit && remaining == limit
    {
      this.limit, remaining := limit, limit;
    }

    /** `take`. */
    method Take() returns (ok: bool)
      modifies this
      ensures ok == Allows(limit, old(remaining)) && remaining == if ok then Left(limit, old(remaining)) else old(remaining)
    {
      if limit == 0 { return true; }
      if limit < 0 || remaining <= 0 { return false; }
      remaining := remaining - 1;
      ok := true;
    }
  }

  predicate Allows(limit: int, remaining: int) { limit == 0 || (limit > 0 && remaining > 0) }

  function Left(limit: int, remaining: int): int { if limit == 0 then remaining else remaining - 1 }

  // ----- Runs -----

  /** The answers of the outside world in one round. Cancellation, a time-out and any refusal are failures. */
  datatype Round = Round(cancelled: bool, prepared: bool, reply: Option<Message>, completed: bool, appended: bool, executed: Execution)

  datatype Execution = Error | Pause | Continue

  /** What the outside world sees. */
  datatype Event = Asked | Appended(message: Message) | Executed(calls: seq<ToolCall>) | Finished(message: Message)

  datatype Ending = Failed | Answered | Paused

  datatype Trace = Trace(events: seq<Event>, remaining: int, ending: Ending)

  /** A reply that may be acted on. */
  ghost predicate Acceptable(m: Message) { m.role == "assistant" && MessageValid(m) }

  /** One run from its first round on. When the script ends the run is cancelled. */
  ghost function RunOf(limit: int, remaining: int, rounds: seq<Round>, tools: bool): Trace
    decreases |rounds|
  {
    if |rounds| == 0 || rounds[0].cancelled || !Allows(limit, remaining) then Trace([], remaining, Failed)
    else
      var r, left := rounds[0], Left(limit, remaining);
      if !r.prepared then Trace([], left, Failed)
      else if r.reply.None? || !Acceptable(r.reply.value) then Trace([Asked], left, Failed)
      else
        var m := r.reply.value;
        if |m.calls| == 0 then
          if TrimSpace(m.content) == "" || !r.completed then Trace([Asked], left, Failed) else Trace([Asked, Finished(m)], left, Answered)
        else if !tools || !r.appended then Trace([Asked], left, Failed)
        else
          match r.executed
          case Error => Trace([Asked, Appended(m), Executed(m.calls)], left, Failed)
          case Pause => Trace([Asked, Appended(m), Executed(m.calls)], left, Paused)
          case Continue =>
            var rest := RunOf(limit, left, rounds[1..], tools);
            rest.(events := [Asked, Appended(m), Executed(m.calls)] + rest.events)
  }

  // ----- What a run comes to, round by round -----

  /** Round `k` gets as far as the model, if it is reached: the run is not cancelled, the budget still has a round, and
      the request can be prepared. */
  predicate Asks(limit: int, remaining: int, rounds: seq<Round>, k: nat)
    requires k < |rounds|
  {
    !rounds[k].cancelled && (limit == 0 || (limit > 0 && remaining > k)) && rounds[k].prepared
  }

  /** Round `k` comes back with calls that can be executed. */
  ghost predicate Acts(limit: int, remaining: int, rounds: seq<Round>, k: nat, tools: bool)
    requires k < |rounds|
  {
    && Asks(limit, remaining, rounds, k) && rounds[k].reply.Some? && Acceptable(rounds[k].reply.value)
    && |rounds[k].reply.value.calls| > 0 && tools && rounds[k].appended
  }

  /** Round `k` comes back with an answer that can be given. */
  ghost predicate Answers(limit: int, remaining: int, rounds: seq<Round>, k: nat)
    requires k < |rounds|
  {
    && Asks(limit, remaining, rounds, k) && rounds[k].reply.Some? && Acceptable(rounds[k].reply.value)
    && |rounds[k].reply.value.calls| == 0 && TrimSpace(rounds[k].reply.value.content) != "" && rounds[k].completed
  }

  /** Round `k` is the last one reached: every earlier one executed its calls and went on, and this one does not. */
  ghost predicate LastRound(limit: int, remaining: int, rounds: seq<Round>, tools: bool, k: nat) {
    && k <= |rounds|
    && (forall j :: 0 <= j < k ==> Acts(limit, remaining, rounds, j, tools) && rounds[j].executed == Continue)
    && (k < |rounds| ==> !(Acts(limit, remaining, rounds, k, tools) && rounds[k].executed == Continue))
  }

  /** How a run ends in its last round, what it had left, and what the outside world saw. */
  ghost predicate EndsIn(limit: int, remaining: int, rounds: seq<Round>, tools: bool, k: nat, t: Trace) {
    && k <= |rounds| && 3 * k <= |t.events|
    && (t.ending == Paused <==> k < |rounds| && Acts(limit, remaining, rounds, k, tools) && rounds[k].executed == Pause)
    && (t.ending == Answered <==> k < |rounds| && Answers(limit, remaining, rounds, k))
    && t.remaining == (if limit == 0 then remaining
                       else remaining - k - (if k < |rounds| && !rounds[k].cancelled && limit > 0 && remaining > k then 1 else 0))
    && (forall j :: 0 <= j < k && rounds[j].reply.Some? ==>
          t.events[3 * j..3 * j + 3] == [Asked, Appended(rounds[j].reply.value), Executed(rounds[j].reply.value.calls)])
    && t.events[3 * k..] ==
         if k == |rounds| || !Asks(limit, remaining, rounds, k) then []
         else if Answers(limit, remaining, rounds, k) then [Asked, Finished(rounds[k].reply.value)]
         else if Acts(limit, remaining, rounds, k, tools) then [Asked, Appended(rounds[k].reply.value), Executed(rounds[k].reply.value.calls)]
         else [Asked]
  }

  /** The last round as seen one round later. */
  lemma RoundsShift(limit: int, remaining: int, rounds: seq<Round>, tools: bool, k: nat)
    requires |rounds| > 0 && Acts(limit, remaining, rounds, 0, tools) && rounds[0].executed == Continue
    requires LastRound(limit, Left(limit, remaining), rounds[1..], tools, k)
    ensures LastRound(limit, remaining, rounds, tools, k + 1)
  {
    hide Acceptable, TrimSpace;
    forall j | 0 <= j < k + 1 ensures Acts(limit, remaining, rounds, j, tools) && rounds[j].executed == Continue {
      if j > 0 { assert Acts(limit, Left(limit, remaining), rounds[1..], j - 1, tools); }
    }
  }

  lemma EndShifts(limit: int, remaining: int, rounds: seq<Round>, tools: bool, k: nat, t: Trace, u: Trace)
    requires |rounds| > 0 && Acts(limit, remaining, rounds, 0, tools) && rounds[0].executed == Continue
    requires EndsIn(limit, Left(limit, remaining), rounds[1..], tools, k, t)
    requires var m := rounds[0].reply.value; u == t.(events := [Asked, Appended(m), Executed(m.calls)] + t.events)
    ensures EndsIn(limit, remaining, rounds, tools, k + 1, u)
  {
    hide Acceptable, TrimSpace;
    var m := rounds[0].reply.value;
    var first := [Asked, Appended(m), Executed(m.calls)];
    forall j | 0 <= j < k + 1 && rounds[j].reply.Some?
      ensures u.events[3 * j..3 * j + 3] == [Asked, Appended(rounds[j].reply.value), Executed(rounds[j].reply.value.calls)]
    {
      if j == 0 {
        assert u.events[0..3] == first;
      } else {
        assert rounds[1..][j - 1] == rounds[j];
        SliceBehind(first, t.events, 3 * (j - 1), 3 * (j - 1) + 3);
      }
    }
    SliceBehind(first, t.events, 3 * k, |t.events|);
    assert u.events[3 * (k + 1)..] == t.events[3 * k..];
  }

  lemma SliceBehind(a: seq<Event>, b: seq<Event>, i: nat, k: nat)
    requires i <= k <= |b|
    ensures (a + b)[|a| + i..|a| + k] == b[i..k]
  {
  }

  /** Every run ends in the first round that does not go on, as that round has it. */
  lemma {:induction false} RunEndsInLastRound(limit: int, remaining: int, rounds: seq<Round>, tools: bool) returns (k: nat)
    ensures LastRound(limit, remaining, rounds, tools, k) && EndsIn(limit, remaining, rounds, tools, k, RunOf(limit, remaining, rounds, tools))
    decreases |rounds|
  {
    hide Acceptable, TrimSpace;
    if |rounds| > 0 && Acts(limit, remaining, rounds, 0, tools) && rounds[0].executed == Continue {
      var n := RunEndsInLastRound(limit, Left(limit, remaining), rounds[1..], tools);
      k := n + 1;
      var t := RunOf(limit, Left(limit, remaining), rounds[1..], tools);
      RoundsShift(limit, remaining, rounds, tools, n);
      EndShifts(limit, remaining, rounds, tools, n, t, RunOf(limit, remaining, rounds, tools));
    } else {
      k := 0;
      StopsAtOnce(limit, remaining, rounds, tools);
    }
  }

  lemma StopsAtOnce(limit: int, remaining: int, rounds: seq<Round>, tools: bool)
    requires |rounds| > 0 ==> !(Acts(limit, remaining, rounds, 0, tools) && rounds[0].executed == Continue)
    ensures EndsIn(limit, remaining, rounds, tools, 0, RunOf(limit, remaining, rounds, tools))
  {
    hide Acceptable, TrimSpace;
    var t := RunOf(limit, remaining, rounds, tools);
    assert t.events[0..] == t.events;
  }

  /** There is only one such round. */
  lemma LastRoundUnique(limit: int, remaining: int, rounds: seq<Round>, tools: bool, i: nat, k: nat)
    requires LastRound(limit, remaining, rounds, tools, i) && LastRound(limit, remaining, rounds, tools, k)
    ensures i == k
  {
    hide Acts;
  }

  /** `Run`. */
  class Runner {
    const budget: RoundBudget
    const tools: bool
    ghost var log: seq<Event>

    constructor (budget: RoundBudget, tools: bool)
      ensures this.budget == budget && this.tools == tools && log == []
    {
      this.budget, this.tools, log := budget, tools, [];
    }

    method Run(rounds: seq<Round>) returns (ending: Ending, ghost last: nat, ghost events: seq<Event>)
      modifies this, budget
      ensures var t := RunOf(budget.limit, old(budget.remaining), rounds, tools);
              ending == t.ending && budget.remaining == t.remaining && log == old(log) + t.events
      ensures LastRound(budget.limit, old(budget.remaining), rounds, tools, last) && log == old(log) + events
      ensures EndsIn(budget.limit, old(budget.remaining), rounds, tools, last, Trace(events, budget.remaining, ending))
    {
      hide Acceptable, TrimSpace, LastRound, EndsIn;
      last := RunEndsInLastRound(budget.limit, budget.remaining, rounds, tools);
      events := RunOf(budget.limit, budget.remaining, rounds, tools).events;
      ghost var start, t := log, RunOf(budget.limit, budget.remaining, rounds, tools);
      var k := 0;
      while k < |rounds|
        invariant 0 <= k <= |rounds|
        invariant var rest := RunOf(budget.limit, budget.remaining, rounds[k..], tools);
                  t.ending == rest.ending && t.remaining == rest.remaining && start + t.events == log + rest.events
        decreases |rounds| - k
      {
        var round := rounds[k];
        assert rounds[k..][0] == round && rounds[k..][1..] == rounds[k + 1..];
        if round.cancelled { return Failed, last, events; }
        var taken := budget.Take();
        if !taken { return Failed, last, events; }
        if !round.prepared { return Failed, last, events; }
        log := log + [Asked];
        if round.reply.None? { return Failed, last, events; }
        var m := round.reply.value;
        var acceptable := AcceptReply(m);
        if !acceptable { return Failed, last, events; }
        if |m.calls| == 0 {
          if TrimSpace(m.content) == "" || !round.completed { return Failed, last, events; }
          log := log + [Finished(m)];
          return Answered, last, events;
        }
        if !tools || !round.appended { return Failed, last, events; }
        log := log + [Appended(m)];
        log := log + [Executed(m.calls)];
        if round.executed == Error { return Failed, last, events; }
        if round.executed == Pause { return Paused, last, events; }
        k := k + 1;
      }
      ending := Failed;
    }

    method AcceptReply(m: Message) returns (ok: bool)
      ensures ok == Acceptable(m)
    {
      hide MessageValid;
      if m.role != "assistant" { return false; }
      ok := ValidateModelMessage(m);
    }
  }

  // ----- What every run keeps -----

  function Calls(events: seq<Event>): nat {
    if |events| == 0 then 0 else Calls(events[..|events| - 1]) + (if events[|events| - 1].Asked? then 1 else 0)
  }

  lemma {:induction false} CallsConcat(a: seq<Event>, b: seq<Event>)
    ensures Calls(a + b) == Calls(a) + Calls(b)
  {
    if |b| == 0 {
      assert a + b == a;
    } else {
      CallsConcat(a, b[..|b| - 1]);
      assert (a + b)[..|a + b| - 1] == a + b[..|b| - 1];
    }
  }

  /** Under a bound, each model call is paid for from the budget, which never goes negative. */
  lemma {:induction false} CallsArePaid(limit: int, remaining: int, rounds: seq<Round>, tools: bool)
    requires limit > 0 && remaining >= 0
    ensures var t := RunOf(limit, remaining, rounds, tools); 0 <= t.remaining && Calls(t.events) <= remaining - t.remaining
    decreases |rounds|
  {
    hide Acceptable, TrimSpace;
    var t := RunOf(limit, remaining, rounds, tools);
    CallsOfRound();
    if |rounds| > 0 && Allows(limit, remaining) {
      var m := if rounds[0].reply.Some? then rounds[0].reply.value else Message("", "", [], "");
      var rest := RunOf(limit, remaining - 1, rounds[1..], tools);
      CallsArePaid(limit, remaining - 1, rounds[1..], tools);
      CallsConcat([Asked, Appended(m), Executed(m.calls)], rest.events);
    }
  }

  lemma CallsOfRound()
    ensures Calls([]) == 0 && Calls([Asked]) == 1
    ensures forall m :: Calls([Asked, Finished(m)]) == 1
    ensures forall m, calls :: Calls([Asked, Appended(m), Executed(calls)]) == 1
  {
    forall m ensures Calls([Asked, Finished(m)]) == 1 { assert [Asked, Finished(m)][..1] == [Asked] && [Asked][..0] == []; }
    forall m, calls ensures Calls([Asked, Appended(m), Executed(calls)]) == 1 {
      var s := [Asked, Appended(m), Executed(calls)];
      var u := [Asked, Appended(m)];
      assert s[..2] == u && u[..1] == [Asked];
      assert Calls(u) == Calls(u[..1]);
      assert Calls(s) == Calls(s[..2]);
    }
    assert Calls([Asked]) == 1;
  }

  /** A turn resumed any number of times on the same budget: the events of all its runs, and what is left. */
  ghost function Resumed(limit: int, remaining: int, runs: seq<seq<Round>>, tools: bool): (seq<Event>, int)
    decreases |runs|
  {
    if |runs| == 0 then ([], remaining)
    else
      var t := RunOf(limit, remaining, runs[0], tools);
      var rest := Resumed(limit, t.remaining, runs[1..], tools);
      (t.events + rest.0, rest.1)
  }

  /** Across all pauses a bounded turn makes at most as many model calls as it had rounds left. */
  lemma {:induction false} PausesShareTheBudget(limit: int, remaining: int, runs: seq<seq<Round>>, tools: bool)
    requires limit > 0 && remaining >= 0
    ensures var (events, left) := Resumed(limit, remaining, runs, tools); 0 <= left && Calls(events) <= remaining - left
    decreases |runs|
  {
    hide RunOf;
    if |runs| > 0 {
      var t := RunOf(limit, remaining, runs[0], tools);
      CallsArePaid(limit, remaining, runs[0], tools);
      PausesShareTheBudget(limit, t.remaining, runs[1..], tools);
      CallsConcat(t.events, Resumed(limit, t.remaining, runs[1..], tools).0);
    }
  }

  /** Every executed batch was asked for, validated and appended immediately before, and every answer was validated. */
  ghost predicate Disciplined(events: seq<Event>) {
    forall k :: 0 <= k < |events| ==> InPlace(events, k)
  }

  ghost predicate InPlace(events: seq<Event>, k: nat)
    requires k < |events|
  {
    match events[k]
    case Asked => true
    case Appended(m) => k >= 1 && events[k - 1].Asked? && Acceptable(m) && m.calls != []
    case Executed(calls) => k >= 2 && events[k - 1].Appended? && events[k - 1].message.calls == calls && events[k - 2].Asked?
    case Finished(m) => k >= 1 && events[k - 1].Asked? && Acceptable(m) && m.calls == []
  }

  lemma DisciplinedConcat(a: seq<Event>, b: seq<Event>)
    requires Disciplined(a) && Disciplined(b)
    ensures Disciplined(a + b)
  {
    hide Acceptable;
    var s := a + b;
    forall k | 0 <= k < |s| ensures InPlace(s, k) {
      if k < |a| { assert InPlace(a, k); } else { assert InPlace(b, k - |a|); }
    }
  }

  lemma {:induction false} RunsAreDisciplined(limit: int, remaining: int, rounds: seq<Round>, tools: bool)
    ensures Disciplined(RunOf(limit, remaining, rounds, tools).events)
    decreases |rounds|
  {
    hide Acceptable, TrimSpace;
    if |rounds| > 0 && Allows(limit, remaining) {
      var rest := RunOf(limit, Left(limit, remaining), rounds[1..], tools);
      RunsAreDisciplined(limit, Left(limit, remaining), rounds[1..], tools);
      if rounds[0].reply.Some? && Acceptable(rounds[0].reply.value) && rounds[0].reply.value.calls != [] {
        var m := rounds[0].reply.value;
        DisciplinedConcat([Asked, Appended(m), Executed(m.calls)], rest.events);
      }
    }
  }

  /** Over all pauses only validated and appended batches are executed. */
  lemma {:induction false} OnlyValidatedBatchesRun(limit: int, remaining: int, runs: seq<seq<Round>>, tools: bool)
    ensures Disciplined(Resumed(limit, remaining, runs, tools).0)
    decreases |runs|
  {
    hide RunOf, Acceptable;
    if |runs| > 0 {
      var t := RunOf(limit, remaining, runs[0], tools);
      RunsAreDisciplined(limit, remaining, runs[0], tools);
      OnlyValidatedBatchesRun(limit, t.remaining, runs[1..], tools);
      DisciplinedConcat(t.events, Resumed(limit, t.remaining, runs[1..], tools).0);
    }
  }

  /** Bytes of arguments, counted from the front. */
  function BytesInAll(calls: seq<ToolCall>): nat { if |calls| == 0 then 0 else ByteLength(calls[0].arguments) + BytesInAll(calls[1..]) }

  lemma {:induction false} BytesFromFront(calls: seq<ToolCall>)
    requires |calls| > 0
    ensures ArgumentBytes(calls) == ByteLength(calls[0].arguments) + ArgumentBytes(calls[1..])
  {
    hide ByteLength;
    var n := |calls| - 1;
    if n > 0 {
      BytesFromFront(calls[..n]);
      assert calls[..n][1..] == calls[1..][..n - 1] && calls[1..][n - 1] == calls[n];
    } else {
      assert calls[..0] == [] && calls[1..] == [];
    }
  }

  lemma {:induction false} BytesAgree(calls: seq<ToolCall>)
    ensures ArgumentBytes(calls) == BytesInAll(calls)
  {
    hide ByteLength;
    if |calls| > 0 {
      BytesFromFront(calls);
      BytesAgree(calls[1..]);
    }
  }

  function IdentitiesOf(calls: seq<ToolCall>, n: nat): set<string>
    requires n <= |calls|
  {
    set i | 0 <= i < n :: calls[i].id
  }

  lemma IdentitiesNext(calls: seq<ToolCall>, n: nat)
    requires 0 < n <= |calls|
    ensures IdentitiesOf(calls, n) == IdentitiesOf(calls, n - 1) + {calls[n - 1].id}
  {
  }

  lemma SizeWith(a: set<string>, id: string)
    ensures |a + {id}| == |a| + if id in a then 0 else 1
  {
    if id in a { assert a + {id} == a; }
  }

  lemma {:induction false} IdentitiesDiffer(calls: seq<ToolCall>, n: nat)
    requires n <= |calls|
    ensures |IdentitiesOf(calls, n)| <= n && (|IdentitiesOf(calls, n)| == n <==> forall i, k :: 0 <= i < k < n ==> calls[i].id != calls[k].id)
  {
    if n > 0 {
      IdentitiesDiffer(calls, n - 1);
      IdentitiesNext(calls, n);
      var a, id := IdentitiesOf(calls, n - 1), calls[n - 1].id;
      assert id in a <==> exists i :: 0 <= i < n - 1 && calls[i].id == id;
      SizeWith(a, id);
      hide IdentitiesOf;
    }
  }

  /** The messages that pass validation: a mebibyte of text from the assistant, 64 KiB from anyone else; as many
      identities as calls; named function calls, each with at most 64 KiB of arguments if it is one of the five that
      carry files and 8 KiB otherwise; and 128 KiB of arguments in all. */
  lemma ValidMessages(m: Message)
    ensures MessageValid(m) <==>
              && ByteLength(m.content) <= (if m.role == "assistant" then 1024 * 1024 else 64 * 1024)
              && |IdentitiesOf(m.calls, |m.calls|)| == |m.calls|
              && (forall i :: 0 <= i < |m.calls| ==>
                    && m.calls[i].id != "" && m.calls[i].kind == "function" && m.calls[i].name != ""
                    && ByteLength(m.calls[i].arguments) <=
                         if m.calls[i].name == "write" || m.calls[i].name == "edit" || m.calls[i].name == "apply_patch"
                            || m.calls[i].name == "shell" || m.calls[i].name == "task" then 64 * 1024 else 8 * 1024)
              && BytesInAll(m.calls) <= 128 * 1024
  {
    IdentitiesDiffer(m.calls, |m.calls|);
    BytesAgree(m.calls);
    hide ByteLength, BytesInAll, ArgumentBytes, IdentitiesOf;
  }

  /** Whatever is executed, over all pauses, is a non-empty batch of named function calls with different, non-empty
      identities, each within 64 KiB, or 8 KiB if it is not one of the five that carry files, and 128 KiB in all. */
  lemma ExecutedBatchesAreSound(limit: int, remaining: int, runs: seq<seq<Round>>, tools: bool, k: nat)
    requires k < |Resumed(limit, remaining, runs, tools).0| && Resumed(limit, remaining, runs, tools).0[k].Executed?
    ensures var calls := Resumed(limit, remaining, runs, tools).0[k].calls;
            && |calls| > 0 && BytesInAll(calls) <= 128 * 1024
            && (forall i :: 0 <= i < |calls| ==> calls[i].id != "" && calls[i].kind == "function" && calls[i].name != "")
            && (forall i, j :: 0 <= i < j < |calls| ==> calls[i].id != calls[j].id)
            && (forall i :: 0 <= i < |calls| ==> ByteLength(calls[i].arguments) <= 64 * 1024)
            && (forall i :: 0 <= i < |calls| && ByteLength(calls[i].arguments) > 8 * 1024 ==>
                  calls[i].name == "write" || calls[i].name == "edit" || calls[i].name == "apply_patch" || calls[i].name == "shell" || calls[i].name == "task")
  {
    OnlyValidatedBatchesRun(limit, remaining, runs, tools);
    var events := Resumed(limit, remaining, runs, tools).0;
    hide Resumed, ByteLength;
    assert InPlace(events, k) && InPlace(events, k - 1);
    BytesAgree(events[k].calls);
    forall i | 0 <= i < |events[k].calls| ensures CallValid(events[k].calls[i]) { }
  }
}
