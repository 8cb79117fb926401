/** The response-loss proxy: rules that lose exactly one successful response each, captures that bind the next
    operation on a path, and an audit, under requests whose critical sections interleave with resets. */
module ResponseProxy {
  import opened Basics

  datatype PathKey = PathKey(verb: string, path: string)

  datatype RuleKey = RuleKey(at: PathKey, operationId: string)

  datatype Entry = Entry(sequence: nat, at: PathKey, operationId: string, body: string, status: Option<int>, dropped: bool,
                         rejected: bool, error: string)

  // ----- The tables -----

  /** What the two proxy mutexes protect. Rules refer to rule states through `R`. */
  datatype Table<R> = Table(rules: map<RuleKey, R>, paths: map<PathKey, nat>, captures: set<PathKey>, generation: nat,
                            audit: seq<Entry>, sequence: nat)

  function Rules(t: map<PathKey, nat>, at: PathKey): nat { if at in t then t[at] else 0 }

  function Inserted<R>(t: Table<R>, key: RuleKey, state: R): Table<R> {
    t.(rules := t.rules[key := state], paths := t.paths[key.at := Rules(t.paths, key.at) + 1])
  }

  function RuleAdded<R>(t: Table<R>, key: RuleKey, state: R): (Table<R>, bool) {
    if key.at in t.captures || key in t.rules then (t, false) else (Inserted(t, key, state), true)
  }

  function Armed<R>(t: Table<R>, at: PathKey): (Table<R>, bool) {
    if Rules(t.paths, at) > 0 || at in t.captures then (t, false) else (t.(captures := t.captures + {at}), true)
  }

  function Cleared<R>(t: Table<R>): Table<R> { Table(map[], map[], {}, t.generation + 1, [], 0) }

  function Recorded<R>(t: Table<R>, generation: nat, entry: Entry): Table<R> {
    if generation != t.generation then t
    else t.(sequence := t.sequence + 1, audit := t.audit + [entry.(sequence := t.sequence + 1)])
  }

  predicate Configured<R>(t: Table<R>, generation: nat, at: PathKey) {
    generation == t.generation && (Rules(t.paths, at) > 0 || at in t.captures)
  }

  function Found<R>(t: Table<R>, generation: nat, key: RuleKey): Option<R> {
    if generation == t.generation && key in t.rules then Some(t.rules[key]) else None
  }

  /** `bindCapture`; `state` is the rule state to use if one has to be made. */
  function Bound<R>(t: Table<R>, generation: nat, key: RuleKey, state: R): (Table<R>, Option<R>) {
    if generation != t.generation || key.at !in t.captures then (t, None)
    else
      var u := t.(captures := t.captures - {key.at});
      if key in t.rules then (u, Some(t.rules[key])) else (Inserted(u, key, state), Some(state))
  }

  function EntryFor(key: RuleKey, body: string, status: Option<int>, dropped: bool, rejected: bool, error: string): Entry {
    Entry(0, key.at, key.operationId, body, status, dropped, rejected, error)
  }

  /** What the body of a request on a configured path says: its operation, or why there is none. */
  datatype Parsed = Operation(id: string) | NoOperation(error: string)

  /** Where a request goes: nowhere, through a rule, or straight to the upstream. */
  datatype Route<R> = Refusal(error: string) | ToRule(rule: R) | ToUpstream

  /** The dispatch of one request that nothing interrupts. */
  function Dispatched<R>(t: Table<R>, generation: nat, at: PathKey, body: string, operation: Parsed, state: R): (Table<R>, Route<R>) {
    if Configured(t, generation, at) && operation.NoOperation? then
      (Recorded(t, generation, EntryFor(RuleKey(at, ""), body, None, false, true, operation.error)), Refusal(operation.error))
    else
      var key := RuleKey(at, if Configured(t, generation, at) then operation.id else "");
      match Found(t, generation, key)
      case Some(rule) => (t, ToRule(rule))
      case None =>
        if key.operationId == "" then (t, ToUpstream)
        else
          var bound := Bound(t, generation, key, state);
          (bound.0, match bound.1 case Some(rule) => ToRule(rule) case None => ToUpstream)
  }

  // ----- One rule -----

  /** `holder` is the thread inside the rule's mutex, `open` whether its call is still to be settled. The rest is
      history: the bodies of all calls, those forwarded, what came back for each, and which of that was lost. */
  datatype RuleState = RuleState(birth: nat, holder: Option<nat>, open: bool, baseline: Option<string>,
                                 calls: nat, upstreamCalls: nat, drops: nat, rejections: nat,
                                 bodies: seq<string>, sent: seq<string>, answers: seq<Option<int>>, lost: seq<bool>)

  function NewRule(generation: nat): RuleState { RuleState(generation, None, false, None, 0, 0, 0, 0, [], [], [], []) }

  predicate Success(answer: Option<int>) { answer.Some? && 200 <= answer.value < 300 }

  /** The start of `forwardConfigured`: count the call, and fix or compare the body. */
  function Entered(r: RuleState, thread: nat, body: string): RuleState {
    var s := r.(holder := Some(thread), calls := r.calls + 1, bodies := r.bodies + [body]);
    if r.baseline.None? then s.(baseline := Some(body), open := true)
    else if r.baseline.value != body then s.(rejections := r.rejections + 1, open := false)
    else s.(open := true)
  }

  /** Its end, once the upstream has answered or failed: drop the first success. */
  function Answered(r: RuleState, body: string, answer: Option<int>): RuleState {
    r.(upstreamCalls := r.upstreamCalls + 1, open := false, sent := r.sent + [body], answers := r.answers + [answer],
       lost := r.lost + [Drops(r, answer)],
       drops := r.drops + if Drops(r, answer) then 1 else 0)
  }

  predicate Drops(r: RuleState, answer: Option<int>) { r.drops == 0 && Success(answer) }

  /** How many of the first `n` bodies are not the first one. */
  function Differing(bodies: seq<string>, n: nat): nat
    requires n <= |bodies|
  {
    if n == 0 then 0 else Differing(bodies, n - 1) + (if bodies[n - 1] != bodies[0] then 1 else 0)
  }

  lemma {:induction false} DifferingNext(bodies: seq<string>, body: string, n: nat)
    requires n <= |bodies|
    ensures Differing(bodies + [body], n) == Differing(bodies, n)
  {
    if n > 0 { DifferingNext(bodies, body, n - 1); }
  }

  lemma {:induction false} DifferingIsNumber(bodies: seq<string>, n: nat)
    requires n <= |bodies|
    ensures Differing(bodies, n) == |set i | 0 <= i < n && bodies[i] != bodies[0]|
  {
    if n > 0 {
      DifferingIsNumber(bodies, n - 1);
      var a, b := set i | 0 <= i < n - 1 && bodies[i] != bodies[0], set i | 0 <= i < n && bodies[i] != bodies[0];
      assert b == a + if bodies[n - 1] != bodies[0] then {n - 1} else {};
    }
  }

  ghost predicate FirstSuccess(answers: seq<Option<int>>, i: nat)
    requires i < |answers|
  {
    Success(answers[i]) && forall j :: 0 <= j < i ==> !Success(answers[j])
  }

  ghost predicate CallsOk(r: RuleState) {
    && r.calls == r.upstreamCalls + r.rejections + (if r.open then 1 else 0) && |r.bodies| == r.calls
    && (r.open ==> r.holder.Some?)
    && (r.calls > 0 <==> r.baseline.Some?) && (r.calls > 0 ==> r.baseline.value == r.bodies[0])
    && r.rejections == Differing(r.bodies, r.calls)
  }

  ghost predicate AnswersOk(r: RuleState) {
    && |r.sent| == |r.answers| == |r.lost| == r.upstreamCalls
    && (forall i :: 0 <= i < |r.sent| ==> r.baseline == Some(r.sent[i]))
    && r.drops == (if exists i :: 0 <= i < |r.answers| && Success(r.answers[i]) then 1 else 0)
    && forall i :: 0 <= i < |r.answers| ==> (r.lost[i] <==> FirstSuccess(r.answers, i))
  }

  ghost predicate RuleOk(r: RuleState) { CallsOk(r) && AnswersOk(r) }

  lemma EnteredOk(r: RuleState, thread: nat, body: string)
    requires RuleOk(r) && r.holder.None?
    ensures RuleOk(Entered(r, thread, body))
    ensures Entered(r, thread, body).open ==> Entered(r, thread, body).baseline == Some(body)
    ensures Entered(r, thread, body).open <==> |r.bodies| == 0 || body == r.bodies[0]
  {
    var s := Entered(r, thread, body);
    DifferingNext(r.bodies, body, r.calls);
    assert s.bodies[..r.calls] == r.bodies;
    if r.calls > 0 { assert s.bodies[0] == r.bodies[0]; }
  }

  lemma AnsweredOk(r: RuleState, body: string, answer: Option<int>)
    requires RuleOk(r) && r.open && r.baseline == Some(body)
    ensures RuleOk(Answered(r, body, answer))
  {
    hide Differing;
    var s := Answered(r, body, answer);
    if exists i :: 0 <= i < |r.answers| && Success(r.answers[i]) {
      var i :| 0 <= i < |r.answers| && Success(r.answers[i]);
      assert s.answers[i] == r.answers[i];
    }
    if Success(answer) { assert s.answers[|r.answers|] == answer; }
    forall i | 0 <= i < |s.answers| ensures s.lost[i] <==> FirstSuccess(s.answers, i) {
      if i < |r.answers| {
        assert r.lost[i] <==> FirstSuccess(r.answers, i);
        assert forall j :: 0 <= j <= i ==> s.answers[j] == r.answers[j];
      } else {
        assert forall j :: 0 <= j < i ==> s.answers[j] == r.answers[j];
      }
    }
  }

  /** Whenever a rule's mutex is free: the rejected calls are those whose body is not the first one, every other call was
      forwarded, every forwarded body is the first one, and of what came back exactly the first success was lost. */
  lemma FreeRule(r: RuleState)
    requires RuleOk(r) && r.holder.None?
    ensures r.calls == |r.bodies| == r.upstreamCalls + r.rejections && |r.sent| == |r.answers| == |r.lost| == r.upstreamCalls
    ensures r.rejections == |set i | 0 <= i < |r.bodies| && r.bodies[i] != r.bodies[0]|
    ensures forall i :: 0 <= i < |r.sent| ==> |r.bodies| > 0 && r.sent[i] == r.bodies[0]
    ensures r.drops <= 1 && (r.drops == 1 <==> exists i :: 0 <= i < |r.answers| && Success(r.answers[i]))
    ensures forall i :: 0 <= i < |r.answers| ==> (r.lost[i] <==> Success(r.answers[i]) && forall j :: 0 <= j < i ==> !Success(r.answers[j]))
  {
    DifferingIsNumber(r.bodies, r.calls);
    hide Differing, Success;
    forall i | 0 <= i < |r.answers| ensures r.lost[i] <==> Success(r.answers[i]) && forall j :: 0 <= j < i ==> !Success(r.answers[j]) {
      assert r.lost[i] <==> FirstSuccess(r.answers, i);
    }
  }

  // ----- Table invariants -----

  function KeysAt<R>(rules: map<RuleKey, R>, at: PathKey): set<RuleKey> { set k | k in rules && k.at == at }

  /** The path counts are exact, an armed capture stands on a path without rules, and the audit is numbered from 1. */
  ghost predicate TableOk<R>(t: Table<R>) {
    && (forall at :: Rules(t.paths, at) == |KeysAt(t.rules, at)|)
    && (forall at :: at in t.captures ==> Rules(t.paths, at) == 0)
    && t.sequence == |t.audit| && forall i :: 0 <= i < |t.audit| ==> t.audit[i].sequence == i + 1
  }

  lemma InsertedOk<R>(t: Table<R>, key: RuleKey, state: R)
    requires TableOk(t) && key !in t.rules && key.at !in t.captures
    ensures TableOk(Inserted(t, key, state))
  {
    var u := Inserted(t, key, state);
    forall at ensures Rules(u.paths, at) == |KeysAt(u.rules, at)| {
      assert Rules(t.paths, at) == |KeysAt(t.rules, at)|;
      assert KeysAt(u.rules, at) == KeysAt(t.rules, at) + if at == key.at then {key} else {};
    }
  }

  /** An armed capture excludes every rule on its path. */
  lemma ArmedMeansNoRule<R>(t: Table<R>, key: RuleKey)
    requires TableOk(t) && key.at in t.captures
    ensures key !in t.rules
  {
    if key in t.rules { RuleIsCounted(t, key); }
  }

  lemma RuleIsCounted<R>(t: Table<R>, key: RuleKey)
    requires TableOk(t) && key in t.rules
    ensures Rules(t.paths, key.at) > 0
  {
    assert key in KeysAt(t.rules, key.at);
  }

  lemma BoundOk<R>(t: Table<R>, generation: nat, key: RuleKey, state: R)
    requires TableOk(t)
    ensures TableOk(Bound(t, generation, key, state).0)
    ensures generation == t.generation && key.at in t.captures ==> key !in t.rules && Bound(t, generation, key, state).1 == Some(state)
  {
    if generation == t.generation && key.at in t.captures {
      ArmedMeansNoRule(t, key);
      InsertedOk(t.(captures := t.captures - {key.at}), key, state);
    }
  }

  /** What dispatch comes to on the tables a proxy can have: a rule gets exactly the requests of its operation, an
      armed capture the next operation on its path, and no other request meets a rule or changes a table. */
  lemma DispatchRoutes<R>(t: Table<R>, generation: nat, at: PathKey, body: string, id: string, state: R)
    requires TableOk(t) && id != ""
    ensures var d := Dispatched(t, generation, at, body, Operation(id), state);
            if generation == t.generation && RuleKey(at, id) in t.rules then d == (t, ToRule(t.rules[RuleKey(at, id)]))
            else if generation == t.generation && at in t.captures then
              d.1 == ToRule(state) && d.0.rules == t.rules[RuleKey(at, id) := state] && d.0.captures == t.captures - {at} && TableOk(d.0)
            else d == (t, ToUpstream)
  {
    hide KeysAt;
    var key := RuleKey(at, id);
    if key in t.rules { RuleIsCounted(t, key); }
    if RuleKey(at, "") in t.rules { RuleIsCounted(t, RuleKey(at, "")); }
    BoundOk(t, generation, key, state);
  }

  /** A request that names no operation is refused where there is a rule or a capture, and passes elsewhere. */
  lemma NamelessRoutes<R>(t: Table<R>, generation: nat, at: PathKey, body: string, error: string, state: R)
    requires TableOk(t)
    ensures var d := Dispatched(t, generation, at, body, NoOperation(error), state);
            && (d.1.Refusal? <==> generation == t.generation && (at in t.captures || exists k :: k in t.rules && k.at == at))
            && (!d.1.Refusal? ==> d == (t, ToUpstream))
            && (d.1.Refusal? ==> d.1.error == error && d.0.audit == t.audit + [Entry(|t.audit| + 1, at, "", body, None, false, true, error)])
            && d.0.rules == t.rules && d.0.captures == t.captures
  {
    hide KeysAt;
    if RuleKey(at, "") in t.rules { RuleIsCounted(t, RuleKey(at, "")); }
    if exists k :: k in t.rules && k.at == at {
      var k :| k in t.rules && k.at == at;
      RuleIsCounted(t, k);
    } else {
      NoRuleIsUncounted(t, at);
    }
  }

  /** A rule is added exactly if no capture is armed on its path and there is none for its operation; then it gets the
      requests of its operation. Otherwise nothing changes. */
  lemma AddedRuleServes<R>(t: Table<R>, key: RuleKey, state: R, body: string, spare: R)
    requires TableOk(t) && key.operationId != ""
    ensures var (u, ok) := RuleAdded(t, key, state);
            && (ok <==> key.at !in t.captures && key !in t.rules)
            && (!ok ==> u == t)
            && (ok ==> u.rules == t.rules[key := state] && u.captures == t.captures && u.generation == t.generation && u.audit == t.audit
                       && Dispatched(u, u.generation, key.at, body, Operation(key.operationId), spare) == (u, ToRule(state)))
  {
    hide KeysAt;
    if key.at !in t.captures && key !in t.rules {
      InsertedOk(t, key, state);
      DispatchRoutes(RuleAdded(t, key, state).0, t.generation, key.at, body, key.operationId, spare);
    }
  }

  /** A path is armed exactly if it has no rule and is not armed; then the next operation on it gets the new rule, and
      with that the capture is spent. */
  lemma ArmedCaptureServes<R>(t: Table<R>, at: PathKey, body: string, id: string, state: R)
    requires TableOk(t) && id != ""
    ensures var (u, ok) := Armed(t, at);
            && (ok <==> at !in t.captures && forall k :: k in t.rules ==> k.at != at)
            && (!ok ==> u == t)
            && (ok ==> u.rules == t.rules && u.captures == t.captures + {at} && u.generation == t.generation && u.audit == t.audit
                       && var d := Dispatched(u, u.generation, at, body, Operation(id), state);
                          d.1 == ToRule(state) && at !in d.0.captures && d.0.rules == t.rules[RuleKey(at, id) := state])
  {
    hide KeysAt;
    if forall k :: k in t.rules ==> k.at != at {
      NoRuleIsUncounted(t, at);
      if at !in t.captures { DispatchRoutes(Armed(t, at).0, t.generation, at, body, id, state); }
    } else {
      var k :| k in t.rules && k.at == at;
      RuleIsCounted(t, k);
    }
  }

  /** After a reset nothing is configured and nothing recorded, and the next generation has begun. */
  lemma ClearedForgets<R>(t: Table<R>, generation: nat, at: PathKey, body: string, operation: Parsed, state: R)
    ensures var u := Cleared(t);
            && u.generation == t.generation + 1 && u.audit == [] && u.rules == map[] && u.captures == {}
            && Dispatched(u, generation, at, body, operation, state) == (u, ToUpstream)
  {
  }

  lemma NoRuleIsUncounted<R>(t: Table<R>, at: PathKey)
    requires TableOk(t) && forall k :: k in t.rules ==> k.at != at
    ensures Rules(t.paths, at) == 0
  {
    assert KeysAt(t.rules, at) == {};
  }

  lemma TableStepsOk<R>(t: Table<R>, key: RuleKey, state: R, at: PathKey, generation: nat, entry: Entry)
    requires TableOk(t)
    ensures TableOk(RuleAdded(t, key, state).0) && TableOk(Armed(t, at).0) && TableOk(Cleared(t)) && TableOk(Recorded(t, generation, entry))
  {
    hide KeysAt;
    if key.at !in t.captures && key !in t.rules { InsertedOk(t, key, state); }
    NoKeys<R>();
  }

  lemma NoKeys<R>()
    ensures forall at :: KeysAt<R>(map[], at) == {}
  {
  }

  // ----- Interleavings -----

  /** Where a request stands. Every stage but the first carries the generation the request began in. */
  datatype Stage =
    | Begun(generation: nat)
    | Looking(generation: nat, key: RuleKey, body: string)
    | Missing(generation: nat, key: RuleKey, body: string)
    | Plain(generation: nat, key: RuleKey, body: string)
    | Waiting(generation: nat, key: RuleKey, body: string, rule: nat)
    | Forwarding(generation: nat, key: RuleKey, body: string, rule: nat)
    | Recording(generation: nat, entry: Entry, held: Option<nat>)
    | Finished

  datatype World = World(table: Table<nat>, states: map<nat, RuleState>, threads: map<nat, Stage>)

  const INITIAL := World(Table(map[], map[], {}, 1, [], 0), map[], map[])

  /** Steps of requests and of control calls. New threads and new rule states have new numbers. */
  datatype Action =
    | AddRule(key: RuleKey, rule: nat)
    | Arm(at: PathKey)
    | Reset
    | Begin(thread: nat)
    | Refuse(thread: nat, at: PathKey, body: string, error: string)
    | Check(thread: nat, at: PathKey, body: string, operation: Parsed)
    | Look(thread: nat)
    | Bind(thread: nat, rule: nat)
    | Enter(thread: nat)
    | Answer(thread: nat, answer: Option<int>)
    | Record(thread: nat)

  predicate Enabled(w: World, a: Action) {
    match a
    case AddRule(_, rule) => rule !in w.states
    case Arm(_) => true
    case Reset => true
    case Begin(t) => t !in w.threads
    case Refuse(t, _, _, _) => t in w.threads && w.threads[t].Begun?
    case Check(t, _, _, _) => t in w.threads && w.threads[t].Begun?
    case Look(t) => t in w.threads && w.threads[t].Looking?
    case Bind(t, rule) => t in w.threads && w.threads[t].Missing? && rule !in w.states
    case Enter(t) => t in w.threads && w.threads[t].Waiting? && w.threads[t].rule in w.states && w.states[w.threads[t].rule].holder.None?
    case Answer(t, _) =>
      t in w.threads && (w.threads[t].Plain? || (w.threads[t].Forwarding? && w.threads[t].rule in w.states))
    case Record(t) => t in w.threads && w.threads[t].Recording? && (w.threads[t].held.Some? ==> w.threads[t].held.value in w.states)
  }

  function Moved(w: World, thread: nat, stage: Stage): World { w.(threads := w.threads[thread := stage]) }

  function Step(w: World, a: Action): World
    requires Enabled(w, a)
  {
    match a
    case AddRule(key, rule) =>
      var added := RuleAdded(w.table, key, rule);
      if added.1 then World(added.0, w.states[rule := NewRule(w.table.generation)], w.threads) else w
    case Arm(at) => w.(table := Armed(w.table, at).0)
    case Reset => w.(table := Cleared(w.table))
    case Begin(t) => Moved(w, t, Begun(w.table.generation))
    case Refuse(t, at, body, error) =>
      Moved(w, t, Recording(w.threads[t].generation, EntryFor(RuleKey(at, ""), body, None, false, false, error), None))
    case Check(t, at, body, operation) =>
      var g := w.threads[t].generation;
      if !Configured(w.table, g, at) then Moved(w, t, Looking(g, RuleKey(at, ""), body))
      else if operation.NoOperation? then Moved(w, t, Recording(g, EntryFor(RuleKey(at, ""), body, None, false, true, operation.error), None))
      else Moved(w, t, Looking(g, RuleKey(at, operation.id), body))
    case Look(t) =>
      var s := w.threads[t];
      (match Found(w.table, s.generation, s.key)
       case Some(rule) => Moved(w, t, Waiting(s.generation, s.key, s.body, rule))
       case None =>
         if s.key.operationId != "" then Moved(w, t, Missing(s.generation, s.key, s.body)) else Moved(w, t, Plain(s.generation, s.key, s.body)))
    case Bind(t, rule) =>
      var s := w.threads[t];
      var bound := Bound(w.table, s.generation, s.key, rule);
      (match bound.1
       case None => Moved(w, t, Plain(s.generation, s.key, s.body))
       case Some(r) =>
         Moved(w, t, Waiting(s.generation, s.key, s.body, r)).(table := bound.0,
           states := if r == rule then w.states[rule := NewRule(w.table.generation)] else w.states))
    case Enter(t) =>
      var s := w.threads[t];
      var r := Entered(w.states[s.rule], t, s.body);
      Moved(w, t, if r.open then Forwarding(s.generation, s.key, s.body, s.rule)
                  else Recording(s.generation, EntryFor(s.key, s.body, None, false, true, "body_mismatch"), Some(s.rule)))
        .(states := w.states[s.rule := r])
    case Answer(t, answer) =>
      var s := w.threads[t];
      var error := if answer.None? then "upstream_unavailable" else "";
      if s.Plain? then Moved(w, t, Recording(s.generation, EntryFor(s.key, s.body, answer, false, false, error), None))
      else
        Moved(w, t, Recording(s.generation, EntryFor(s.key, s.body, answer, Drops(w.states[s.rule], answer), false, error), Some(s.rule)))
          .(states := w.states[s.rule := Answered(w.states[s.rule], s.body, answer)])
    case Record(t) =>
      var s := w.threads[t];
      Moved(w, t, Finished).(table := Recorded(w.table, s.generation, s.entry),
        states := if s.held.Some? then w.states[s.held.value := w.states[s.held.value].(holder := None)] else w.states)
  }

  /** A request's steps up to the point where it waits for a rule, for the upstream or for the audit, uninterrupted. */
  function Routed(w: World, t: nat, at: PathKey, body: string, operation: Parsed, rule: nat): World
    requires t in w.threads && w.threads[t].Begun? && rule !in w.states
  {
    var a := Step(w, Check(t, at, body, operation));
    var b := if a.threads[t].Looking? then Step(a, Look(t)) else a;
    if b.threads[t].Missing? then Step(b, Bind(t, rule)) else b
  }

  /** Those steps are the dispatch. */
  lemma DispatchIsItsSteps(w: World, t: nat, at: PathKey, body: string, operation: Parsed, rule: nat)
    requires t in w.threads && w.threads[t].Begun? && rule !in w.states
    ensures var g, v := w.threads[t].generation, Routed(w, t, at, body, operation, rule);
            var d := Dispatched(w.table, g, at, body, operation, rule);
            match d.1
            case ToRule(r) => v.table == d.0 && v.threads[t].Waiting? && v.threads[t].rule == r
            case ToUpstream => v.table == d.0 && v.threads[t].Plain?
            case Refusal(_) => v.table == w.table && v.threads[t].Recording? && Step(v, Record(t)).table == d.0
  {
    hide Configured, Inserted;
  }

  // ----- The invariant -----

  /** The rule state a request has in its hands, if any. */
  function RuleOf(s: Stage): Option<nat> {
    match s
    case Waiting(_, _, _, rule) => Some(rule)
    case Forwarding(_, _, _, rule) => Some(rule)
    case Recording(_, _, rule) => rule
    case _ => None
  }

  ghost predicate ThreadOk(w: World, t: nat)
    requires t in w.threads
  {
    var s := w.threads[t];
    && (!s.Finished? ==> s.generation <= w.table.generation)
    && (RuleOf(s).Some? ==> RuleOf(s).value in w.states && w.states[RuleOf(s).value].birth == s.generation)
    && (s.Forwarding? ==> w.states[s.rule].holder == Some(t) && w.states[s.rule].open && w.states[s.rule].baseline == Some(s.body))
    && (s.Recording? && s.held.Some? ==> w.states[s.held.value].holder == Some(t) && !w.states[s.held.value].open)
  }

  ghost predicate RulesCurrent(w: World) {
    forall k :: k in w.table.rules ==> w.table.rules[k] in w.states && w.states[w.table.rules[k]].birth == w.table.generation
  }

  ghost predicate WorldOk(w: World) {
    && TableOk(w.table) && RulesCurrent(w)
    && (forall id :: id in w.states ==> RuleOk(w.states[id]) && w.states[id].birth <= w.table.generation)
    && forall t :: t in w.threads ==> ThreadOk(w, t)
  }

  /** Old states stay with their birth, and generations only grow. */
  lemma BirthsKept(w: World, a: Action)
    requires Enabled(w, a)
    ensures var v := Step(w, a);
            && w.table.generation <= v.table.generation
            && forall id :: id in w.states ==> id in v.states && v.states[id].birth == w.states[id].birth
  {
    hide EntryFor, Drops;
  }

  /** The tables stay in order. */
  lemma TableKept(w: World, a: Action)
    requires TableOk(w.table) && Enabled(w, a)
    ensures TableOk(Step(w, a).table)
  {
    hide TableOk, EntryFor, Entered, Answered;
    match a
    case AddRule(key, rule) => TableStepsOk(w.table, key, rule, key.at, 0, NO_ENTRY);
    case Arm(at) => TableStepsOk(w.table, NO_KEY, 0, at, 0, NO_ENTRY);
    case Reset => TableStepsOk(w.table, NO_KEY, 0, NO_KEY.at, 0, NO_ENTRY);
    case Bind(t, rule) => BoundOk(w.table, w.threads[t].generation, w.threads[t].key, rule);
    case Record(t) => TableStepsOk(w.table, NO_KEY, 0, NO_KEY.at, w.threads[t].generation, w.threads[t].entry);
    case _ =>
  }

  const NO_KEY := RuleKey(PathKey("", ""), "")
  const NO_ENTRY := Entry(0, PathKey("", ""), "", "", None, false, false, "")

  /** Each rule state stays in order. */
  lemma StatesKept(w: World, a: Action, id: nat)
    requires WorldOk(w) && Enabled(w, a) && id in Step(w, a).states
    ensures RuleOk(Step(w, a).states[id]) && Step(w, a).states[id].birth <= Step(w, a).table.generation
  {
    hide TableOk, EntryFor, RulesCurrent, Entered, Answered, RuleOk;
    NewRuleOk(w.table.generation);
    match a
    case Enter(t) =>
      EnteredOk(w.states[w.threads[t].rule], t, w.threads[t].body);
      KeepsBirth(w.states[w.threads[t].rule], t, w.threads[t].body, None);
    case Answer(t, answer) =>
      assert ThreadOk(w, t);
      if w.threads[t].Forwarding? {
        AnsweredOk(w.states[w.threads[t].rule], w.threads[t].body, answer);
        KeepsBirth(w.states[w.threads[t].rule], t, w.threads[t].body, answer);
      }
    case Record(t) =>
      assert ThreadOk(w, t);
      if w.threads[t].held.Some? { ReleasedOk(w.states[w.threads[t].held.value]); }
    case _ =>
  }

  lemma NewRuleOk(generation: nat)
    ensures RuleOk(NewRule(generation))
  {
  }

  lemma KeepsBirth(r: RuleState, thread: nat, body: string, answer: Option<int>)
    ensures Entered(r, thread, body).birth == r.birth && Answered(r, body, answer).birth == r.birth
  {
  }

  lemma ReleasedOk(r: RuleState)
    requires RuleOk(r) && !r.open
    ensures RuleOk(r.(holder := None))
  {
  }

  /** Only new rules, captures that become rules and resets change which rules there are. */
  lemma RulesUntouched(w: World, a: Action)
    requires Enabled(w, a) && !a.AddRule? && !a.Bind? && !a.Reset?
    ensures Step(w, a).table.rules == w.table.rules && Step(w, a).table.generation == w.table.generation
  {
    hide EntryFor, Entered, Answered, Drops, Found, Configured, Success;
  }

  lemma RulesAdded(w: World, a: Action)
    requires RulesCurrent(w) && Enabled(w, a) && (a.AddRule? || a.Bind? || a.Reset?)
    ensures RulesCurrent(Step(w, a))
  {
    hide EntryFor, Entered, Answered, Drops, Found, Configured, Success, Rules;
  }

  /** The rules in the table are of the current generation. */
  lemma RulesKept(w: World, a: Action)
    requires WorldOk(w) && Enabled(w, a)
    ensures RulesCurrent(Step(w, a))
  {
    BirthsKept(w, a);
    hide TableOk, Step, Enabled, RuleOk, ThreadOk;
    if a.AddRule? || a.Bind? || a.Reset? { RulesAdded(w, a); } else { RulesUntouched(w, a); }
  }

  /** The rule whose mutex a thread is inside. */
  function Locked(s: Stage): Option<nat> {
    match s
    case Forwarding(_, _, _, rule) => Some(rule)
    case Recording(_, _, held) => held
    case _ => None
  }

  /** A thread that does not move is consistent as long as the rule it is inside is left alone. */
  lemma StillConsistent(w: World, v: World, t: nat)
    requires t in w.threads && ThreadOk(w, t) && t in v.threads && v.threads[t] == w.threads[t]
    requires w.table.generation <= v.table.generation
    requires forall id :: id in w.states ==> id in v.states && v.states[id].birth == w.states[id].birth
    requires Locked(w.threads[t]).Some? ==> v.states[Locked(w.threads[t]).value] == w.states[Locked(w.threads[t]).value]
    ensures ThreadOk(v, t)
  {
  }

  /** Nobody but the holder changes a rule that is held. */
  lemma HeldIsLeftAlone(w: World, a: Action, t: nat)
    requires WorldOk(w) && Enabled(w, a) && t in w.threads && Locked(w.threads[t]).Some? && Moves(a) != Some(t)
    ensures var id := Locked(w.threads[t]).value; id in w.states && id in Step(w, a).states && Step(w, a).states[id] == w.states[id]
  {
    assert ThreadOk(w, t);
    hide TableOk, EntryFor, RuleOk, Drops, Entered, Answered, RulesCurrent, RuleAdded, Bound, Recorded, Cleared, Armed, Found, Configured;
    if Moves(a).Some? && Moves(a).value in w.threads { assert ThreadOk(w, Moves(a).value); }
  }

  /** The thread a step moves. */
  function Moves(a: Action): Option<nat> {
    match a
    case AddRule(_, _) => None
    case Arm(_) => None
    case Reset => None
    case Begin(t) => Some(t)
    case Refuse(t, _, _, _) => Some(t)
    case Check(t, _, _, _) => Some(t)
    case Look(t) => Some(t)
    case Bind(t, _) => Some(t)
    case Enter(t) => Some(t)
    case Answer(t, _) => Some(t)
    case Record(t) => Some(t)
  }

  lemma OthersDoNotMove(w: World, a: Action, t: nat)
    requires Enabled(w, a) && t in Step(w, a).threads && Moves(a) != Some(t)
    ensures t in w.threads && Step(w, a).threads[t] == w.threads[t]
  {
    hide EntryFor, Drops, Entered, Answered, RuleAdded, Bound, Recorded, Cleared, Armed, Found, Configured;
  }

  /** The thread that moves is consistent where it arrives. */
  lemma MoverConsistent(w: World, a: Action, t: nat)
    requires WorldOk(w) && Enabled(w, a) && Moves(a) == Some(t) && t in Step(w, a).threads
    ensures ThreadOk(Step(w, a), t)
  {
    hide TableOk, EntryFor, RuleOk, Drops, Entered, Answered, Enabled;
    if a.Enter? || a.Answer? || a.Record? {
      HolderMoves(w, a, t);
    } else {
      FreeMoves(w, a, t);
    }
  }

  lemma HolderMoves(w: World, a: Action, t: nat)
    requires WorldOk(w) && Enabled(w, a) && Moves(a) == Some(t) && t in Step(w, a).threads && (a.Enter? || a.Answer? || a.Record?)
    ensures ThreadOk(Step(w, a), t)
  {
    assert ThreadOk(w, t);
    if a.Enter? { EnteredBy(w.states[w.threads[t].rule], t, w.threads[t].body); }
    hide TableOk, EntryFor, RuleOk, Drops, Entered, RulesCurrent, RuleAdded, Bound, Cleared, Armed, Found, Configured;
  }

  /** A request that begins, is refused, is checked or finds no rule has none in its hands. */
  lemma EarlyMoves(w: World, a: Action, t: nat)
    requires WorldOk(w) && Enabled(w, a) && Moves(a) == Some(t) && t in Step(w, a).threads && (a.Begin? || a.Refuse? || a.Check?)
    ensures ThreadOk(Step(w, a), t)
  {
    if t in w.threads { assert ThreadOk(w, t); }
    hide TableOk, EntryFor, RuleOk, Drops, Entered, Answered, RuleAdded, Recorded, Cleared, Armed, Found, Bound, RulesCurrent, Configured;
  }

  lemma RoutingMoves(w: World, a: Action, t: nat)
    requires WorldOk(w) && Enabled(w, a) && Moves(a) == Some(t) && t in Step(w, a).threads && (a.Look? || a.Bind?)
    ensures ThreadOk(Step(w, a), t)
  {
    assert ThreadOk(w, t);
    hide TableOk, EntryFor, RuleOk, Drops, Entered, Answered, RuleAdded, Recorded, Cleared, Armed, Configured, Rules;
  }

  lemma FreeMoves(w: World, a: Action, t: nat)
    requires WorldOk(w) && Enabled(w, a) && Moves(a) == Some(t) && t in Step(w, a).threads && !(a.Enter? || a.Answer? || a.Record?)
    ensures ThreadOk(Step(w, a), t)
  {
    hide WorldOk, Step, Enabled, ThreadOk;
    if a.Look? || a.Bind? { RoutingMoves(w, a, t); } else { EarlyMoves(w, a, t); }
  }

  lemma EnteredBy(r: RuleState, thread: nat, body: string)
    ensures var s := Entered(r, thread, body); s.birth == r.birth && s.holder == Some(thread) && (s.open ==> s.baseline == Some(body))
  {
  }

  lemma ThreadsKept(w: World, a: Action, t: nat)
    requires WorldOk(w) && Enabled(w, a) && t in Step(w, a).threads
    ensures ThreadOk(Step(w, a), t)
  {
    hide Step, Enabled, ThreadOk, TableOk, RulesCurrent, RuleOk;
    if Moves(a) == Some(t) {
      MoverConsistent(w, a, t);
    } else {
      OthersDoNotMove(w, a, t);
      BirthsKept(w, a);
      if Locked(w.threads[t]).Some? { HeldIsLeftAlone(w, a, t); }
      StillConsistent(w, Step(w, a), t);
    }
  }

  /** Every step of every interleaving keeps the invariant. */
  lemma StepKeeps(w: World, a: Action)
    requires WorldOk(w) && Enabled(w, a)
    ensures WorldOk(Step(w, a))
  {
    hide TableOk, RuleOk, RulesCurrent, ThreadOk, Step, Enabled;
    TableKept(w, a);
    RulesKept(w, a);
    var v := Step(w, a);
    forall id | id in v.states ensures RuleOk(v.states[id]) && v.states[id].birth <= v.table.generation { StatesKept(w, a, id); }
    forall t | t in v.threads ensures ThreadOk(v, t) { ThreadsKept(w, a, t); }
  }

  // ----- Whole runs -----

  ghost predicate Runs(actions: seq<Action>, worlds: seq<World>) {
    && |worlds| == |actions| + 1 && worlds[0] == INITIAL
    && forall k :: 0 <= k < |actions| ==> Enabled(worlds[k], actions[k]) && worlds[k + 1] == Step(worlds[k], actions[k])
  }

  lemma InitialOk()
    ensures WorldOk(INITIAL)
  {
    NoKeys<nat>();
  }

  lemma {:induction false} ReachableOk(actions: seq<Action>, worlds: seq<World>, k: nat)
    requires Runs(actions, worlds) && k <= |actions|
    ensures WorldOk(worlds[k])
  {
    hide Step, Enabled, WorldOk;
    if k == 0 {
      InitialOk();
    } else {
      ReachableOk(actions, worlds, k - 1);
      StepKeeps(worlds[k - 1], actions[k - 1]);
    }
  }

  /** In every interleaving, at every release of a rule's mutex: the rejected calls are those whose body is not that of
      the first call, every other call was forwarded, with that body, and of the responses exactly the first success
      was lost; every other response went to its caller. */
  lemma EveryRuleLosesOneSuccess(actions: seq<Action>, worlds: seq<World>, k: nat, id: nat)
    requires Runs(actions, worlds) && k <= |actions| && id in worlds[k].states && worlds[k].states[id].holder.None?
    ensures var r := worlds[k].states[id];
            && r.calls == |r.bodies| == r.upstreamCalls + r.rejections && |r.sent| == |r.answers| == |r.lost| == r.upstreamCalls
            && r.rejections == |set i | 0 <= i < |r.bodies| && r.bodies[i] != r.bodies[0]|
            && (forall i :: 0 <= i < |r.sent| ==> |r.bodies| > 0 && r.sent[i] == r.bodies[0])
            && r.drops <= 1 && (r.drops == 1 <==> exists i :: 0 <= i < |r.answers| && Success(r.answers[i]))
            && forall i :: 0 <= i < |r.answers| ==> (r.lost[i] <==> Success(r.answers[i]) && forall j :: 0 <= j < i ==> !Success(r.answers[j]))
  {
    hide TableOk, RuleOk, RulesCurrent, ThreadOk, Success;
    ReachableOk(actions, worlds, k);
    FreeRule(worlds[k].states[id]);
  }

  /** In every interleaving the audit is numbered 1 to n, and an armed capture stands on a path without rules. */
  lemma AuditAndCaptures(actions: seq<Action>, worlds: seq<World>, k: nat)
    requires Runs(actions, worlds) && k <= |actions|
    ensures var t := worlds[k].table;
            && (forall i :: 0 <= i < |t.audit| ==> t.audit[i].sequence == i + 1)
            && forall key :: key in t.rules ==> key.at !in t.captures
  {
    hide RuleOk, RulesCurrent, ThreadOk, KeysAt;
    ReachableOk(actions, worlds, k);
    forall key | key in worlds[k].table.rules ensures key.at !in worlds[k].table.captures {
      RuleIsCounted(worlds[k].table, key);
    }
  }

  /** Without a reset the audit only grows. */
  lemma AuditGrows(w: World, a: Action)
    requires Enabled(w, a) && !a.Reset?
    ensures w.table.audit <= Step(w, a).table.audit && w.table.generation == Step(w, a).table.generation
  {
    hide EntryFor, Entered, Answered, Drops, Found, Configured, Success;
  }

  lemma {:induction false} AuditKeeps(actions: seq<Action>, worlds: seq<World>, i: nat, k: nat)
    requires Runs(actions, worlds) && i <= k <= |actions| && forall j :: i <= j < k ==> !actions[j].Reset?
    ensures worlds[i].table.audit <= worlds[k].table.audit && worlds[i].table.generation == worlds[k].table.generation
    decreases k - i
  {
    hide Step, Enabled;
    if i < k {
      AuditKeeps(actions, worlds, i, k - 1);
      AuditGrows(worlds[k - 1], actions[k - 1]);
    }
  }

  /** In every interleaving, what a request of the current generation records stands in the audit, under its number,
      until the next reset; and only requests of the current generation record anything. */
  lemma AuditKeepsEveryEntry(actions: seq<Action>, worlds: seq<World>, i: nat, k: nat, t: nat)
    requires Runs(actions, worlds) && i < k <= |actions| && actions[i] == Record(t) && forall j :: i <= j < k ==> !actions[j].Reset?
    ensures t in worlds[i].threads && worlds[i].threads[t].Recording?
    ensures var n, s, audit := |worlds[i].table.audit|, worlds[i].threads[t], worlds[k].table.audit;
            if s.generation == worlds[i].table.generation
            then n < |audit| && audit[n] == s.entry.(sequence := n + 1) && worlds[i + 1].table.audit == worlds[i].table.audit + [audit[n]]
            else worlds[i + 1].table == worlds[i].table
  {
    assert Enabled(worlds[i], actions[i]) && worlds[i + 1] == Step(worlds[i], actions[i]);
    ReachableOk(actions, worlds, i);
    hide Enabled, RuleOk, RulesCurrent, ThreadOk, KeysAt;
    AuditKeeps(actions, worlds, i + 1, k);
    var n := |worlds[i].table.audit|;
    if worlds[i].threads[t].generation == worlds[i].table.generation {
      assert n < |worlds[i + 1].table.audit|;
      assert worlds[k].table.audit[n] == worlds[i + 1].table.audit[n];
    }
  }

  /** A request that began before the last reset. */
  predicate Stale(w: World, t: nat) { t in w.threads && !w.threads[t].Finished? && w.threads[t].generation < w.table.generation }

  /** Fencing: whatever step a stale request takes, it changes neither a rule of the table nor a capture nor the audit. */
  lemma StaleRequestsAreFenced(w: World, a: Action, t: nat)
    requires WorldOk(w) && Enabled(w, a) && Moves(a) == Some(t) && Stale(w, t)
    ensures Step(w, a).table == w.table
    ensures forall key :: key in w.table.rules ==>
              w.table.rules[key] in w.states && w.table.rules[key] in Step(w, a).states
              && Step(w, a).states[w.table.rules[key]] == w.states[w.table.rules[key]]
  {
    assert ThreadOk(w, t);
    BirthsKept(w, a);
    hide TableOk, EntryFor, RuleOk, Drops, Entered, Answered;
  }

  /** A stale request stays stale until it is finished. */
  lemma StaleStays(w: World, a: Action, t: nat)
    requires WorldOk(w) && Enabled(w, a) && Stale(w, t)
    ensures Stale(Step(w, a), t) || Step(w, a).threads[t].Finished?
  {
    BirthsKept(w, a);
    hide TableOk, EntryFor, RuleOk, Drops, Entered, Answered, RulesCurrent;
  }

  // ----- Requests that nothing interrupts -----

  /** A new request belongs to the current generation, and is routed by the tables as they are. */
  lemma RequestIsRouted(w: World, t: nat, at: PathKey, body: string, operation: Parsed, rule: nat)
    requires t !in w.threads && rule !in w.states
    ensures Enabled(w, Begin(t))
    ensures var v := Step(w, Begin(t));
            && v.table == w.table && v.states == w.states && t in v.threads && v.threads[t].Begun?
            && var d := Dispatched(w.table, w.table.generation, at, body, operation, rule);
               match d.1
               case ToRule(r) => Routed(v, t, at, body, operation, rule).table == d.0 && Routed(v, t, at, body, operation, rule).threads[t].Waiting?
                                 && Routed(v, t, at, body, operation, rule).threads[t].rule == r
               case ToUpstream => Routed(v, t, at, body, operation, rule).table == d.0 && Routed(v, t, at, body, operation, rule).threads[t].Plain?
               case Refusal(_) => Routed(v, t, at, body, operation, rule).threads[t].Recording?
  {
    hide Dispatched, Routed;
    DispatchIsItsSteps(Step(w, Begin(t)), t, at, body, operation, rule);
  }

  /** A request at a free rule enters the rule's mutex. With a body that is not that of the first call it is rejected,
      with any other it goes on to the upstream. */
  lemma EnteringJudges(w: World, t: nat)
    requires WorldOk(w) && Enabled(w, Enter(t))
    ensures var s, v := w.threads[t], Step(w, Enter(t));
            var r := w.states[s.rule];
            && v.table == w.table && v.states == w.states[s.rule := v.states[s.rule]] && v.states[s.rule].holder == Some(t)
            && v.states[s.rule].bodies == r.bodies + [s.body]
            && v.threads[t] == if |r.bodies| > 0 && s.body != r.bodies[0]
                               then Recording(s.generation, EntryFor(s.key, s.body, None, false, true, "body_mismatch"), Some(s.rule))
                               else Forwarding(s.generation, s.key, s.body, s.rule)
  {
    var s := w.threads[t];
    assert RuleOk(w.states[s.rule]);
    EnteredOk(w.states[s.rule], t, s.body);
    hide TableOk, ThreadOk, RulesCurrent, EntryFor, RuleOk;
  }

  /** The upstream's answer settles a forwarded request: it is lost exactly if it is the rule's first success. */
  lemma AnsweringSettles(w: World, t: nat, answer: Option<int>)
    requires WorldOk(w) && Enabled(w, Answer(t, answer)) && w.threads[t].Forwarding?
    ensures var s, v := w.threads[t], Step(w, Answer(t, answer));
            var r := w.states[s.rule];
            var lost := Success(answer) && forall i :: 0 <= i < |r.answers| ==> !Success(r.answers[i]);
            && v.table == w.table && v.states == w.states[s.rule := v.states[s.rule]] && v.states[s.rule].holder == Some(t)
            && v.states[s.rule].answers == r.answers + [answer] && v.states[s.rule].lost == r.lost + [lost]
            && v.threads[t] == Recording(s.generation, EntryFor(s.key, s.body, answer, lost, false, if answer.None? then "upstream_unavailable" else ""), Some(s.rule))
  {
    var s := w.threads[t];
    assert ThreadOk(w, t) && RuleOk(w.states[s.rule]);
    hide TableOk, RulesCurrent, EntryFor, CallsOk, Success;
  }

  /** What a request that meets no rule puts on record: nothing was dropped, and the upstream's status if it was asked. */
  lemma UnruledRequestsAreRecorded(w: World, a: Action, t: nat)
    requires Enabled(w, a) && (a.Refuse? || a.Check? || (a.Answer? && w.threads[a.thread].Plain?)) && a.thread == t
    ensures var s, v := w.threads[t], Step(w, a);
            && v.table == w.table && v.states == w.states && v.threads[t].generation == s.generation
            && (a.Refuse? ==> v.threads[t] == Recording(s.generation, Entry(0, a.at, "", a.body, None, false, false, a.error), None))
            && (a.Check? && v.threads[t].Recording? ==>
                  Configured(w.table, s.generation, a.at) && a.operation.NoOperation?
                  && v.threads[t] == Recording(s.generation, Entry(0, a.at, "", a.body, None, false, true, a.operation.error), None))
            && (a.Answer? ==>
                  v.threads[t] == Recording(s.generation, Entry(0, s.key.at, s.key.operationId, s.body, a.answer, false, false,
                                                                if a.answer.None? then "upstream_unavailable" else ""), None))
  {
    hide Configured;
  }

  /** Whoever records in a rule's mutex leaves it free, and is done. */
  lemma RecordingReleases(w: World, t: nat)
    requires Enabled(w, Record(t))
    ensures var s, v := w.threads[t], Step(w, Record(t));
            && v.threads[t] == Finished && v.table == Recorded(w.table, s.generation, s.entry)
            && (s.held.Some? ==> v.states == w.states[s.held.value := w.states[s.held.value].(holder := None)])
            && (s.held.None? ==> v.states == w.states)
  {
    hide Recorded;
  }

  // ----- The proxy in place -----

  /** One rule, updated under its own mutex. */
  class Rule {
    const birth: nat
    var holder: Option<nat>
    var open: bool
    var baseline: Option<string>
    var calls: nat
    var upstreamCalls: nat
    var drops: nat
    var rejections: nat
    ghost var bodies: seq<string>
    ghost var sent: seq<string>
    ghost var answers: seq<Option<int>>
    ghost var lost: seq<bool>

    constructor (generation: nat)
      ensures Value() == NewRule(generation)
    {
      birth, holder, open, baseline := generation, None, false, None;
      calls, upstreamCalls, drops, rejections := 0, 0, 0, 0;
      bodies, sent, answers, lost := [], [], [], [];
    }

    ghost function Value(): RuleState
      reads this
    {
      RuleState(birth, holder, open, baseline, calls, upstreamCalls, drops, rejections, bodies, sent, answers, lost)
    }

    method Enter(thread: nat, body: string) returns (mismatch: bool)
      modifies this
      ensures Value() == Entered(old(Value()), thread, body) && mismatch == !open
    {
      holder := Some(thread);
      calls, bodies := calls + 1, bodies + [body];
      if baseline.None? {
        baseline := Some(body);
      } else if baseline.value != body {
        rejections := rejections + 1;
        open := false;
        return true;
      }
      open, mismatch := true, false;
    }

    method Settle(body: string, answer: Option<int>) returns (dropped: bool)
      modifies this
      ensures Value() == Answered(old(Value()), body, answer) && dropped == Drops(old(Value()), answer)
    {
      upstreamCalls := upstreamCalls + 1;
      open, sent, answers := false, sent + [body], answers + [answer];
      dropped := false;
      if answer.Some? && drops == 0 && answer.value >= 200 && answer.value < 300 {
        drops := drops + 1;
        dropped := true;
      }
      lost := lost + [dropped];
    }

    method Release()
      modifies this
      ensures Value() == old(Value()).(holder := None)
    {
      holder := None;
    }
  }

  /** What the caller gets. */
  datatype Outcome = Mismatch | Unavailable | ConnectionLost | Passed(status: int)

  /** The tables of the proxy and the critical sections that change them. */
  class Proxy {
    var rules: map<RuleKey, Rule>
    var paths: map<PathKey, nat>
    var captures: set<PathKey>
    var generation: nat
    var audit: seq<Entry>
    var auditSequence: nat

    constructor ()
      ensures Value() == Table(map[], map[], {}, 1, [], 0)
    {
      rules, paths, captures, generation, audit, auditSequence := map[], map[], {}, 1, [], 0;
    }

    ghost function Value(): Table<Rule>
      reads this
    {
      Table(rules, paths, captures, generation, audit, auditSequence)
    }

    method AddRule(key: RuleKey) returns (ok: bool, ghost made: Rule)
      modifies this
      ensures (Value(), ok) == RuleAdded(old(Value()), key, made) && fresh(made) && made.Value() == NewRule(old(generation))
    {
      var state := new Rule(generation);
      made := state;
      if key.at in captures || key in rules { return false, made; }
      rules := rules[key := state];
      paths := paths[key.at := Rules(paths, key.at) + 1];
      ok := true;
    }

    method ArmCaptureNext(at: PathKey) returns (ok: bool)
      modifies this
      ensures (Value(), ok) == Armed(old(Value()), at)
    {
      if Rules(paths, at) > 0 || at in captures { return false; }
      captures := captures + {at};
      ok := true;
    }

    method Reset()
      modifies this
      ensures Value() == Cleared(old(Value()))
    {
      generation := generation + 1;
      rules, paths, captures := map[], map[], {};
      audit, auditSequence := [], 0;
    }

    /** The dispatch of `ServeHTTP`, uninterrupted: where a request goes, once its body is read. */
    method Dispatch(requestGeneration: nat, at: PathKey, body: string, operation: Parsed) returns (route: Route<Rule>, ghost made: Rule)
      modifies this
      ensures (Value(), route) == Dispatched(old(Value()), requestGeneration, at, body, operation, made)
      ensures fresh(made) && made.Value() == NewRule(old(generation))
    {
      var spare := new Rule(generation);
      made := spare;
      var id := "";
      if requestGeneration == generation && (Rules(paths, at) > 0 || at in captures) {
        if operation.NoOperation? {
          Record(requestGeneration, EntryFor(RuleKey(at, ""), body, None, false, true, operation.error));
          return Refusal(operation.error), made;
        }
        id := operation.id;
      }
      var key := RuleKey(at, id);
      if requestGeneration == generation && key in rules { return ToRule(rules[key]), made; }
      if id == "" { return ToUpstream, made; }
      var bound: Option<Rule>;
      bound, made := BindCapture(requestGeneration, key);
      route := if bound.Some? then ToRule(bound.value) else ToUpstream;
    }

    method BindCapture(requestGeneration: nat, key: RuleKey) returns (r: Option<Rule>, ghost made: Rule)
      modifies this
      ensures (Value(), r) == Bound(old(Value()), requestGeneration, key, made) && fresh(made) && made.Value() == NewRule(old(generation))
    {
      var state := new Rule(generation);
      made := state;
      if requestGeneration != generation || key.at !in captures { return None, made; }
      captures := captures - {key.at};
      if key in rules { return Some(rules[key]), made; }
      rules := rules[key := state];
      paths := paths[key.at := Rules(paths, key.at) + 1];
      r := Some(state);
    }

    method Record(requestGeneration: nat, entry: Entry)
      modifies this
      ensures Value() == Recorded(old(Value()), requestGeneration, entry)
    {
      if requestGeneration != generation { return; }
      auditSequence := auditSequence + 1;
      audit := audit + [entry.(sequence := auditSequence)];
    }

    /** `forwardConfigured` of one request whose turn in the rule's mutex has come; `answer` is what the upstream
        gives if it is asked. The caller is refused exactly if the body is not that of the rule's first call, and loses
        the response exactly if it is the first success. */
    method ForwardConfigured(requestGeneration: nat, thread: nat, key: RuleKey, body: string, state: Rule, answer: Option<int>) returns (outcome: Outcome)
      requires state.holder.None?
      modifies this, state
      ensures var r := Entered(old(state.Value()), thread, body);
              var dropped := r.open && Drops(r, answer);
              && state.Value() == (if r.open then Answered(r, body, answer) else r).(holder := None)
              && Value() == Recorded(old(Value()), requestGeneration,
                   if !r.open then EntryFor(key, body, None, false, true, "body_mismatch")
                   else EntryFor(key, body, answer, dropped, false, if answer.None? then "upstream_unavailable" else ""))
      ensures var r := old(state.Value());
              RuleOk(r) ==>
                && RuleOk(state.Value())
                && outcome ==
                     if |r.bodies| > 0 && body != r.bodies[0] then Mismatch
                     else if answer.None? then Unavailable
                     else if 200 <= answer.value < 300 && forall i :: 0 <= i < |r.answers| ==> !Success(r.answers[i]) then ConnectionLost
                     else Passed(answer.value)
      ensures requestGeneration == old(generation) ==>
                && |audit| == old(|audit|) + 1
                && var e := audit[|audit| - 1];
                   && e.at == key.at && e.operationId == key.operationId && e.body == body
                   && e.rejected == outcome.Mismatch? && e.dropped == outcome.ConnectionLost?
                   && e.status == (if outcome.Mismatch? then None else answer)
                   && e.error == (if outcome.Mismatch? then "body_mismatch" else if outcome.Unavailable? then "upstream_unavailable" else "")
    {
      hide Differing, RuleOk;
      ghost var before := state.Value();
      if RuleOk(before) { TurnMeans(before, thread, body, answer); }
      var mismatch := state.Enter(thread, body);
      if mismatch {
        Record(requestGeneration, EntryFor(key, body, None, false, true, "body_mismatch"));
        state.Release();
        return Mismatch;
      }
      var dropped := state.Settle(body, answer);
      Record(requestGeneration, EntryFor(key, body, answer, dropped, false, if answer.None? then "upstream_unavailable" else ""));
      state.Release();
      outcome := if answer.None? then Unavailable else if dropped then ConnectionLost else Passed(answer.value);
    }
  }

  /** A whole turn in a rule's mutex. */
  lemma TurnMeans(r: RuleState, thread: nat, body: string, answer: Option<int>)
    requires RuleOk(r) && r.holder.None?
    ensures var s := Entered(r, thread, body);
            && RuleOk((if s.open then Answered(s, body, answer) else s).(holder := None))
            && (s.open <==> |r.bodies| == 0 || body == r.bodies[0])
            && (Drops(s, answer) <==> Success(answer) && forall i :: 0 <= i < |r.answers| ==> !Success(r.answers[i]))
  {
    var s := Entered(r, thread, body);
    EnteredOk(r, thread, body);
    if s.open {
      AnsweredOk(s, body, answer);
      ReleasedOk(Answered(s, body, answer));
    } else {
      ReleasedOk(s);
    }
    hide Differing, Success;
  }
}
