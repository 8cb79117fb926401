/** Whole runs of the broker under a clock that never goes back: at most one delivery of every operation, receipts
    that only move forwards, authority that never changes hands, and a lease that is never resurrected. */
module CompanionRuns {
  import opened Basics
  import opened CompanionProtocol
  import opened CompanionModel
  import opened CompanionInvariants

  datatype Call = Call(now: int, command: Command)

  function Initial(origin: string): State { State(origin, map[], {}) }

  /** The state before call number `k`. */
  function StateAt(s: State, calls: seq<Call>, k: nat): State
    requires k <= |calls|
  {
    if k == 0 then s else Step(StateAt(s, calls, k - 1), calls[k - 1].now, calls[k - 1].command).0
  }

  function ReplyAt(s: State, calls: seq<Call>, k: nat): Reply
    requires k < |calls|
  {
    Step(StateAt(s, calls, k), calls[k].now, calls[k].command).1
  }

  /** Secrets are fresh and the clock never goes back. */
  ghost predicate ValidRun(s: State, calls: seq<Call>) {
    && (forall k :: 0 <= k < |calls| ==> Fresh(StateAt(s, calls, k), calls[k].command))
    && forall i, j :: 0 <= i <= j < |calls| ==> calls[i].now <= calls[j].now
  }

  /** Every reachable state has the representation invariant. */
  lemma {:induction false} ReachableOk(origin: string, calls: seq<Call>, k: nat)
    requires ValidRun(Initial(origin), calls) && k <= |calls|
    ensures StateOk(StateAt(Initial(origin), calls, k))
  {
    hide Step, Fresh, ConnOk, Clash;
    if k > 0 {
      ReachableOk(origin, calls, k - 1);
      StepKeepsOk(StateAt(Initial(origin), calls, k - 1), calls[k - 1].now, calls[k - 1].command);
    }
  }

  // ----- How a connection evolves -----

  /** One call moves a receipt at most one step: queued to dispatched or not executed, dispatched to completed or
      unknown. */
  predicate StateMoves(a: ReceiptState, b: ReceiptState) {
    || a == b
    || (a.Queued? && (b.Dispatched? || b.NotExecuted?))
    || (a.Dispatched? && (b.Completed? || b.Unknown?))
  }

  /** The moves of any number of calls. */
  predicate StateReaches(a: ReceiptState, b: ReceiptState) {
    || a == b
    || (a.Queued? && !b.Other?)
    || (a.Dispatched? && (b.Completed? || b.Unknown?))
  }

  /** Identity never changes; the first completed receipt stays, value included, until revocation drops the value. */
  predicate RecordKept(r: Record, q: Record, revoked: bool) {
    && q.digest == r.digest && q.receipt.id == r.receipt.id && q.receipt.device == r.receipt.device
    && q.receipt.conversation == r.receipt.conversation && q.receipt.run == r.receipt.run
    && (r.receipt.state.Completed? ==> q.receipt == r.receipt || (revoked && q.receipt == r.receipt.(value := "")))
  }

  /** What a connection keeps for as long as it exists. */
  ghost predicate ConnKept(c: Conn, d: Conn) {
    && d.owner == c.owner && d.browserDevice == c.browserDevice && d.secret == c.secret && d.created == c.created
    && c.sequence <= d.sequence && (c.revoked ==> d.revoked)
    && (c.code == "" ==> d.code == "")
    && (c.code == "" && c.token != "" ==> d.token == c.token && d.device == c.device)
    && (c.grant.Some? ==> d.grant == c.grant)
    && forall id :: id in c.records ==> id in d.records && RecordKept(c.records[id], d.records[id], d.revoked)
  }

  ghost predicate RecordsMove(c: Conn, d: Conn) {
    forall id :: id in c.records && id in d.records ==> StateMoves(c.records[id].receipt.state, d.records[id].receipt.state)
  }

  ghost predicate RecordsReach(c: Conn, d: Conn) {
    forall id :: id in c.records && id in d.records ==> StateReaches(c.records[id].receipt.state, d.records[id].receipt.state)
  }

  lemma RevokedKept(c: Conn)
    requires ConnOk(c)
    ensures ConnKept(c, RevokedConn(c)) && RecordsMove(c, RevokedConn(c))
  {
    hide SumValues, BytesOk, Allowed;
  }

  lemma StoredKept(c: Conn, r: Receipt)
    requires ConnOk(c) && ReceiptOk(c, r) && !c.revoked
    ensures ConnKept(c, StoredReceipt(c, r))
    ensures forall id :: id in c.records ==>
              if id == r.id then StateMoves(c.records[id].receipt.state, StoredReceipt(c, r).records[id].receipt.state) && !c.records[id].receipt.state.Queued?
              else StoredReceipt(c, r).records[id] == c.records[id]
    ensures StoredReceipt(c, r).records.Keys == c.records.Keys && StoredReceipt(c, r).queue == c.queue
  {
    hide SumValues, BytesOk, Allowed, Ordered, QueueOk;
    assert RecordBound(c, r.id);
  }

  lemma HandedKept(c: Conn)
    requires ConnOk(c) && !c.revoked
    ensures ConnKept(c, Handed(c)) && Handed(c).records.Keys == c.records.Keys
    ensures forall id :: id in c.records ==>
              if c.queue.Some? && c.queue.value.id == id
              then c.records[id].receipt.state.Queued? && Handed(c).records[id].receipt.state.Dispatched?
              else Handed(c).records[id] == c.records[id]
  {
    hide SumValues, BytesOk, Allowed, Ordered, Bounded;
  }

  lemma KeptTransitive(a: Conn, b: Conn, c: Conn)
    requires ConnKept(a, b) && ConnKept(b, c)
    ensures ConnKept(a, c)
  {
    forall id | id in a.records ensures id in c.records && RecordKept(a.records[id], c.records[id], c.revoked) {
      assert RecordKept(a.records[id], b.records[id], b.revoked);
      assert RecordKept(b.records[id], c.records[id], c.revoked);
    }
  }

  lemma ReachTransitive(a: Conn, b: Conn, c: Conn)
    requires RecordsReach(a, b) && RecordsMove(b, c) && a.records.Keys <= b.records.Keys
    requires forall id :: id in c.records ==> KnownState(c.records[id].receipt.state)
    ensures RecordsReach(a, c)
  {
    forall id | id in a.records && id in c.records ensures StateReaches(a.records[id].receipt.state, c.records[id].receipt.state) {
      assert StateReaches(a.records[id].receipt.state, b.records[id].receipt.state);
      assert StateMoves(b.records[id].receipt.state, c.records[id].receipt.state);
    }
  }

  lemma ExchangedKept(c: Conn, sequence: nat, now: int, body: Body)
    requires ConnOk(c) && sequence > c.sequence
    ensures var d := ExchangeWith(c.(sequence := sequence), now, body).0;
            ConnKept(c, d) && RecordsMove(c, d)
  {
    var b, d := c.(sequence := sequence), ExchangeWith(c.(sequence := sequence), now, body).0;
    TimedOk(c, sequence, now);
    assert ConnKept(c, b);
    hide ConnOk, RevokedConn, StoredReceipt, Handed, ReceiptOk, RecordKept, StateMoves;
    StateStays();
    if b.revoked || BrowserExpired(b, now) {
      RevokedKept(b);
      KeptTransitive(c, b, d);
    } else if body.Exchange? && (body.receipt.Some? ==> ReceiptOk(b, body.receipt.value)) {
      var e := if body.receipt.Some? then StoredReceipt(b, body.receipt.value) else b;
      if body.receipt.Some? {
        StoredOk(b, body.receipt.value);
        StoredKept(b, body.receipt.value);
      } else {
        KeptItself(b);
      }
      TimedOk(e, 0, now);
      HandedKept(e.(nativeAt := now));
      KeptTransitive(c, b, e);
      KeptTimed(e, now);
      KeptTransitive(c, e, e.(nativeAt := now));
      KeptTransitive(c, e.(nativeAt := now), d);
    } else {
      KeptItself(b);
    }
  }

  lemma StateStays()
    ensures forall a :: StateMoves(a, a)
  {
  }

  lemma KeptItself(c: Conn)
    ensures ConnKept(c, c) && RecordsMove(c, c)
  {
  }

  lemma KeptTimed(c: Conn, now: int)
    ensures ConnKept(c, c.(nativeAt := now))
  {
  }

  /** Every change keeps what a connection keeps, and moves every receipt at most one step. */
  lemma ChangeEvolves(c: Conn, change: Change, now: int)
    requires ConnOk(c) && ChangeOk(c, change, now)
    ensures ConnKept(c, Changed(c, change, now)) && RecordsMove(c, Changed(c, change, now))
  {
    match change
    case Revocation => RevokedKept(c);
    case Exchanging(sequence, body) => ExchangedKept(c, sequence, now, body);
    case _ => PlainChangeEvolves(c, change, now);
  }

  lemma PlainChangeEvolves(c: Conn, change: Change, now: int)
    requires ConnOk(c) && ChangeOk(c, change, now) && !change.Revocation? && !change.Exchanging?
    ensures ConnKept(c, Changed(c, change, now)) && RecordsMove(c, Changed(c, change, now))
  {
    hide SumValues, BytesOk, Allowed, QueueOk, NoRepeats, Bounded;
  }

  // ----- Following one connection through a run -----

  /** The connection `id`, if it is still there, evolved from `c`. Its name is never given out again. */
  ghost predicate Descends(s: State, id: string, c: Conn) {
    id in s.issued && (id in s.conns ==> ConnKept(c, s.conns[id]) && RecordsReach(c, s.conns[id]))
  }

  lemma DescendsStep(s: State, now: int, command: Command, id: string, c: Conn)
    requires StateOk(s) && Fresh(s, command) && Descends(s, id, c)
    ensures Descends(Step(s, now, command).0, id, c)
  {
    var t := Step(s, now, command).0;
    hide Step, Fresh, ConnOk, ChangeOk, ChangeOf, Changed, Clash, ConnKept, RecordsReach, RecordsMove;
    StepKeepsKeys(s, now, command);
    if id in t.conns {
      StepCreates(s, now, command, id);
      StepChanges(s, now, command, id);
      var change := ChangeOf(s, now, command, id);
      ChangeEvolves(s.conns[id], change, now);
      ChangeKeepsOk(s.conns[id], change, now);
      KnownStates(t.conns[id]);
      KeptTransitive(c, s.conns[id], t.conns[id]);
      KeptKeys(c, s.conns[id]);
      ReachTransitive(c, s.conns[id], t.conns[id]);
    }
  }

  lemma KnownStates(c: Conn)
    requires ConnOk(c)
    ensures forall id :: id in c.records ==> KnownState(c.records[id].receipt.state)
  {
    forall id | id in c.records ensures KnownState(c.records[id].receipt.state) { assert RecordBound(c, id); }
  }

  lemma KeptKeys(c: Conn, d: Conn)
    requires ConnKept(c, d)
    ensures c.records.Keys <= d.records.Keys
  {
  }

  lemma {:induction false} RunDescends(origin: string, calls: seq<Call>, i: nat, k: nat, id: string)
    requires ValidRun(Initial(origin), calls) && i <= k <= |calls| && id in StateAt(Initial(origin), calls, i).conns
    ensures Descends(StateAt(Initial(origin), calls, k), id, StateAt(Initial(origin), calls, i).conns[id])
    decreases k - i
  {
    hide *;
    var s, c := Initial(origin), StateAt(Initial(origin), calls, i).conns[id];
    if i == k {
      ReachableOk(origin, calls, i);
      DescendsItself(StateAt(s, calls, i), id);
    } else {
      RunDescends(origin, calls, i, k - 1, id);
      ReachableOk(origin, calls, k - 1);
      RunStep(s, calls, k - 1);
      DescendsStep(StateAt(s, calls, k - 1), calls[k - 1].now, calls[k - 1].command, id, c);
    }
  }

  lemma RunStep(s: State, calls: seq<Call>, k: nat)
    requires ValidRun(s, calls) && k < |calls|
    ensures Fresh(StateAt(s, calls, k), calls[k].command)
    ensures StateAt(s, calls, k + 1) == Step(StateAt(s, calls, k), calls[k].now, calls[k].command).0
    ensures ReplyAt(s, calls, k) == Step(StateAt(s, calls, k), calls[k].now, calls[k].command).1
  {
    hide Step, Fresh;
  }

  lemma DescendsItself(s: State, id: string)
    requires StateOk(s) && id in s.conns
    ensures Descends(s, id, s.conns[id])
  {
    hide ConnOk, Exclusive, ConnKept, RecordsReach;
    KeptItself(s.conns[id]);
    ReachesItself(s.conns[id]);
  }

  lemma ReachesItself(c: Conn)
    ensures RecordsReach(c, c)
  {
  }

  /** Over whole runs: a connection keeps its parties, its device and its grant; a record keeps its identity; a
      receipt only moves forwards, and a completed one stays as it is until revocation drops its value. */
  lemma ReceiptsOnlyMoveForwards(origin: string, calls: seq<Call>, i: nat, k: nat, id: string)
    requires ValidRun(Initial(origin), calls) && i <= k <= |calls|
    requires id in StateAt(Initial(origin), calls, i).conns && id in StateAt(Initial(origin), calls, k).conns
    ensures var c, d := StateAt(Initial(origin), calls, i).conns[id], StateAt(Initial(origin), calls, k).conns[id];
            && d.owner == c.owner && d.browserDevice == c.browserDevice && (c.grant.Some? ==> d.grant == c.grant) && (c.revoked ==> d.revoked)
            && forall op :: op in c.records ==>
                 && op in d.records && RecordKept(c.records[op], d.records[op], d.revoked)
                 && StateReaches(c.records[op].receipt.state, d.records[op].receipt.state)
  {
    hide StateAt, Step, Fresh, RecordKept, StateReaches;
    RunDescends(origin, calls, i, k, id);
  }

  /** What a host that keeps asking is told: owner and browser device never change, a grant once given never changes,
      and once a connection that existed is refused it is refused for ever. */
  lemma PrincipalIsStable(origin: string, calls: seq<Call>, i: nat, k: nat, id: string)
    requires ValidRun(Initial(origin), calls) && i <= k <= |calls| && id in StateAt(Initial(origin), calls, i).conns
    ensures var a, b := PrincipalOf(StateAt(Initial(origin), calls, i), id), PrincipalOf(StateAt(Initial(origin), calls, k), id);
            && (a.None? ==> b.None?)
            && (b.Some? ==> a.Some? && b.value.0 == a.value.0 && b.value.1 == a.value.1 && (a.value.2.Some? ==> b.value.2 == a.value.2))
  {
    hide StateAt, ValidRun, RecordKept, StateReaches;
    if id in StateAt(Initial(origin), calls, k).conns { ReceiptsOnlyMoveForwards(origin, calls, i, k, id); }
  }

  // ----- At most one delivery -----

  /** Call `k` delivers `op` on the connection `id`. */
  predicate DeliversAt(s: State, calls: seq<Call>, k: nat, id: string, op: Operation)
    requires k < |calls|
  {
    && calls[k].command.ExchangeCommand? && calls[k].command.id == id
    && ReplyAt(s, calls, k).Delivered? && ReplyAt(s, calls, k).delivery.operation == Some(op)
  }

  /** A delivered operation was queued on a live connection, and is dispatched afterwards. */
  lemma DeliveryConsumes(s: State, now: int, command: Command, op: Operation)
    requires StateOk(s) && command.ExchangeCommand?
    requires Step(s, now, command).1.Delivered? && Step(s, now, command).1.delivery.operation == Some(op)
    ensures var id, t := command.id, Step(s, now, command).0;
            && id in s.conns && id in t.conns && s.conns[id].queue == Some(op) && !s.conns[id].revoked && !BrowserExpired(s.conns[id], now)
            && op.id in s.conns[id].records && s.conns[id].records[op.id].receipt.state.Queued?
            && op.id in t.conns[id].records && t.conns[id].records[op.id].receipt.state.Dispatched?
            && Step(s, now, command).1.delivery.grant == s.conns[id].grant
            && s.conns[id].grant.Some? && Allowed(s.conns[id].grant.value, op.tool, false)
  {
    hide SumValues, BytesOk, Allowed, NoRepeats, Bounded, RevokedConn;
    assert ConnOk(s.conns[command.id]);
  }

  lemma DeliveryAt(origin: string, calls: seq<Call>, k: nat, id: string, op: Operation)
    requires ValidRun(Initial(origin), calls) && k < |calls| && DeliversAt(Initial(origin), calls, k, id, op)
    ensures var s, t := StateAt(Initial(origin), calls, k), StateAt(Initial(origin), calls, k + 1);
            && id in s.conns && id in t.conns && s.conns[id].queue == Some(op)
            && !s.conns[id].revoked && !BrowserExpired(s.conns[id], calls[k].now)
            && op.id in s.conns[id].records && s.conns[id].records[op.id].receipt.state.Queued?
            && op.id in t.conns[id].records && t.conns[id].records[op.id].receipt.state.Dispatched?
            && ReplyAt(Initial(origin), calls, k).delivery.grant == s.conns[id].grant
            && s.conns[id].grant.Some? && Allowed(s.conns[id].grant.value, op.tool, false)
  {
    hide Step, Fresh, StateOk, BrowserExpired, Allowed;
    ReachableOk(origin, calls, k);
    DeliveryConsumes(StateAt(Initial(origin), calls, k), calls[k].now, calls[k].command, op);
  }

  /** At most once: over every run, an operation ID of a connection is in at most one delivery. */
  lemma DeliveredAtMostOnce(origin: string, calls: seq<Call>, i: nat, k: nat, id: string, op: Operation, again: Operation)
    requires ValidRun(Initial(origin), calls) && i < k < |calls| && op.id == again.id
    requires DeliversAt(Initial(origin), calls, i, id, op)
    ensures !DeliversAt(Initial(origin), calls, k, id, again)
  {
    hide *;
    if DeliversAt(Initial(origin), calls, k, id, again) {
      DeliveryAt(origin, calls, i, id, op);
      DeliveryAt(origin, calls, k, id, again);
      ReceiptsOnlyMoveForwards(origin, calls, i + 1, k, id);
      DispatchedIsNotQueued();
    }
  }

  lemma DispatchedIsNotQueued()
    ensures forall a: ReceiptState, b: ReceiptState :: StateReaches(a, b) && a.Dispatched? ==> !b.Queued?
  {
  }

  // ----- Authority -----

  /** Call `k` puts `op` into the queue of the connection `id`; `model` says on whose behalf. */
  predicate AcceptsAt(s: State, calls: seq<Call>, k: nat, id: string, op: Operation, model: bool)
    requires k < |calls|
  {
    && id in StateAt(s, calls, k).conns
    && ChangeOf(StateAt(s, calls, k), calls[k].now, calls[k].command, id) == Enqueueing(op, model)
  }

  /** An acceptance is a submission that names the connection and is answered with a queued receipt. */
  lemma AcceptanceMeans(s: State, now: int, command: Command, id: string, op: Operation, model: bool)
    requires StateOk(s) && Fresh(s, command) && id in s.conns && ChangeOf(s, now, command, id) == Enqueueing(op, model)
    ensures if model then command.ModelSubmitCommand? && command.id == id && command.op == op
            else command.SubmitCommand? && command.id == id && command.op == op && command.secret == s.conns[id].secret
    ensures Step(s, now, command).1.Receipted? && Step(s, now, command).1.receipt.state.Queued?
    ensures !s.conns[id].revoked && s.conns[id].grant.Some? && Allowed(s.conns[id].grant.value, op.tool, model)
    ensures !BrowserExpired(s.conns[id], now) && !NativeExpired(s.conns[id], now)
  {
    hide Allowed, RevokedConn, Full, ConnOk, Exclusive, StateOk;
  }

  lemma QueueFilled(c: Conn, change: Change, now: int)
    requires ConnOk(c) && ChangeOk(c, change, now) && Changed(c, change, now).queue.Some?
    ensures if change.Enqueueing? then Changed(c, change, now).queue == Some(change.op) else c.queue == Changed(c, change, now).queue
  {
    hide RevokedRecords, Allowed, Full, Ordered, Bounded, BytesOk;
  }

  /** Whatever is queued was accepted by an earlier call, and the grant has not changed since. */
  lemma {:induction false} QueuedWasAccepted(origin: string, calls: seq<Call>, k: nat, id: string) returns (i: nat, model: bool)
    requires ValidRun(Initial(origin), calls) && k <= |calls|
    requires id in StateAt(Initial(origin), calls, k).conns && StateAt(Initial(origin), calls, k).conns[id].queue.Some?
    ensures i < k && AcceptsAt(Initial(origin), calls, i, id, StateAt(Initial(origin), calls, k).conns[id].queue.value, model)
  {
    hide *;
    NothingInitially(origin, calls);
    var s, now, command := StateAt(Initial(origin), calls, k - 1), calls[k - 1].now, calls[k - 1].command;
    ReachableOk(origin, calls, k - 1);
    RunStep(Initial(origin), calls, k - 1);
    QueueStep(s, now, command, id);
    if ChangeOf(s, now, command, id).Enqueueing? {
      i, model := k - 1, ChangeOf(s, now, command, id).model;
      Accepting(Initial(origin), calls, i, id);
    } else {
      i, model := QueuedWasAccepted(origin, calls, k - 1, id);
    }
  }

  lemma NothingInitially(origin: string, calls: seq<Call>)
    ensures StateAt(Initial(origin), calls, 0).conns == map[]
  {
  }

  lemma Accepting(s: State, calls: seq<Call>, k: nat, id: string)
    requires k < |calls| && id in StateAt(s, calls, k).conns
    requires ChangeOf(StateAt(s, calls, k), calls[k].now, calls[k].command, id).Enqueueing?
    ensures var change := ChangeOf(StateAt(s, calls, k), calls[k].now, calls[k].command, id);
            AcceptsAt(s, calls, k, id, change.op, change.model)
  {
    hide StateAt, ChangeOf;
  }

  lemma QueueStep(s: State, now: int, command: Command, id: string)
    requires StateOk(s) && Fresh(s, command)
    requires id in Step(s, now, command).0.conns && Step(s, now, command).0.conns[id].queue.Some?
    ensures id in s.conns
    ensures var change, op := ChangeOf(s, now, command, id), Step(s, now, command).0.conns[id].queue.value;
            if change.Enqueueing? then change.op == op else s.conns[id].queue == Some(op)
  {
    hide Step, Fresh, ConnOk, Clash, ChangeOk, ChangeOf, Changed;
    StepCreates(s, now, command, id);
    StepChanges(s, now, command, id);
    QueueFilled(s.conns[id], ChangeOf(s, now, command, id), now);
  }

  /** Authority over whole runs: every delivered operation was accepted by an earlier call under the very grant it
      is delivered with, that grant permitted it for whoever asked, and the lease was running both times. */
  lemma DeliveryWasAuthorized(origin: string, calls: seq<Call>, k: nat, id: string, op: Operation) returns (i: nat, model: bool)
    requires ValidRun(Initial(origin), calls) && k < |calls| && DeliversAt(Initial(origin), calls, k, id, op)
    ensures i < k && AcceptsAt(Initial(origin), calls, i, id, op, model)
    ensures var c := StateAt(Initial(origin), calls, i).conns[id];
            && c.grant.Some? && Allowed(c.grant.value, op.tool, model) && !c.revoked
            && !BrowserExpired(c, calls[i].now) && !NativeExpired(c, calls[i].now)
            && ReplyAt(Initial(origin), calls, k).delivery.grant == c.grant
            && id in StateAt(Initial(origin), calls, k).conns && !BrowserExpired(StateAt(Initial(origin), calls, k).conns[id], calls[k].now)
  {
    hide StateAt, Step, Fresh, Allowed, ChangeOf, BrowserExpired, NativeExpired, RecordKept, StateReaches;
    DeliveryAt(origin, calls, k, id, op);
    i, model := QueuedWasAccepted(origin, calls, k, id);
    ReachableOk(origin, calls, i);
    RunStep(Initial(origin), calls, i);
    AcceptanceMeans(StateAt(Initial(origin), calls, i), calls[i].now, calls[i].command, id, op, model);
    ReceiptsOnlyMoveForwards(origin, calls, i, k, id);
  }

  // ----- The lease -----

  /** The connection is gone, revoked, or granted with a browser lease that had run out at `now`. */
  ghost predicate Lapsed(s: State, id: string, now: int) {
    id in s.issued && (id in s.conns ==> s.conns[id].revoked || (s.conns[id].grant.Some? && BrowserExpired(s.conns[id], now)))
  }

  lemma LapsedChange(c: Conn, change: Change, now: int)
    requires ConnOk(c) && ChangeOk(c, change, now)
    requires c.revoked || (c.grant.Some? && BrowserExpired(c, now))
    ensures var d := Changed(c, change, now); d.revoked || (d.grant.Some? && BrowserExpired(d, now))
    ensures !change.Enqueueing?
  {
    hide RevokedRecords, Allowed, Full, Ordered, Bounded, BytesOk;
  }

  lemma LapsedStays(s: State, now: int, command: Command, id: string)
    requires StateOk(s) && Fresh(s, command) && Lapsed(s, id, now)
    ensures Lapsed(Step(s, now, command).0, id, now)
  {
    hide Step, Fresh, ConnOk, ChangeOk, ChangeOf, Changed, Clash, BrowserExpired;
    StepKeepsKeys(s, now, command);
    StepCreates(s, now, command, id);
    if id in s.conns {
      StepChanges(s, now, command, id);
      if id in Step(s, now, command).0.conns { LapsedChange(s.conns[id], ChangeOf(s, now, command, id), now); }
    }
  }

  lemma {:induction false} LapsedForEver(origin: string, calls: seq<Call>, i: nat, k: nat, id: string)
    requires ValidRun(Initial(origin), calls) && i <= k < |calls| && Lapsed(StateAt(Initial(origin), calls, i), id, calls[i].now)
    ensures Lapsed(StateAt(Initial(origin), calls, k), id, calls[k].now)
    decreases k - i
  {
    hide StateAt, Step, Fresh, ConnOk, Clash;
    if i < k {
      LapsedForEver(origin, calls, i, k - 1, id);
      ReachableOk(origin, calls, k - 1);
      RunStep(Initial(origin), calls, k - 1);
      LapsedStays(StateAt(Initial(origin), calls, k - 1), calls[k - 1].now, calls[k - 1].command, id);
    }
  }

  /** A lapsed lease is never resurrected: once a granted connection's browser lease has run out, no later call
      accepts or delivers anything on it. */
  lemma LapsedLeaseIsFinal(origin: string, calls: seq<Call>, i: nat, k: nat, id: string, op: Operation, model: bool)
    requires ValidRun(Initial(origin), calls) && i <= k < |calls| && Lapsed(StateAt(Initial(origin), calls, i), id, calls[i].now)
    ensures !AcceptsAt(Initial(origin), calls, k, id, op, model) && !DeliversAt(Initial(origin), calls, k, id, op)
  {
    hide StateAt, Step, Fresh, ConnOk, Clash, BrowserExpired, Allowed, ChangeOf, DeliversAt;
    LapsedForEver(origin, calls, i, k, id);
    ReachableOk(origin, calls, k);
    RunStep(Initial(origin), calls, k);
    if AcceptsAt(Initial(origin), calls, k, id, op, model) {
      AcceptanceMeans(StateAt(Initial(origin), calls, k), calls[k].now, calls[k].command, id, op, model);
    }
    if DeliversAt(Initial(origin), calls, k, id, op) { DeliveryAt(origin, calls, k, id, op); }
  }

  // ----- Sequence numbers -----

  /** Call `k` is an exchange that authenticates on the connection `id` with this sequence number. */
  predicate AuthenticAt(s: State, calls: seq<Call>, k: nat, id: string, sequence: nat)
    requires k < |calls|
  {
    && calls[k].command.ExchangeCommand? && calls[k].command.id == id && calls[k].command.sequence == sequence
    && Authentic(StateAt(s, calls, k), id, sequence, calls[k].command.mac, calls[k].command.body)
  }

  lemma AuthenticRaises(s: State, now: int, command: Command)
    requires command.ExchangeCommand? && Authentic(s, command.id, command.sequence, command.mac, command.body)
    ensures command.id in Step(s, now, command).0.conns && Step(s, now, command).0.conns[command.id].sequence == command.sequence
    ensures command.sequence > s.conns[command.id].sequence
  {
    hide RevokedRecords;
  }

  /** Authenticated exchanges of a connection carry strictly increasing sequence numbers, so none can be replayed. */
  lemma SequenceOnlyRises(origin: string, calls: seq<Call>, i: nat, k: nat, id: string, first: nat, second: nat)
    requires ValidRun(Initial(origin), calls) && i < k < |calls|
    requires AuthenticAt(Initial(origin), calls, i, id, first) && AuthenticAt(Initial(origin), calls, k, id, second)
    ensures first < second
  {
    hide StateAt, Step, Fresh, Authentic, ConnOk, Clash, RecordsReach;
    RunStep(Initial(origin), calls, i);
    RunStep(Initial(origin), calls, k);
    AuthenticRaises(StateAt(Initial(origin), calls, i), calls[i].now, calls[i].command);
    AuthenticRaises(StateAt(Initial(origin), calls, k), calls[k].now, calls[k].command);
    AuthenticPresent(StateAt(Initial(origin), calls, k), id, second, calls[k].command.mac, calls[k].command.body);
    RunDescends(origin, calls, i + 1, k, id);
  }

  lemma AuthenticPresent(s: State, id: string, sequence: nat, mac: Mac, body: Body)
    requires Authentic(s, id, sequence, mac, body)
    ensures id in s.conns
  {
  }

  // ----- A pairing carried through -----

  datatype Party = Party(origin: string, owner: string, browserDevice: string, pair: Pair, device: Device, token: string, grant: Grant)

  /** The parties are named, the secrets are new, and the grant is one a browser may give. */
  predicate Eligible(p: Party) {
    && p.owner != "" && p.browserDevice != "" && DeviceOk(p.device)
    && Fresh(Initial(p.origin), CreateCommand(p.owner, p.browserDevice, p.pair))
    && p.token != "" && p.token != p.pair.id && p.token != p.pair.code && p.token != p.pair.secret
    && p.grant.space != "" && p.grant.conversation != "" && (p.grant.files || p.grant.shell)
    && (p.grant.model ==> p.grant.destination != "")
  }

  predicate Sendable(g: Grant, op: Operation) {
    && Allowed(g, op.tool, false) && 1 <= |op.id| <= 160 && |op.run| <= 160
    && |op.arguments.text| <= MAX_PAYLOAD / 2 && op.arguments.Valid?
  }

  /** Pair, attach, authorize, submit and exchange, at the given times. */
  function Session(p: Party, op: Operation, times: seq<int>): seq<Call>
    requires |times| == 5
  {
    var id, body := p.pair.id, Body.Exchange(None);
    [ Call(times[0], CreateCommand(p.owner, p.browserDevice, p.pair)),
      Call(times[1], AttachCommand(AttachRequest(id, p.pair.code, p.device), p.token)),
      Call(times[2], AuthorizeCommand(p.owner, id, p.pair.secret, p.device.id, p.grant)),
      Call(times[3], SubmitCommand(p.owner, id, p.pair.secret, op)),
      Call(times[4], ExchangeCommand(id, 1, Mac(p.token, p.origin, id, 1, body), body)) ]
  }

  /** The device attaches before the code runs out, and neither lease runs out before it is needed. */
  predicate InTime(times: seq<int>)
    requires |times| == 5
  {
    times[1] - times[0] <= PAIRING && times[3] - times[1] <= LEASE && times[4] - times[2] <= LEASE
  }

  predicate Monotone(times: seq<int>) { forall i, j :: 0 <= i <= j < |times| ==> times[i] <= times[j] }

  function Alone(p: Party, c: Conn, issued: set<string>): State { State(p.origin, map[p.pair.id := c], issued) }

  function Issued(p: Party): set<string> { {p.pair.id, p.pair.code, p.pair.secret} }

  lemma PairingUp(p: Party, now: int)
    requires Eligible(p)
    ensures Step(Initial(p.origin), now, CreateCommand(p.owner, p.browserDevice, p.pair)).0
         == Alone(p, NewConn(p.owner, p.browserDevice, p.pair, now), Issued(p))
  {
    assert Collected(Initial(p.origin), now) == map[];
  }

  lemma Attaching(p: Party, created: int, now: int)
    requires Eligible(p)
    ensures var c := NewConn(p.owner, p.browserDevice, p.pair, created);
            Step(Alone(p, c, Issued(p)), now, AttachCommand(AttachRequest(p.pair.id, p.pair.code, p.device), p.token)).0
            == if now - created <= PAIRING then Alone(p, AttachedConn(c, p.device, p.token, now), Issued(p) + {p.token})
               else Alone(p, c, Issued(p))
  {
    hide DeviceOk;
    assert forall c, d, issued :: Alone(p, c, issued).conns[p.pair.id := d] == map[p.pair.id := d];
  }

  /** A connection that has neither grant nor queue. */
  predicate Bare(s: State, id: string) { id in s.conns && s.conns[id].grant.None? && s.conns[id].queue.None? }

  function Granted(p: Party, created: int, attached: int, now: int): Conn {
    AttachedConn(NewConn(p.owner, p.browserDevice, p.pair, created), p.device, p.token, attached).(grant := Some(p.grant), browserAt := now, viewState := Connected)
  }

  lemma Authorizing(p: Party, created: int, attached: int, now: int, issued: set<string>)
    requires Eligible(p)
    ensures var c := AttachedConn(NewConn(p.owner, p.browserDevice, p.pair, created), p.device, p.token, attached);
            var t := Step(Alone(p, c, issued), now, AuthorizeCommand(p.owner, p.pair.id, p.pair.secret, p.device.id, p.grant)).0;
            if now - attached <= LEASE then t == Alone(p, Granted(p, created, attached, now), issued) else Bare(t, p.pair.id)
  {
    hide DeviceOk;
    var c := AttachedConn(NewConn(p.owner, p.browserDevice, p.pair, created), p.device, p.token, attached);
    assert With(Alone(p, c, issued), p.pair.id, c) == Alone(p, c, issued);
    assert !Taken(Alone(p, c, issued), p.browserDevice, p.grant.conversation);
    assert forall d :: With(Alone(p, c, issued), p.pair.id, d) == Alone(p, d, issued) by {
      assert forall d :: Alone(p, c, issued).conns[p.pair.id := d] == map[p.pair.id := d];
    }
  }

  lemma Unattached(p: Party, created: int, now: int)
    requires Eligible(p)
    ensures var c := NewConn(p.owner, p.browserDevice, p.pair, created);
            Bare(Step(Alone(p, c, Issued(p)), now, AuthorizeCommand(p.owner, p.pair.id, p.pair.secret, p.device.id, p.grant)).0, p.pair.id)
  {
    hide DeviceOk;
  }

  lemma Submitting(p: Party, op: Operation, c: Conn, attached: int, authorized: int, now: int, issued: set<string>)
    requires Eligible(p) && Sendable(p.grant, op) && authorized <= now
    requires exists created :: c == Granted(p, created, attached, authorized)
    ensures var t := Step(Alone(p, c, issued), now, SubmitCommand(p.owner, p.pair.id, p.pair.secret, op)).0;
            if now - attached <= LEASE && now - authorized <= LEASE then t == Alone(p, Enqueued(c, op), issued)
            else p.pair.id in t.conns && t.conns[p.pair.id].queue.None?
  {
    hide DeviceOk, Allowed, RevokedRecords;
    assert forall d :: With(Alone(p, c, issued), p.pair.id, d) == Alone(p, d, issued) by {
      assert forall d :: Alone(p, c, issued).conns[p.pair.id := d] == map[p.pair.id := d];
    }
  }

  lemma ExchangeDelivers(p: Party, op: Operation, c: Conn, authorized: int, now: int, issued: set<string>)
    requires c.token == p.token != "" && c.sequence == 0 && !c.revoked && c.browserAt == authorized && c.queue == Some(op) && c.grant.Some?
    ensures var body := Body.Exchange(None);
            var r := Step(Alone(p, c, issued), now, ExchangeCommand(p.pair.id, 1, Mac(p.token, p.origin, p.pair.id, 1, body), body)).1;
            (r.Delivered? && r.delivery.operation == Some(op)) <==> now - authorized <= LEASE
  {
    hide RevokedRecords;
  }

  lemma NothingQueued(s: State, now: int, id: string, sequence: nat, mac: Mac, op: Operation)
    requires id in s.conns && s.conns[id].queue.None?
    ensures var r := Step(s, now, ExchangeCommand(id, sequence, mac, Body.Exchange(None))).1;
            !(r.Delivered? && r.delivery.operation == Some(op))
  {
    hide RevokedRecords;
  }

  lemma BareStays(s: State, now: int, owner: string, id: string, secret: string, op: Operation)
    requires Bare(s, id)
    ensures Bare(Step(s, now, SubmitCommand(owner, id, secret, op)).0, id)
  {
    hide Allowed;
  }

  lemma StateNext(s: State, calls: seq<Call>, k: nat)
    requires k < |calls|
    ensures StateAt(s, calls, k + 1) == Step(StateAt(s, calls, k), calls[k].now, calls[k].command).0
  {
    hide Step;
  }

  /** After three calls the connection is granted if attachment and authorization came in time, and bare otherwise. */
  lemma Opening(p: Party, op: Operation, times: seq<int>)
    requires Eligible(p) && |times| == 5 && Monotone(times)
    ensures var s := StateAt(Initial(p.origin), Session(p, op, times), 3);
            if times[1] - times[0] <= PAIRING && times[2] - times[1] <= LEASE
            then s == Alone(p, Granted(p, times[0], times[1], times[2]), Issued(p) + {p.token})
            else Bare(s, p.pair.id)
    ensures Fresh(StateAt(Initial(p.origin), Session(p, op, times), 1), Session(p, op, times)[1].command)
  {
    hide Step, Eligible, Bare, Granted, AttachedConn, NewConn, Monotone;
    var s, calls := Initial(p.origin), Session(p, op, times);
    StateNext(s, calls, 0);
    StateNext(s, calls, 1);
    StateNext(s, calls, 2);
    assert StateAt(s, calls, 0) == s;
    PairingUp(p, times[0]);
    Attaching(p, times[0], times[1]);
    TokenIsNew(p);
    if times[1] - times[0] <= PAIRING {
      Authorizing(p, times[0], times[1], times[2], Issued(p) + {p.token});
    } else {
      Unattached(p, times[0], times[2]);
    }
  }

  lemma TokenIsNew(p: Party)
    requires Eligible(p)
    ensures p.token !in Issued(p) && p.token != ""
  {
  }

  lemma SessionIsValid(p: Party, op: Operation, times: seq<int>)
    requires Eligible(p) && |times| == 5 && Monotone(times)
    ensures ValidRun(Initial(p.origin), Session(p, op, times))
  {
    hide Step, DeviceOk, Bare, Granted;
    var s, calls := Initial(p.origin), Session(p, op, times);
    assert StateAt(s, calls, 0) == s;
    Opening(p, op, times);
    forall k | 0 <= k < 5 ensures Fresh(StateAt(s, calls, k), calls[k].command) {
      if k == 0 { assert Fresh(s, calls[0].command); }
    }
  }

  lemma InOrder(times: seq<int>)
    requires |times| == 5 && Monotone(times)
    ensures times[0] <= times[1] <= times[2] <= times[3] <= times[4]
  {
  }

  lemma EnqueuedFields(p: Party, op: Operation, created: int, attached: int, authorized: int)
    requires Eligible(p) && Sendable(p.grant, op)
    ensures var g := Granted(p, created, attached, authorized);
            && g.grant.Some? && op.arguments.Valid?
            && var c := Enqueued(g, op);
               && c.token == p.token != "" && c.sequence == 0 && !c.revoked && c.browserAt == authorized
               && c.queue == Some(op) && c.grant.Some?
  {
  }

  lemma BareIsUnqueued(s: State, id: string)
    requires Bare(s, id)
    ensures id in s.conns && s.conns[id].queue.None?
  {
  }

  /** A pairing carried through delivers the operation it was made for, exactly if every call comes in time. */
  lemma SessionDelivers(p: Party, op: Operation, times: seq<int>)
    requires Eligible(p) && Sendable(p.grant, op) && |times| == 5 && Monotone(times)
    ensures ValidRun(Initial(p.origin), Session(p, op, times))
    ensures DeliversAt(Initial(p.origin), Session(p, op, times), 4, p.pair.id, op) <==> InTime(times)
  {
    hide Step, Eligible, Sendable, Bare, Granted, Monotone, Enqueued, StateAt;
    var s, calls, id := Initial(p.origin), Session(p, op, times), p.pair.id;
    SessionIsValid(p, op, times);
    InOrder(times);
    Opening(p, op, times);
    StateNext(s, calls, 3);
    var issued, body := Issued(p) + {p.token}, Body.Exchange(None);
    if times[1] - times[0] <= PAIRING && times[2] - times[1] <= LEASE {
      var c := Granted(p, times[0], times[1], times[2]);
      Submitting(p, op, c, times[1], times[2], times[3], issued);
      if times[3] - times[1] <= LEASE {
        EnqueuedFields(p, op, times[0], times[1], times[2]);
        ExchangeDelivers(p, op, Enqueued(c, op), times[2], times[4], issued);
      } else {
        NothingQueued(StateAt(s, calls, 4), times[4], id, 1, Mac(p.token, p.origin, id, 1, body), op);
      }
    } else {
      BareStays(StateAt(s, calls, 3), times[3], p.owner, id, p.pair.secret, op);
      BareIsUnqueued(StateAt(s, calls, 4), id);
      NothingQueued(StateAt(s, calls, 4), times[4], id, 1, Mac(p.token, p.origin, id, 1, body), op);
    }
  }
}
