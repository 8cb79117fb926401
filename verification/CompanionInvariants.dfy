/** What every call keeps: the bookkeeping of each connection and the exclusiveness of grants. A call changes one
    connection in one of six ways, and each way keeps the bookkeeping and moves records only forwards. */
module CompanionInvariants {
  import opened Basics
  import opened CompanionProtocol
  import opened CompanionModel

  // ----- The ways a connection changes -----

  datatype Change =
    | Nothing
    | Revocation
    | Attachment(device: Device, token: string)
    | Authorization(grant: Grant)
    | Refreshment
    | Enqueueing(op: Operation, model: bool)
    | Exchanging(sequence: nat, body: Body)

  predicate ChangeOk(c: Conn, change: Change, now: int) {
    match change
    case Nothing => true
    case Revocation => true
    case Attachment(_, token) => !c.revoked && c.code != "" && token != ""
    case Authorization(g) => Authorizable(c, now, c.device.id, g)
    case Refreshment => !c.revoked && !(c.grant.Some? && BrowserExpired(c, now))
    case Enqueueing(op, model) => Submittable(c, now, op, model) && op.id !in c.records && !Full(c)
    case Exchanging(sequence, _) => sequence > c.sequence && c.token != ""
  }

  function Changed(c: Conn, change: Change, now: int): Conn
    requires ChangeOk(c, change, now)
  {
    match change
    case Nothing => c
    case Revocation => RevokedConn(c)
    case Attachment(device, token) => AttachedConn(c, device, token, now)
    case Authorization(g) => c.(grant := Some(g), browserAt := now, viewState := Connected)
    case Refreshment => c.(browserAt := now)
    case Enqueueing(op, _) => Enqueued(c, op)
    case Exchanging(sequence, body) => ExchangeWith(c.(sequence := sequence), now, body).0
  }

  /** What a browser-side call does first: revoke a granted connection whose lease has run out. */
  function OnBrowse(c: Conn, now: int, otherwise: Change): Change {
    if c.grant.Some? && BrowserExpired(c, now) then Revocation else otherwise
  }

  function SubmitChange(c: Conn, now: int, op: Operation, model: bool): Change {
    if Submittable(c, now, op, model) && op.id !in c.records && !Full(c) then Enqueueing(op, model) else Nothing
  }

  predicate Known(s: State, owner: string, id: string, secret: string) {
    id in s.conns && s.conns[id].owner == owner && s.conns[id].secret == secret
  }

  /** How `command` changes the connection `id`. */
  function ChangeOf(s: State, now: int, command: Command, id: string): Change
    requires id in s.conns
  {
    var c := s.conns[id];
    match command
    case CreateCommand(_, _, _) => Nothing
    case AttachCommand(a, token) => if a.id == id && Attach(s, now, a, token).1.Attached? then Attachment(a.device, token) else Nothing
    case AuthorizeCommand(owner, cid, secret, device, g) =>
      if cid != id || !Known(s, owner, cid, secret) then Nothing
      else OnBrowse(c, now, if Authorize(s, now, owner, cid, secret, device, g).1.Done? then Authorization(g) else Nothing)
    case RevokeCommand(owner, cid, secret) => if cid == id && Known(s, owner, cid, secret) then Revocation else Nothing
    case RevokeChannelCommand(cid) => if cid == id then Revocation else Nothing
    case ViewCommand(owner, cid, secret) =>
      if cid == id && Known(s, owner, cid, secret) then OnBrowse(c, now, if c.revoked then Nothing else Refreshment) else Nothing
    case SubmitCommand(owner, cid, secret, op) =>
      if cid == id && Known(s, owner, cid, secret) then OnBrowse(c, now, SubmitChange(c, now, op, false)) else Nothing
    case ModelSubmitCommand(cid, owner, device, conversation, destination, op) =>
      if cid == id && c.grant.Some? && c.owner == owner && c.browserDevice == device
         && c.grant.value.conversation == conversation && c.grant.value.destination == destination
      then SubmitChange(c, now, op, true) else Nothing
    case ReceiptCommand(owner, cid, secret, _) => if cid == id && Known(s, owner, cid, secret) then OnBrowse(c, now, Nothing) else Nothing
    case ExchangeCommand(cid, sequence, mac, body) =>
      if cid == id && Authentic(s, id, sequence, mac, body) then Exchanging(sequence, body) else Nothing
  }

  lemma RevokedTwice(c: Conn)
    ensures RevokedConn(RevokedConn(c)) == RevokedConn(c)
  {
    assert RevokedRecords(RevokedRecords(c.records)) == RevokedRecords(c.records);
  }

  /** The call leaves `id` out, or changes it as `ChangeOf` says. */
  predicate StepsTo(s: State, now: int, command: Command, id: string)
    requires id in s.conns
  {
    var t := Step(s, now, command).0;
    id in t.conns ==> ChangeOk(s.conns[id], ChangeOf(s, now, command, id), now)
                      && t.conns[id] == Changed(s.conns[id], ChangeOf(s, now, command, id), now)
  }

  lemma PairingSteps(s: State, now: int, command: Command, id: string)
    requires Fresh(s, command) && id in s.conns && id in s.issued && (command.CreateCommand? || command.AttachCommand?)
    ensures StepsTo(s, now, command, id)
  {
    hide RevokedConn, Collected;
    if command.CreateCommand? { CollectedKeeps(s, now, id); }
  }

  lemma CollectedKeeps(s: State, now: int, id: string)
    requires id in s.conns
    ensures id in Collected(s, now) ==> Collected(s, now)[id] == s.conns[id]
  {
  }

  lemma AuthoritySteps(s: State, now: int, command: Command, id: string)
    requires id in s.conns && (command.AuthorizeCommand? || command.RevokeCommand? || command.RevokeChannelCommand?)
    ensures StepsTo(s, now, command, id)
  {
    RevokedTwice(s.conns[id]);
    hide RevokedRecords, Holds;
  }

  lemma ReadingSteps(s: State, now: int, command: Command, id: string)
    requires id in s.conns && (command.ViewCommand? || command.ReceiptCommand?)
    ensures StepsTo(s, now, command, id)
  {
    hide RevokedRecords, ViewOf;
  }

  lemma OperationSteps(s: State, now: int, command: Command, id: string)
    requires id in s.conns && (command.SubmitCommand? || command.ModelSubmitCommand? || command.ExchangeCommand?)
    ensures StepsTo(s, now, command, id)
  {
    hide RevokedRecords, Allowed, Full, ExchangeWith, Enqueued;
  }

  /** Every call is one such change of each connection it leaves in place; only `Create` adds or drops any. */
  lemma StepChanges(s: State, now: int, command: Command, id: string)
    requires Fresh(s, command) && id in s.conns && id in s.issued
    ensures StepsTo(s, now, command, id)
  {
    hide *;
    match command
    case CreateCommand(_, _, _) => PairingSteps(s, now, command, id);
    case AttachCommand(_, _) => PairingSteps(s, now, command, id);
    case AuthorizeCommand(_, _, _, _, _) => AuthoritySteps(s, now, command, id);
    case RevokeCommand(_, _, _) => AuthoritySteps(s, now, command, id);
    case RevokeChannelCommand(_) => AuthoritySteps(s, now, command, id);
    case ViewCommand(_, _, _) => ReadingSteps(s, now, command, id);
    case ReceiptCommand(_, _, _, _) => ReadingSteps(s, now, command, id);
    case _ => OperationSteps(s, now, command, id);
  }

  lemma StepKeepsKeys(s: State, now: int, command: Command)
    ensures !command.CreateCommand? ==> Step(s, now, command).0.conns.Keys == s.conns.Keys
    ensures s.issued <= Step(s, now, command).0.issued
  {
    hide RevokedConn, SubmitTo, ExchangeWith, ViewOf, Collected, Holds, Authorizable;
  }

  lemma StepCreates(s: State, now: int, command: Command, id: string)
    requires Fresh(s, command)
    ensures var t := Step(s, now, command).0;
            id in t.conns && id !in s.conns ==>
              && command.CreateCommand? && id == command.pair.id && id !in s.issued && id in t.issued
              && command.pair.code != "" && t.conns[id] == NewConn(command.owner, command.browserDevice, command.pair, now)
    ensures Step(s, now, command).0.origin == s.origin
  {
  }

  // ----- The bookkeeping of one connection -----

  function SumValues(order: seq<string>, records: map<string, Record>): nat {
    if |order| == 0 then 0
    else SumValues(order[..|order| - 1], records)
         + (if order[|order| - 1] in records then |records[order[|order| - 1]].receipt.value| else 0)
  }

  predicate KnownState(r: ReceiptState) { !r.Other? }

  /** The records are exactly the operations in `order`, once each, and at most as many as allowed. */
  ghost predicate Ordered(c: Conn) {
    NoRepeats(c.order) && (forall id :: id in c.records <==> id in c.order) && |c.order| <= MAX_RECORDS
  }

  /** A record is filed under its own operation, bound to the attached device and the granted conversation. */
  ghost predicate RecordBound(c: Conn, id: string)
    requires id in c.records
  {
    var r := c.records[id];
    && r.receipt.id == id && r.digest.id == id && r.receipt.run == r.digest.run && KnownState(r.receipt.state)
    && c.grant.Some? && r.receipt.device == c.device.id && r.receipt.conversation == c.grant.value.conversation
    && (c.revoked ==> r.receipt.value == "" && !r.receipt.state.Queued? && !r.receipt.state.Dispatched?)
    && (r.receipt.value != "" ==> r.receipt.state.Completed?)
  }

  ghost predicate Bounded(c: Conn) { forall id :: id in c.records ==> RecordBound(c, id) }

  /** A record is queued exactly if its operation is the one in the queue, and that operation is permitted. */
  ghost predicate QueueOk(c: Conn) {
    && (c.queue.Some? ==>
          && !c.revoked && c.queue.value.id in c.records && c.queue.value.arguments.Valid?
          && c.records[c.queue.value.id].digest == DigestOf(c.queue.value)
          && c.grant.Some? && Allowed(c.grant.value, c.queue.value.tool, false))
    && forall id :: id in c.records ==> (c.records[id].receipt.state.Queued? <==> c.queue.Some? && c.queue.value.id == id)
  }

  ghost predicate BytesOk(c: Conn) {
    c.bytes <= MAX_BYTES && (!c.revoked ==> c.bytes == SumValues(c.order, c.records))
  }

  ghost predicate PairingOk(c: Conn) {
    (c.code != "" ==> c.token == "") && (c.grant.Some? ==> c.token != "")
  }

  ghost predicate ConnOk(c: Conn) { Ordered(c) && Bounded(c) && QueueOk(c) && BytesOk(c) && PairingOk(c) }

  // ----- Sums -----

  lemma {:induction false} SumSame(order: seq<string>, m: map<string, Record>, n: map<string, Record>)
    requires forall id :: id in order ==> (id in m <==> id in n) && (id in m ==> |m[id].receipt.value| == |n[id].receipt.value|)
    ensures SumValues(order, m) == SumValues(order, n)
  {
    if |order| > 0 {
      assert order[|order| - 1] in order;
      SumSame(order[..|order| - 1], m, n);
    }
  }

  /** Storing a value adds its length to the sum. */
  lemma {:induction false} SumUpdated(order: seq<string>, m: map<string, Record>, id: string, r: Record)
    requires NoRepeats(order) && id in order && id in m && m[id].receipt.value == ""
    ensures SumValues(order, m[id := r]) == SumValues(order, m) + |r.receipt.value|
  {
    var k := |order| - 1;
    var rest := order[..k];
    if order[k] == id {
      assert id !in rest;
      SumSame(rest, m, m[id := r]);
    } else {
      assert id in rest by { var i :| 0 <= i < |order| && order[i] == id; assert rest[i] == id; }
      SumUpdated(rest, m, id, r);
    }
  }

  // ----- Every change keeps the bookkeeping -----

  lemma NewConnOk(owner: string, browserDevice: string, p: Pair, now: int)
    ensures ConnOk(NewConn(owner, browserDevice, p, now))
  {
  }

  lemma RevokedOk(c: Conn)
    requires ConnOk(c)
    ensures ConnOk(RevokedConn(c))
  {
    hide SumValues;
    var d := RevokedConn(c);
    forall id | id in d.records ensures RecordBound(d, id) { assert RecordBound(c, id); }
  }

  lemma RecordHasGrant(c: Conn, id: string)
    requires Bounded(c) && id in c.records
    ensures c.grant.Some?
  {
    assert RecordBound(c, id);
  }

  lemma PlainChangeOk(c: Conn, change: Change, now: int)
    requires ConnOk(c) && ChangeOk(c, change, now) && (change.Attachment? || change.Authorization? || change.Refreshment?)
    ensures ConnOk(Changed(c, change, now))
  {
    hide SumValues;
    var d := Changed(c, change, now);
    if change.Authorization? || change.Attachment? {
      forall id | id in c.records ensures c.grant.Some? { RecordHasGrant(c, id); }
      assert c.records.Keys == {};
    } else {
      forall id | id in d.records ensures RecordBound(d, id) { assert RecordBound(c, id); }
    }
  }

  lemma EnqueuedOk(c: Conn, now: int, op: Operation, model: bool)
    requires ConnOk(c) && Submittable(c, now, op, model) && op.id !in c.records && !Full(c)
    ensures ConnOk(Enqueued(c, op))
  {
    hide SumValues, Allowed, BytesOk, NoRepeats, RecordBound, Submittable;
    assert op.id !in c.order && op.arguments.Valid? && c.grant.Some? && !c.revoked by { SubmittableMeans(c, now, op, model); }
    OrderHasRecords(c);
    NoRepeatsNext(c.order, op.id);
    forall id | id in Enqueued(c, op).records ensures RecordBound(Enqueued(c, op), id) { EnqueuedBound(c, op, id); }
    SubmittableMeans(c, now, op, model);
    EnqueuedBytes(c, op);
  }

  lemma NoRepeatsNext(s: seq<string>, x: string)
    requires NoRepeats(s) && x !in s
    ensures NoRepeats(s + [x])
  {
  }

  lemma SubmittableMeans(c: Conn, now: int, op: Operation, model: bool)
    requires Submittable(c, now, op, model)
    ensures !c.revoked && c.grant.Some? && op.arguments.Valid? && Allowed(c.grant.value, op.tool, false)
  {
    ModelIsNarrower(c.grant.value, op.tool);
    hide Allowed;
  }

  lemma EnqueuedBound(c: Conn, op: Operation, id: string)
    requires Bounded(c) && c.grant.Some? && op.arguments.Valid? && id in Enqueued(c, op).records && !c.revoked
    ensures RecordBound(Enqueued(c, op), id)
  {
    if id != op.id { assert RecordBound(c, id); }
  }

  lemma EnqueuedBytes(c: Conn, op: Operation)
    requires BytesOk(c) && c.grant.Some? && op.arguments.Valid? && op.id !in c.order && !c.revoked
    ensures BytesOk(Enqueued(c, op))
  {
    var d := Enqueued(c, op);
    assert d.order[..|c.order|] == c.order;
    SumSame(c.order, c.records, d.records);
  }

  /** There are as many records as entries in `order`. */
  lemma OrderHasRecords(c: Conn)
    requires Ordered(c)
    ensures |c.records| == |c.order|
  {
    SetOfDistinct(c.order);
    assert c.records.Keys == set x | x in c.order;
  }

  lemma {:induction false} SetOfDistinct(s: seq<string>)
    requires NoRepeats(s)
    ensures |set x | x in s| == |s|
  {
    if |s| > 0 {
      var t := s[..|s| - 1];
      SetOfDistinct(t);
      assert s == t + [s[|s| - 1]];
      assert (set x | x in s) == (set x | x in t) + {s[|s| - 1]};
    }
  }

  lemma StoredOk(c: Conn, r: Receipt)
    requires ConnOk(c) && ReceiptOk(c, r) && !c.revoked
    ensures ConnOk(StoredReceipt(c, r)) && !StoredReceipt(c, r).revoked
  {
    hide SumValues, BytesOk, NoRepeats, RecordBound, Allowed;
    forall id | id in StoredReceipt(c, r).records ensures RecordBound(StoredReceipt(c, r), id) { StoredBound(c, r, id); }
    StoredBytes(c, r);
  }

  lemma StoredBound(c: Conn, r: Receipt, id: string)
    requires Bounded(c) && ReceiptOk(c, r) && !c.revoked && id in StoredReceipt(c, r).records
    ensures RecordBound(StoredReceipt(c, r), id)
  {
    assert RecordBound(c, r.id);
    assert RecordBound(c, id);
  }

  lemma StoredBytes(c: Conn, r: Receipt)
    requires BytesOk(c) && Ordered(c) && Bounded(c) && ReceiptOk(c, r) && !c.revoked
    ensures BytesOk(StoredReceipt(c, r))
  {
    assert RecordBound(c, r.id);
    var d := StoredReceipt(c, r);
    if c.records[r.id].receipt.state != Completed {
      assert r.id in c.order;
      SumUpdated(c.order, c.records, r.id, d.records[r.id]);
    }
  }

  lemma HandedOk(c: Conn)
    requires ConnOk(c) && !c.revoked
    ensures ConnOk(Handed(c))
    ensures c.queue.Some? ==> c.queue.value.id in c.records && Handed(c).queue.None?
  {
    hide SumValues, NoRepeats, RecordBound, Allowed, BytesOk;
    forall id | id in Handed(c).records ensures RecordBound(Handed(c), id) { HandedBound(c, id); }
    HandedBytes(c);
  }

  lemma HandedBound(c: Conn, id: string)
    requires Bounded(c) && QueueOk(c) && !c.revoked && id in Handed(c).records
    ensures RecordBound(Handed(c), id)
  {
    assert RecordBound(c, id);
    if c.queue.Some? && c.queue.value.id in c.records { assert RecordBound(c, c.queue.value.id); }
  }

  lemma HandedBytes(c: Conn)
    requires BytesOk(c)
    ensures BytesOk(Handed(c))
  {
    SumSame(c.order, c.records, Handed(c).records);
  }

  lemma TimedOk(c: Conn, sequence: nat, now: int)
    requires ConnOk(c)
    ensures ConnOk(c.(sequence := sequence)) && ConnOk(c.(nativeAt := now))
  {
    hide SumValues;
    forall id | id in c.records ensures RecordBound(c.(sequence := sequence), id) && RecordBound(c.(nativeAt := now), id) { assert RecordBound(c, id); }
  }

  lemma ExchangedOk(c: Conn, sequence: nat, now: int, body: Body)
    requires ConnOk(c)
    ensures ConnOk(ExchangeWith(c.(sequence := sequence), now, body).0)
  {
    hide ConnOk, RevokedConn, StoredReceipt, Handed, ReceiptOk;
    TimedOk(c, sequence, now);
    var d := c.(sequence := sequence);
    if d.revoked || BrowserExpired(d, now) {
      RevokedOk(d);
    } else if body.Exchange? && (body.receipt.Some? ==> ReceiptOk(d, body.receipt.value)) {
      if body.receipt.Some? { StoredOk(d, body.receipt.value); }
      var e := if body.receipt.Some? then StoredReceipt(d, body.receipt.value) else d;
      TimedOk(e, 0, now);
      HandedOk(e.(nativeAt := now));
    }
  }

  lemma ChangeKeepsOk(c: Conn, change: Change, now: int)
    requires ConnOk(c) && ChangeOk(c, change, now)
    ensures ConnOk(Changed(c, change, now))
  {
    match change
    case Nothing =>
    case Revocation => RevokedOk(c);
    case Enqueueing(op, model) => EnqueuedOk(c, now, op, model);
    case Exchanging(sequence, body) => ExchangedOk(c, sequence, now, body);
    case _ => PlainChangeOk(c, change, now);
  }

  // ----- The state of the broker -----

  /** Two unrevoked connections holding grants for one browser device and conversation. */
  predicate Clash(c: Conn, d: Conn) {
    c.grant.Some? && Holds(d, c.browserDevice, c.grant.value.conversation) && !c.revoked
  }

  ghost predicate Exclusive(s: State) {
    forall i, j :: i in s.conns && j in s.conns && i != j ==> !Clash(s.conns[i], s.conns[j])
  }

  ghost predicate ConnsOk(s: State) {
    forall id :: id in s.conns ==> id in s.issued && ConnOk(s.conns[id])
  }

  ghost predicate StateOk(s: State) { ConnsOk(s) && Exclusive(s) }

  /** Only an authorization makes a connection hold anything. */
  lemma HoldingComesFromGrant(c: Conn, change: Change, now: int, browserDevice: string, conversation: string)
    requires ChangeOk(c, change, now) && Holds(Changed(c, change, now), browserDevice, conversation)
    ensures c.browserDevice == browserDevice
    ensures if change.Authorization? then change.grant.conversation == conversation else Holds(c, browserDevice, conversation)
  {
    hide RevokedRecords, Allowed, Full;
  }

  lemma AuthorizationIsAlone(s: State, now: int, command: Command, i: string, j: string)
    requires i in s.conns && j in s.conns && i != j && ChangeOf(s, now, command, i).Authorization?
    ensures !Holds(s.conns[j], s.conns[i].browserDevice, ChangeOf(s, now, command, i).grant.conversation)
    ensures Step(s, now, command).0.conns.Keys == s.conns.Keys && Step(s, now, command).0.conns[j] == s.conns[j]
  {
    hide RevokedRecords, Authorizable;
    var t := With(s, i, s.conns[i]);
    assert j in t.conns && t.conns[j] == s.conns[j];
  }

  /** Exclusiveness, seen from a browser device and a conversation. */
  lemma AtMostOneHolds(s: State, i: string, j: string, browserDevice: string, conversation: string)
    requires Exclusive(s) && i in s.conns && j in s.conns && i != j
    ensures !(Holds(s.conns[i], browserDevice, conversation) && Holds(s.conns[j], browserDevice, conversation))
  {
    assert !Clash(s.conns[i], s.conns[j]);
  }

  lemma StepKeepsApart(s: State, now: int, command: Command, i: string, j: string)
    requires StateOk(s) && Fresh(s, command) && i != j
    requires i in Step(s, now, command).0.conns && j in Step(s, now, command).0.conns
    ensures !Clash(Step(s, now, command).0.conns[i], Step(s, now, command).0.conns[j])
  {
    var t := Step(s, now, command).0;
    hide Step, ChangeOf, Changed, ChangeOk, ConnOk, Fresh;
    if i !in s.conns {
      StepCreates(s, now, command, i);
    } else if j !in s.conns {
      StepCreates(s, now, command, j);
    } else if Clash(t.conns[i], t.conns[j]) {
      StepChanges(s, now, command, i);
      StepChanges(s, now, command, j);
      var a, b := ChangeOf(s, now, command, i), ChangeOf(s, now, command, j);
      var device, conversation := t.conns[i].browserDevice, t.conns[i].grant.value.conversation;
      AtMostOneHolds(s, i, j, device, conversation);
      HoldingComesFromGrant(s.conns[i], a, now, device, conversation);
      HoldingComesFromGrant(s.conns[j], b, now, device, conversation);
      if a.Authorization? {
        AuthorizationIsAlone(s, now, command, i, j);
      } else if b.Authorization? {
        AuthorizationIsAlone(s, now, command, j, i);
      }
    }
  }

  /** The representation invariant: every call keeps it. */
  lemma StepKeepsOk(s: State, now: int, command: Command)
    requires StateOk(s) && Fresh(s, command)
    ensures StateOk(Step(s, now, command).0)
  {
    var t := Step(s, now, command).0;
    hide Step, ChangeOf, Changed, ChangeOk, ConnOk, Clash, Fresh;
    StepKeepsKeys(s, now, command);
    forall id | id in t.conns ensures id in t.issued && ConnOk(t.conns[id]) {
      if id in s.conns {
        StepChanges(s, now, command, id);
        ChangeKeepsOk(s.conns[id], ChangeOf(s, now, command, id), now);
      } else {
        StepCreates(s, now, command, id);
        NewConnOk(command.owner, command.browserDevice, command.pair, now);
      }
    }
    forall i, j | i in t.conns && j in t.conns && i != j ensures !Clash(t.conns[i], t.conns[j]) {
      StepKeepsApart(s, now, command, i, j);
    }
  }

  /** The model's connection is unique, so the answer does not depend on the order in which they are looked at. */
  lemma ServerIsUnique(s: State, now: int, i: string, j: string, owner: string, device: string, conversation: string, destination: string)
    requires StateOk(s) && i in s.conns && j in s.conns
    requires Serves(s.conns[i], now, owner, device, conversation, destination)
    requires Serves(s.conns[j], now, owner, device, conversation, destination)
    ensures i == j
  {
    hide ConnOk;
    if i != j { AtMostOneHolds(s, i, j, device, conversation); }
  }
}
