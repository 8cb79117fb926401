/** The broker as a state and one function per exported method. Every method runs under one mutex, so a call is
    one atomic step; the clock reading and the fresh secrets are inputs of the step. */
module CompanionModel {
  import opened Basics
  import opened CompanionProtocol

  const MAX_CONNECTIONS := 16
  const MAX_RECORDS := 1024
  const MAX_BYTES := 8388608

  datatype Record = Record(receipt: Receipt, digest: Digest)

  datatype Conn = Conn(
    owner: string, browserDevice: string, secret: string, code: string, token: string,
    device: Device, grant: Option<Grant>, viewState: ViewState,
    created: int, browserAt: int, nativeAt: int,
    sequence: nat, revoked: bool, queue: Option<Operation>,
    records: map<string, Record>, order: seq<string>, bytes: nat)

  /** `issued` holds every secret handed out so far; it is not part of the program's state. */
  datatype State = State(origin: string, conns: map<string, Conn>, issued: set<string>)

  datatype Reply =
    | Denied | Conflict | Limit | Done
    | Paired(pair: Pair) | Attached(token: string) | Viewed(view: View)
    | Receipted(receipt: Receipt) | Delivered(delivery: Delivery)

  const NO_DEVICE := Device("", "", "", "", "")

  function NewConn(owner: string, browserDevice: string, p: Pair, now: int): Conn {
    Conn(owner, browserDevice, p.secret, p.code, "", NO_DEVICE, None, Pairing, now, now, 0, 0, false, None, map[], [], 0)
  }

  // ----- Connections -----

  function RevokedRecord(r: Record): Record {
    var state := match r.receipt.state case Queued => NotExecuted case Dispatched => Unknown case s => s;
    r.(receipt := r.receipt.(value := "", state := state))
  }

  function RevokedRecords(m: map<string, Record>): map<string, Record> {
    map id | id in m :: RevokedRecord(m[id])
  }

  function RevokedConn(c: Conn): Conn {
    c.(revoked := true, queue := None, viewState := Revoked, records := RevokedRecords(c.records))
  }

  predicate BrowserExpired(c: Conn, now: int) { now - c.browserAt > LEASE }

  predicate NativeExpired(c: Conn, now: int) { now - c.nativeAt > LEASE }

  /** The connection the browser side addresses, revoked on the spot if its granted lease has run out. */
  function Browsed(s: State, now: int, owner: string, id: string, secret: string): Option<Conn> {
    if id !in s.conns || s.conns[id].owner != owner || s.conns[id].secret != secret then None
    else if s.conns[id].grant.Some? && BrowserExpired(s.conns[id], now) then Some(RevokedConn(s.conns[id]))
    else Some(s.conns[id])
  }

  function With(s: State, id: string, c: Conn): State { s.(conns := s.conns[id := c]) }

  // ----- Pairing -----

  function Collected(s: State, now: int): map<string, Conn> {
    map id | id in s.conns && now - s.conns[id].browserAt <= PAIRING :: s.conns[id]
  }

  function Create(s: State, now: int, owner: string, browserDevice: string, p: Pair): (State, Reply) {
    var t := s.(conns := Collected(s, now));
    if owner == "" || browserDevice == "" then (t, Denied)
    else if |t.conns| >= MAX_CONNECTIONS then (t, Limit)
    else (State(s.origin, t.conns[p.id := NewConn(owner, browserDevice, p, now)], s.issued + {p.id, p.code, p.secret}), Paired(p))
  }

  predicate DeviceOk(d: Device) {
    && d.id != "" && d.host != "" && d.user != "" && d.workspace != "" && (d.os == "linux" || d.os == "darwin")
    && |d.id| <= 104 && |d.host| <= 256 && |d.user| <= 256 && |d.workspace| <= 4096
  }

  function AttachedConn(c: Conn, device: Device, token: string, now: int): Conn {
    c.(code := "", token := token, nativeAt := now, device := device, viewState := AwaitingAuthorization)
  }

  function Attach(s: State, now: int, a: AttachRequest, token: string): (State, Reply) {
    if a.id !in s.conns then (s, Denied)
    else
      var c := s.conns[a.id];
      if c.revoked || c.code == "" || a.code != c.code || now - c.created > PAIRING || !DeviceOk(a.device) then (s, Denied)
      else (With(s, a.id, AttachedConn(c, a.device, token, now)).(issued := s.issued + {token}), Attached(token))
  }

  // ----- Authority -----

  predicate Authorizable(c: Conn, now: int, device: string, g: Grant) {
    && !c.revoked && c.token != "" && c.device.id == device && c.grant.None?
    && g.space != "" && g.conversation != "" && (g.files || g.shell) && (g.model ==> g.destination != "")
    && !NativeExpired(c, now)
  }

  /** An unrevoked connection already holding a grant for this browser device and conversation. */
  predicate Holds(c: Conn, browserDevice: string, conversation: string) {
    !c.revoked && c.grant.Some? && c.browserDevice == browserDevice && c.grant.value.conversation == conversation
  }

  predicate Taken(s: State, browserDevice: string, conversation: string) {
    exists id :: id in s.conns && Holds(s.conns[id], browserDevice, conversation)
  }

  function Authorize(s: State, now: int, owner: string, id: string, secret: string, device: string, g: Grant): (State, Reply) {
    match Browsed(s, now, owner, id, secret)
    case None => (s, Denied)
    case Some(c) =>
      var t := With(s, id, c);
      if !Authorizable(c, now, device, g) then (t, Denied)
      else if Taken(t, c.browserDevice, g.conversation) then (t, Conflict)
      else (With(t, id, c.(grant := Some(g), browserAt := now, viewState := Connected)), Done)
  }

  function Revoke(s: State, now: int, owner: string, id: string, secret: string): (State, Reply) {
    match Browsed(s, now, owner, id, secret)
    case None => (s, Denied)
    case Some(c) => (With(s, id, RevokedConn(c)), Done)
  }

  function RevokeChannel(s: State, id: string): (State, Reply) {
    (if id in s.conns then With(s, id, RevokedConn(s.conns[id])) else s, Done)
  }

  // ----- Views -----

  function Refreshed(c: Conn, now: int): Conn { if c.revoked then c else c.(browserAt := now) }

  function ShownState(c: Conn, now: int): ViewState {
    if !c.revoked && c.token != "" && now - c.nativeAt > 5 * SECOND then Disconnected else c.viewState
  }

  function Shown(r: Receipt, state: ViewState): Receipt {
    if r.state.Dispatched? && state.Disconnected? then r.(state := Unknown) else r
  }

  function Recent(order: seq<string>): seq<string> { if |order| > 20 then order[|order| - 20..] else order }

  function ShownReceipts(order: seq<string>, records: map<string, Record>, state: ViewState): seq<Receipt> {
    if |order| == 0 then []
    else ShownReceipts(order[..|order| - 1], records, state)
         + (if order[|order| - 1] in records then [Shown(records[order[|order| - 1]].receipt, state)] else [])
  }

  function ViewOf(id: string, c: Conn, now: int): View {
    var state := ShownState(c, now);
    View(id, state, c.device, c.grant, ShownReceipts(Recent(c.order), c.records, state))
  }

  function Look(s: State, now: int, owner: string, id: string, secret: string): (State, Reply) {
    match Browsed(s, now, owner, id, secret)
    case None => (s, Denied)
    case Some(c) => (With(s, id, Refreshed(c, now)), Viewed(ViewOf(id, Refreshed(c, now), now)))
  }

  // ----- Operations -----

  predicate Submittable(c: Conn, now: int, op: Operation, model: bool) {
    && !c.revoked && c.grant.Some? && !BrowserExpired(c, now) && !NativeExpired(c, now) && Allowed(c.grant.value, op.tool, model)
    && 1 <= |op.id| <= 160 && |op.run| <= 160 && |op.arguments.text| <= MAX_PAYLOAD / 2 && op.arguments.Valid?
  }

  predicate Full(c: Conn) { c.queue.Some? || |c.records| >= MAX_RECORDS || c.bytes >= MAX_BYTES }

  function QueuedReceipt(c: Conn, op: Operation): Receipt
    requires c.grant.Some?
  {
    Receipt("", "", op.id, c.device.id, c.grant.value.conversation, op.run, Queued, "", "")
  }

  function Enqueued(c: Conn, op: Operation): Conn
    requires c.grant.Some? && op.arguments.Valid?
  {
    c.(records := c.records[op.id := Record(QueuedReceipt(c, op), DigestOf(op))], order := c.order + [op.id], queue := Some(op))
  }

  function SubmitTo(c: Conn, now: int, op: Operation, model: bool): (Conn, Reply) {
    if !Submittable(c, now, op, model) then (c, Denied)
    else if op.id in c.records then (c, if c.records[op.id].digest != DigestOf(op) then Conflict else Receipted(c.records[op.id].receipt))
    else if Full(c) then (c, Limit)
    else (Enqueued(c, op), Receipted(QueuedReceipt(c, op)))
  }

  function Submit(s: State, now: int, owner: string, id: string, secret: string, op: Operation): (State, Reply) {
    match Browsed(s, now, owner, id, secret)
    case None => (s, Denied)
    case Some(c) => var r := SubmitTo(c, now, op, false); (With(s, id, r.0), r.1)
  }

  function ModelSubmit(s: State, now: int, id: string, owner: string, device: string, conversation: string,
                       destination: string, op: Operation): (State, Reply)
  {
    if id !in s.conns then (s, Denied)
    else
      var c := s.conns[id];
      if c.grant.None? || c.owner != owner || c.browserDevice != device || c.grant.value.conversation != conversation
         || c.grant.value.destination != destination then (s, Denied)
      else var r := SubmitTo(c, now, op, true); (With(s, id, r.0), r.1)
  }

  function ReceiptOf(s: State, now: int, owner: string, id: string, secret: string, operation: string): (State, Reply) {
    match Browsed(s, now, owner, id, secret)
    case None => (s, Denied)
    case Some(c) => (With(s, id, c), if operation in c.records then Receipted(c.records[operation].receipt) else Denied)
  }

  // ----- The native side -----

  predicate Authentic(s: State, id: string, sequence: nat, mac: Mac, body: Body) {
    id in s.conns && s.conns[id].token != "" && sequence > s.conns[id].sequence && mac == Mac(s.conns[id].token, s.origin, id, sequence, body)
  }

  predicate ReceiptOk(c: Conn, r: Receipt) {
    && r.id in c.records && c.records[r.id].receipt.state in {Dispatched, Completed}
    && r.device == c.device.id && c.grant.Some? && r.conversation == c.grant.value.conversation
    && r.run == c.records[r.id].receipt.run && r.state == Completed && |r.value| <= MAX_PAYLOAD / 2
  }

  function StoredReceipt(c: Conn, r: Receipt): Conn
    requires ReceiptOk(c, r)
  {
    var stored := c.records[r.id];
    if stored.receipt.state == Completed then c
    else if c.bytes + |r.value| > MAX_BYTES then
      c.(records := c.records[r.id := stored.(receipt := stored.receipt.(state := Unknown, error := "receipt_storage_limit"))])
    else c.(records := c.records[r.id := stored.(receipt := r)], bytes := c.bytes + |r.value|)
  }

  function Handed(c: Conn): Conn {
    if c.queue.Some? && c.queue.value.id in c.records then
      var id := c.queue.value.id;
      c.(records := c.records[id := c.records[id].(receipt := c.records[id].receipt.(state := Dispatched))], queue := None)
    else c
  }

  function ExchangeWith(c: Conn, now: int, body: Body): (Conn, Reply) {
    if c.revoked || BrowserExpired(c, now) then (RevokedConn(c), Denied)
    else if body.Malformed? then (c, Denied)
    else if body.receipt.Some? && !ReceiptOk(c, body.receipt.value) then (c, Denied)
    else
      var e := (if body.receipt.Some? then StoredReceipt(c, body.receipt.value) else c).(nativeAt := now);
      (Handed(e), Delivered(Delivery(e.grant, e.queue)))
  }

  function ExchangeStep(s: State, now: int, id: string, sequence: nat, mac: Mac, body: Body): (State, Reply) {
    if !Authentic(s, id, sequence, mac, body) then (s, Denied)
    else var r := ExchangeWith(s.conns[id].(sequence := sequence), now, body); (With(s, id, r.0), r.1)
  }

  // ----- Reading -----

  /** The connection the model's tools are for. */
  predicate Serves(c: Conn, now: int, owner: string, device: string, conversation: string, destination: string) {
    && !c.revoked && c.grant.Some? && c.grant.value.model && c.owner == owner && c.browserDevice == device
    && c.grant.value.conversation == conversation && c.grant.value.destination == destination
    && now - c.browserAt < LEASE && now - c.nativeAt < LEASE
  }

  /** Whom a connection is for, unless it is gone or revoked: owner, browser device and grant. */
  function PrincipalOf(s: State, id: string): Option<(string, string, Option<Grant>)> {
    if id in s.conns && !s.conns[id].revoked then Some((s.conns[id].owner, s.conns[id].browserDevice, s.conns[id].grant)) else None
  }

  // ----- Steps -----

  datatype Command =
    | CreateCommand(owner: string, browserDevice: string, pair: Pair)
    | AttachCommand(attach: AttachRequest, token: string)
    | AuthorizeCommand(owner: string, id: string, secret: string, device: string, grant: Grant)
    | RevokeCommand(owner: string, id: string, secret: string)
    | RevokeChannelCommand(id: string)
    | ViewCommand(owner: string, id: string, secret: string)
    | SubmitCommand(owner: string, id: string, secret: string, op: Operation)
    | ModelSubmitCommand(id: string, owner: string, device: string, conversation: string, destination: string, op: Operation)
    | ReceiptCommand(owner: string, id: string, secret: string, operation: string)
    | ExchangeCommand(id: string, sequence: nat, mac: Mac, body: Body)

  function Step(s: State, now: int, command: Command): (State, Reply) {
    match command
    case CreateCommand(owner, browserDevice, pair) => Create(s, now, owner, browserDevice, pair)
    case AttachCommand(attach, token) => Attach(s, now, attach, token)
    case AuthorizeCommand(owner, id, secret, device, grant) => Authorize(s, now, owner, id, secret, device, grant)
    case RevokeCommand(owner, id, secret) => Revoke(s, now, owner, id, secret)
    case RevokeChannelCommand(id) => RevokeChannel(s, id)
    case ViewCommand(owner, id, secret) => Look(s, now, owner, id, secret)
    case SubmitCommand(owner, id, secret, op) => Submit(s, now, owner, id, secret, op)
    case ModelSubmitCommand(id, owner, device, conversation, destination, op) => ModelSubmit(s, now, id, owner, device, conversation, destination, op)
    case ReceiptCommand(owner, id, secret, operation) => ReceiptOf(s, now, owner, id, secret, operation)
    case ExchangeCommand(id, sequence, mac, body) => ExchangeStep(s, now, id, sequence, mac, body)
  }

  /** The secrets a command brings in are new, different and not empty. */
  predicate Fresh(s: State, command: Command) {
    match command
    case CreateCommand(_, _, p) =>
      && p.id !in s.issued && p.code !in s.issued && p.secret !in s.issued && p.id != "" && p.code != "" && p.secret != ""
      && p.id != p.code && p.id != p.secret && p.code != p.secret
    case AttachCommand(_, token) => token !in s.issued && token != ""
    case _ => true
  }
}
