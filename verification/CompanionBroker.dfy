/** The broker in place: connection objects whose fields the methods update, each call tied to its step. */
module CompanionBroker {
  import opened Basics
  import opened CompanionProtocol
  import opened CompanionModel
  import opened CompanionInvariants

  class Connection {
    const owner: string
    const browserDevice: string
    const secret: string
    const created: int
    var code: string
    var token: string
    var device: Device
    var grant: Option<Grant>
    var viewState: ViewState
    var browserAt: int
    var nativeAt: int
    var sequence: nat
    var revoked: bool
    var queue: Option<Operation>
    var records: map<string, Record>
    var order: seq<string>
    var bytes: nat

    ghost function Value(): Conn
      reads this
    {
      Conn(owner, browserDevice, secret, code, token, device, grant, viewState, created, browserAt, nativeAt, sequence,
           revoked, queue, records, order, bytes)
    }

    constructor (owner: string, browserDevice: string, p: Pair, now: int)
      ensures Value() == NewConn(owner, browserDevice, p, now)
    {
      this.owner, this.browserDevice, this.secret, this.created := owner, browserDevice, p.secret, now;
      code, token, device, grant, viewState := p.code, "", NO_DEVICE, None, Pairing;
      browserAt, nativeAt, sequence, revoked := now, 0, 0, false;
      queue, records, order, bytes := None, map[], [], 0;
    }

    /** `Attach` on the addressed connection: the pairing code is spent and the native channel opens. */
    method Accept(now: int, code: string, device: Device, token: string) returns (ok: bool)
      modifies this
      ensures var c := old(Value());
              && ok == (!c.revoked && c.code != "" && code == c.code && now - c.created <= PAIRING && DeviceOk(device))
              && Value() == if ok then AttachedConn(c, device, token, now) else c
    {
      if revoked || this.code == "" || code != this.code || now - created > PAIRING
         || device.id == "" || device.host == "" || device.user == "" || device.workspace == ""
         || (device.os != "linux" && device.os != "darwin")
      {
        return false;
      }
      if |device.id| > 104 || |device.host| > 256 || |device.user| > 256 || |device.workspace| > 4096 { return false; }
      this.code, this.token, nativeAt := "", token, now;
      this.device, viewState := device, AwaitingAuthorization;
      ok := true;
    }

    /** The refusals of `Authorize` that concern the connection alone. */
    method Grantable(now: int, device: string, g: Grant) returns (ok: bool)
      ensures ok == Authorizable(Value(), now, device, g)
    {
      if revoked || token == "" || this.device.id != device || grant.Some? || g.space == "" || g.conversation == ""
         || (!g.files && !g.shell) || (g.model && g.destination == "") || now - nativeAt > LEASE
      {
        return false;
      }
      ok := true;
    }

    method Refresh(now: int)
      modifies this
      ensures Value() == Refreshed(old(Value()), now) && order == old(order) && records == old(records)
    {
      if !revoked { browserAt := now; }
    }

    method Bind(now: int, g: Grant)
      modifies this
      ensures Value() == old(Value()).(grant := Some(g), browserAt := now, viewState := Connected)
    {
      grant, browserAt, viewState := Some(g), now, Connected;
    }

    /** The loop of `revoke`: every record in turn, in any order. */
    method RevokeRecords()
      modifies `records
      ensures records == RevokedRecords(old(records))
    {
      hide RevokedRecords;
      ghost var before := records;
      var ids := records.Keys;
      while ids != {}
        invariant ids <= before.Keys && records.Keys == before.Keys
        invariant forall id :: id in before ==> records[id] == if id in ids then before[id] else RevokedRecord(before[id])
      {
        var id :| id in ids;
        ids := ids - {id};
        var r := records[id].receipt.(value := "");
        if r.state.Queued? { r := r.(state := NotExecuted); }
        if r.state.Dispatched? { r := r.(state := Unknown); }
        records := records[id := records[id].(receipt := r)];
      }
      AllRevoked(before, records);
    }

    /** `revoke`. */
    method Revoke()
      modifies this
      ensures Value() == RevokedConn(old(Value()))
    {
      hide RevokedRecords;
      revoked, queue, viewState := true, None, Revoked;
      RevokeRecords();
    }

    /** `submit`. */
    method Submit(now: int, op: Operation, model: bool) returns (r: Reply)
      modifies this
      ensures (Value(), r) == SubmitTo(old(Value()), now, op, model)
    {
      hide RevokedRecords;
      if revoked || grant.None? || now - browserAt > LEASE || now - nativeAt > LEASE || !Allowed(grant.value, op.tool, model) {
        return Denied;
      }
      if |op.id| < 1 || |op.id| > 160 || |op.run| > 160 || |op.arguments.text| > MAX_PAYLOAD / 2 || op.arguments.Invalid? {
        return Denied;
      }
      var digest := DigestOf(op);
      if op.id in records {
        return if records[op.id].digest != digest then Conflict else Receipted(records[op.id].receipt);
      }
      if queue.Some? || |records| >= MAX_RECORDS || bytes >= MAX_BYTES { return Limit; }
      var receipt := Receipt("", "", op.id, device.id, grant.value.conversation, op.run, Queued, "", "");
      records := records[op.id := Record(receipt, digest)];
      order := order + [op.id];
      queue := Some(op);
      r := Receipted(receipt);
    }

    /** The receipt part of `Exchange`: reject, ignore a repetition, or store. */
    method Settle(uploaded: Receipt) returns (ok: bool)
      modifies this
      ensures ok == ReceiptOk(old(Value()), uploaded)
      ensures Value() == if ok then StoredReceipt(old(Value()), uploaded) else old(Value())
    {
      if uploaded.id !in records { return false; }
      var stored := records[uploaded.id];
      if (stored.receipt.state != Dispatched && stored.receipt.state != Completed) || uploaded.device != device.id || grant.None?
         || uploaded.conversation != grant.value.conversation || uploaded.run != stored.receipt.run
         || uploaded.state != Completed || |uploaded.value| > MAX_PAYLOAD / 2
      {
        return false;
      }
      if stored.receipt.state != Completed {
        if bytes + |uploaded.value| > MAX_BYTES {
          records := records[uploaded.id := stored.(receipt := stored.receipt.(state := Unknown, error := "receipt_storage_limit"))];
        } else {
          records := records[uploaded.id := stored.(receipt := uploaded)];
          bytes := bytes + |uploaded.value|;
        }
      }
      ok := true;
    }

    /** `Exchange` after authentication. */
    method Exchange(now: int, body: Body) returns (r: Reply)
      requires queue.Some? ==> queue.value.id in records
      modifies this
      ensures (Value(), r) == ExchangeWith(old(Value()), now, body)
    {
      hide RevokedRecords, ReceiptOk, StoredReceipt;
      if revoked || now - browserAt > LEASE {
        Revoke();
        return Denied;
      }
      if body.Malformed? { return Denied; }
      ghost var before := Value();
      if body.receipt.Some? {
        var ok := Settle(body.receipt.value);
        if !ok { return Denied; }
        StoredKeepsQueue(before, body.receipt.value);
      }
      nativeAt := now;
      var delivered := None;
      if queue.Some? {
        var op := queue.value;
        delivered := Some(op);
        assert op.id in Value().records;
        records := records[op.id := records[op.id].(receipt := records[op.id].receipt.(state := Dispatched))];
        queue := None;
      }
      r := Delivered(Delivery(grant, delivered));
    }

    /** `View`, after the refresh. */
    method Show(id: string, now: int) returns (v: View)
      requires forall x :: x in order ==> x in records
      ensures v == ViewOf(id, Value(), now)
    {
      hide Shown;
      var state := viewState;
      if !revoked && token != "" && now - nativeAt > 5 * SECOND { state := Disconnected; }
      var receipts := [];
      var recent := Recent(order);
      for k := 0 to |recent|
        invariant receipts == ShownReceipts(recent[..k], records, state)
      {
        assert recent[..k + 1][..k] == recent[..k] && recent[k] in order;
        receipts := receipts + [Shown(records[recent[k]].receipt, state)];
      }
      assert recent[..|recent|] == recent;
      v := View(id, state, device, grant, receipts);
    }
  }

  lemma StoredKeepsQueue(c: Conn, r: Receipt)
    requires ReceiptOk(c, r)
    ensures StoredReceipt(c, r).queue == c.queue && StoredReceipt(c, r).records.Keys == c.records.Keys
    ensures StoredReceipt(c, r).grant == c.grant
  {
  }

  lemma AllRevoked(m: map<string, Record>, n: map<string, Record>)
    requires n.Keys == m.Keys && forall id :: id in m ==> n[id] == RevokedRecord(m[id])
    ensures n == RevokedRecords(m)
  {
    hide RevokedRecord;
  }

  lemma WithItself(s: State, id: string)
    requires id in s.conns
    ensures With(s, id, s.conns[id]) == s
  {
    assert s.conns[id := s.conns[id]] == s.conns;
  }

  lemma WithTwice(s: State, id: string, c: Conn, d: Conn)
    ensures With(With(s, id, c), id, d) == With(s, id, d)
  {
    assert s.conns[id := c][id := d] == s.conns[id := d];
  }

  /** The broker. Its mutex makes every method one step; each takes the clock reading, and the fresh secrets it
      hands out, as arguments. */
  class Broker {
    const origin: string
    var connections: map<string, Connection>
    ghost var issued: set<string>

    /** No object serves under two names. */
    ghost predicate Valid()
      reads this
    {
      forall i, j :: i in connections && j in connections && i != j ==> connections[i] != connections[j]
    }

    ghost function Value(): State
      reads this, connections.Values
    {
      State(origin, map id | id in connections :: connections[id].Value(), issued)
    }

    constructor (origin: string)
      ensures Valid() && Value() == State(origin, map[], {})
    {
      this.origin, connections, issued := origin, map[], {};
    }

    /** A call that touches one connection object changes that connection of the state and nothing else. */
    twostate lemma OneTouched(id: string)
      requires old(Valid()) && id in connections && connections == old(connections)
      requires forall i :: i in connections && i != id ==> unchanged(connections[i])
      ensures Valid() && Value() == With(old(Value()), id, connections[id].Value()).(issued := issued)
    {
      assert Value().conns == old(Value()).conns[id := connections[id].Value()];
    }

    /** A new object under a name adds that connection to the state. */
    twostate lemma OneAdded(id: string, new c: Connection)
      requires old(Valid()) && fresh(c) && connections == old(connections)[id := c]
      requires forall i :: i in old(connections) ==> unchanged(old(connections)[i])
      ensures Valid() && Value() == State(origin, old(Value()).conns[id := c.Value()], issued)
    {
      assert Value().conns == old(Value()).conns[id := c.Value()];
    }

    /** `Create`, first part: drop every connection whose browser has been silent for five minutes. */
    method Collect(now: int)
      requires Valid()
      modifies `connections
      ensures Valid() && issued == old(issued)
      ensures forall id :: id in connections ==> id in old(connections) && connections[id] == old(connections)[id]
      ensures Value() == old(Value()).(conns := Collected(old(Value()), now))
    {
      hide CompanionModel.Collected;
      ghost var before := connections;
      var ids := connections.Keys;
      while ids != {}
        invariant ids <= before.Keys
        invariant forall id :: id in connections ==> id in before && connections[id] == before[id]
        invariant forall id :: id in before ==> (id in connections <==> id in ids || now - before[id].browserAt <= PAIRING)
      {
        var id :| id in ids;
        ids := ids - {id};
        if now - connections[id].browserAt > PAIRING { connections := connections - {id}; }
      }
      OnlyDropped(now);
    }

    twostate lemma OnlyDropped(now: int)
      requires old(Valid()) && issued == old(issued)
      requires forall id :: id in connections ==> id in old(connections) && connections[id] == old(connections)[id]
      requires forall id :: id in old(connections) ==> unchanged(old(connections)[id])
      requires forall id :: id in old(connections) ==> (id in connections <==> now - old(connections)[id].browserAt <= PAIRING)
      ensures Valid() && Value() == old(Value()).(conns := Collected(old(Value()), now))
    {
      assert Value().conns.Keys == Collected(old(Value()), now).Keys;
      assert Value().conns == Collected(old(Value()), now);
    }

    method Create(now: int, owner: string, browserDevice: string, p: Pair) returns (r: Reply)
      requires Valid()
      modifies this
      ensures Valid() && (Value(), r) == CompanionModel.Create(old(Value()), now, owner, browserDevice, p)
    {
      Collect(now);
      if owner == "" || browserDevice == "" { return Denied; }
      assert Value().conns.Keys == connections.Keys;
      if |connections| >= MAX_CONNECTIONS { return Limit; }
      label Collected:
      var c := new Connection(owner, browserDevice, p, now);
      connections := connections[p.id := c];
      issued := issued + {p.id, p.code, p.secret};
      OneAdded@Collected(p.id, c);
      r := Paired(p);
    }

    method Attach(now: int, a: AttachRequest, token: string) returns (r: Reply)
      requires Valid()
      modifies this, connections.Values
      ensures Valid() && connections == old(connections) && (Value(), r) == CompanionModel.Attach(old(Value()), now, a, token)
    {
      hide DeviceOk, AttachedConn;
      if a.id !in connections { return Denied; }
      var c := connections[a.id];
      var ok := c.Accept(now, a.code, a.device, token);
      if ok { issued := issued + {token}; }
      OneTouched(a.id);
      WithItself(old(Value()), a.id);
      r := if ok then Attached(token) else Denied;
    }

    /** `browser`: the addressed connection, revoked on the spot if its granted lease has run out. */
    method Browse(now: int, owner: string, id: string, secret: string) returns (c: Connection?)
      requires Valid()
      modifies connections.Values
      ensures Valid() && (c == null <==> Browsed(old(Value()), now, owner, id, secret) == None)
      ensures c == null ==> Value() == old(Value())
      ensures c != null ==> id in connections && c == connections[id]
      ensures c != null ==> Some(c.Value()) == Browsed(old(Value()), now, owner, id, secret) && Value() == With(old(Value()), id, c.Value())
      ensures forall i :: i in connections && i != id ==> unchanged(connections[i])
    {
      if id !in connections || connections[id].owner != owner || connections[id].secret != secret { return null; }
      c := connections[id];
      if c.grant.Some? && now - c.browserAt > LEASE { c.Revoke(); }
      OneTouched(id);
    }

    method Revoke(now: int, owner: string, id: string, secret: string) returns (r: Reply)
      requires Valid()
      modifies connections.Values
      ensures Valid() && (Value(), r) == CompanionModel.Revoke(old(Value()), now, owner, id, secret)
    {
      hide RevokedConn;
      var c := Browse(now, owner, id, secret);
      if c == null { return Denied; }
      ghost var browsed := c.Value();
      c.Revoke();
      OneTouched(id);
      r := Done;
    }

    method RevokeChannel(id: string)
      requires Valid()
      modifies connections.Values
      ensures Valid() && Value() == CompanionModel.RevokeChannel(old(Value()), id).0
    {
      hide RevokedConn;
      if id in connections {
        connections[id].Revoke();
        OneTouched(id);
      }
    }

    method Authorize(now: int, owner: string, id: string, secret: string, device: string, g: Grant) returns (r: Reply)
      requires Valid()
      modifies connections.Values
      ensures Valid() && (Value(), r) == CompanionModel.Authorize(old(Value()), now, owner, id, secret, device, g)
    {
      hide RevokedConn, CompanionModel.Taken, Authorizable, Browsed;
      var c := Browse(now, owner, id, secret);
      if c == null { return Denied; }
      ghost var t := Value();
      var grantable := c.Grantable(now, device, g);
      if !grantable { return Denied; }
      var taken := Taken(c.browserDevice, g.conversation);
      if taken { return Conflict; }
      c.Bind(now, g);
      OneTouched(id);
      WithTwice(old(Value()), id, t.conns[id], c.Value());
      r := Done;
    }

    /** The conflict loop of `Authorize`, over the connections in any order. */
    method Taken(browserDevice: string, conversation: string) returns (taken: bool)
      requires Valid()
      ensures taken == CompanionModel.Taken(Value(), browserDevice, conversation)
    {
      var ids := connections.Keys;
      ghost var t := Value();
      while ids != {}
        invariant ids <= connections.Keys
        invariant forall id :: id in connections && id !in ids ==> !Holds(t.conns[id], browserDevice, conversation)
      {
        var id :| id in ids;
        ids := ids - {id};
        var other := connections[id];
        assert t.conns[id] == other.Value();
        if !other.revoked && other.grant.Some? && other.browserDevice == browserDevice && other.grant.value.conversation == conversation {
          return true;
        }
      }
      taken := false;
    }

    method View(now: int, owner: string, id: string, secret: string) returns (r: Reply)
      requires Valid() && ConnsOk(Value())
      modifies connections.Values
      ensures Valid() && (Value(), r) == CompanionModel.Look(old(Value()), now, owner, id, secret)
    {
      hide RevokedConn, Refreshed, ViewOf, ConnsOk, Browsed;
      var c := Browse(now, owner, id, secret);
      if c == null { return Denied; }
      BrowsedOrdered(old(Value()), now, owner, id, secret);
      ghost var t := Value();
      c.Refresh(now);
      OneTouched(id);
      WithTwice(old(Value()), id, t.conns[id], c.Value());
      var v := c.Show(id, now);
      r := Viewed(v);
    }

    method Submit(now: int, owner: string, id: string, secret: string, op: Operation) returns (r: Reply)
      requires Valid()
      modifies connections.Values
      ensures Valid() && (Value(), r) == CompanionModel.Submit(old(Value()), now, owner, id, secret, op)
    {
      hide RevokedConn, SubmitTo;
      var c := Browse(now, owner, id, secret);
      if c == null { return Denied; }
      r := c.Submit(now, op, false);
      OneTouched(id);
    }

    method ModelSubmit(now: int, id: string, owner: string, device: string, conversation: string, destination: string, op: Operation)
        returns (r: Reply)
      requires Valid()
      modifies connections.Values
      ensures Valid() && (Value(), r) == CompanionModel.ModelSubmit(old(Value()), now, id, owner, device, conversation, destination, op)
    {
      hide SubmitTo;
      if id !in connections { return Denied; }
      var c := connections[id];
      if c.grant.None? || c.owner != owner || c.browserDevice != device || c.grant.value.conversation != conversation
         || c.grant.value.destination != destination
      {
        return Denied;
      }
      r := c.Submit(now, op, true);
      OneTouched(id);
    }

    method Receipt(now: int, owner: string, id: string, secret: string, operation: string) returns (r: Reply)
      requires Valid()
      modifies connections.Values
      ensures Valid() && (Value(), r) == CompanionModel.ReceiptOf(old(Value()), now, owner, id, secret, operation)
    {
      hide RevokedConn;
      var c := Browse(now, owner, id, secret);
      if c == null { return Denied; }
      r := if operation in c.records then Receipted(c.records[operation].receipt) else Denied;
    }

    method Exchange(now: int, id: string, sequence: nat, mac: Mac, body: Body) returns (r: Reply)
      requires Valid() && ConnsOk(Value())
      modifies connections.Values
      ensures Valid() && (Value(), r) == CompanionModel.ExchangeStep(old(Value()), now, id, sequence, mac, body)
    {
      hide ExchangeWith, ConnOk;
      if id !in connections { return Denied; }
      var c := connections[id];
      if c.token == "" || sequence <= c.sequence || mac != Mac(c.token, origin, id, sequence, body) { return Denied; }
      QueueFiled(old(Value()), id);
      c.sequence := sequence;
      r := c.Exchange(now, body);
      OneTouched(id);
    }

    // ----- Reading -----

    method Verify(id: string, sequence: nat, mac: Mac, body: Body) returns (ok: bool)
      requires Valid()
      ensures ok == (Authentic(Value(), id, sequence, mac, body) && !Value().conns[id].revoked)
    {
      if id !in connections { return false; }
      var c := connections[id];
      ok := !c.revoked && c.token != "" && sequence > c.sequence && mac == Mac(c.token, origin, id, sequence, body);
    }

    /** `ModelConnection`: a serving connection if there is one, whatever the order of the search; on a reachable
        state it is the only one. */
    method ModelConnection(now: int, owner: string, device: string, conversation: string, destination: string) returns (r: string)
      requires Valid()
      ensures if exists id :: id in Value().conns && Serves(Value().conns[id], now, owner, device, conversation, destination)
              then r in Value().conns && Serves(Value().conns[r], now, owner, device, conversation, destination)
              else r == ""
      ensures StateOk(Value()) ==>
                forall id :: id in Value().conns && Serves(Value().conns[id], now, owner, device, conversation, destination) ==> r == id
    {
      hide ConnOk, Clash;
      var ids := connections.Keys;
      ghost var t := Value();
      while ids != {}
        invariant ids <= connections.Keys
        invariant forall id :: id in connections && id !in ids ==> !Serves(t.conns[id], now, owner, device, conversation, destination)
      {
        var id :| id in ids;
        ids := ids - {id};
        var c := connections[id];
        assert t.conns[id] == c.Value();
        if !c.revoked && c.grant.Some? && c.grant.value.model && c.owner == owner && c.browserDevice == device
           && c.grant.value.conversation == conversation && c.grant.value.destination == destination
           && now - c.browserAt < LEASE && now - c.nativeAt < LEASE
        {
          if StateOk(t) {
            forall j | j in t.conns && Serves(t.conns[j], now, owner, device, conversation, destination) ensures id == j {
              ServerIsUnique(t, now, id, j, owner, device, conversation, destination);
            }
          }
          return id;
        }
      }
      r := "";
    }

    method ModelReceipt(now: int, id: string, operation: string) returns (r: Reply)
      requires Valid()
      ensures var s := Value();
              r == if id in s.conns && !s.conns[id].revoked && !BrowserExpired(s.conns[id], now) && operation in s.conns[id].records
                   then Receipted(s.conns[id].records[operation].receipt) else Denied
    {
      if id !in connections { return Denied; }
      var c := connections[id];
      if c.revoked || now - c.browserAt > LEASE { return Denied; }
      r := if operation in c.records then Receipted(c.records[operation].receipt) else Denied;
    }

    method Principal(id: string) returns (r: Option<(string, string, Option<Grant>)>)
      requires Valid()
      ensures r == PrincipalOf(Value(), id)
    {
      if id !in connections || connections[id].revoked { return None; }
      r := Some((connections[id].owner, connections[id].browserDevice, connections[id].grant));
    }
  }

  lemma BrowsedOrdered(s: State, now: int, owner: string, id: string, secret: string)
    requires ConnsOk(s) && Browsed(s, now, owner, id, secret).Some?
    ensures var c := Browsed(s, now, owner, id, secret).value; forall x :: x in c.order ==> x in c.records
  {
    assert ConnOk(s.conns[id]);
    RevokedOk(s.conns[id]);
  }

  lemma QueueFiled(s: State, id: string)
    requires ConnsOk(s) && id in s.conns
    ensures s.conns[id].queue.Some? ==> s.conns[id].queue.value.id in s.conns[id].records
  {
    assert ConnOk(s.conns[id]);
  }
}
