/** What callers of the broker are told, call by call and over whole runs, said without the broker's own functions:
    results that come back, permissions, limits, collection, revocation and views. */
module CompanionAnswers {
  import opened Basics
  import opened CompanionProtocol
  import opened CompanionModel
  import opened CompanionInvariants
  import opened CompanionRuns

  // ----- Permissions and digests -----

  /** The permission table: file tools need the files permission and shell tools the shell permission; the model needs its
      own besides and can neither commit nor discard; there are no other tools. */
  lemma PermissionTable(g: Grant, tool: string, model: bool)
    ensures tool == "list" || tool == "read" || tool == "stat" || tool == "prepare_write" || tool == "prepare_edit" ==>
              (Allowed(g, tool, model) <==> g.files && (model ==> g.model))
    ensures tool == "commit" || tool == "discard" ==> (Allowed(g, tool, model) <==> g.files && !model)
    ensures tool == "shell" || tool == "task" ==> (Allowed(g, tool, model) <==> g.shell && (model ==> g.model))
    ensures Allowed(g, tool, model) ==>
              || tool == "list" || tool == "read" || tool == "stat" || tool == "prepare_write" || tool == "prepare_edit"
              || tool == "commit" || tool == "discard" || tool == "shell" || tool == "task"
  {
    assert "list"[0] == 'l' && "read"[0] == 'r' && "stat"[0] == 's' && |"stat"| == 4 && "prepare_write"[0] == 'p' && "prepare_edit"[0] == 'p';
    assert "commit"[0] == 'c' && "discard"[0] == 'd' && "shell"[0] == 's' && |"shell"| == 5 && "task"[0] == 't';
  }

  /** Two operations have the same digest exactly if they say the same, whatever the layout of their arguments. */
  lemma DigestsTellApart(a: Operation, b: Operation)
    requires a.arguments.Valid? && b.arguments.Valid?
    ensures DigestOf(a) == DigestOf(b) <==>
            a.id == b.id && a.run == b.run && a.tool == b.tool && a.arguments.compact == b.arguments.compact
  {
    assert DigestOf(a).Sha256? && DigestOf(b).Sha256?;
  }

  // ----- Pairing -----

  /** Connections go only when one is created, and then exactly those the browser left silent for five minutes. */
  lemma OnlySilentConnectionsGo(s: State, now: int, command: Command, id: string)
    requires id in s.conns && (command.CreateCommand? ==> command.pair.id != id)
    ensures id !in Step(s, now, command).0.conns <==> command.CreateCommand? && now - s.conns[id].browserAt > 5 * 60 * 1_000_000_000
    ensures command.CreateCommand? && id in Step(s, now, command).0.conns ==> Step(s, now, command).0.conns[id] == s.conns[id]
  {
    hide RevokedRecords, RevokedConn, SubmitTo, ExchangeWith, Authorizable, Taken, ShownReceipts, Refreshed;
  }

  /** A pairing is refused without a name, or if sixteen connections were heard of within five minutes; otherwise it is
      made, and can be attached to. */
  lemma PairingIsAnswered(s: State, now: int, owner: string, browserDevice: string, p: Pair)
    ensures var (t, r) := Step(s, now, CreateCommand(owner, browserDevice, p));
            var alive := set id | id in s.conns && now - s.conns[id].browserAt <= 5 * 60 * 1_000_000_000;
            if owner == "" || browserDevice == "" then r == Denied
            else if |alive| >= 16 then r == Limit
            else r == Paired(p) && p.id in t.conns
                 && var c := t.conns[p.id];
                    c.owner == owner && c.browserDevice == browserDevice && c.secret == p.secret && c.code == p.code
                    && c.grant.None? && c.queue.None? && !c.revoked && c.token == "" && c.browserAt == now && c.created == now && c.records == map[]
  {
    var alive := set id | id in s.conns && now - s.conns[id].browserAt <= 5 * 60 * 1_000_000_000;
    assert Collected(s, now).Keys == alive;
  }

  /** An attachment goes through exactly with the unspent code of an unrevoked pairing of the last five minutes, for a
      fully named Linux or macOS device within its sizes. */
  lemma AttachmentIsAnswered(s: State, now: int, a: AttachRequest, token: string)
    ensures var (t, r) := Step(s, now, AttachCommand(a, token));
            var d := a.device;
            if a.id in s.conns && !s.conns[a.id].revoked && s.conns[a.id].code != "" && a.code == s.conns[a.id].code
               && now - s.conns[a.id].created <= 5 * 60 * 1_000_000_000
               && d.id != "" && d.host != "" && d.user != "" && d.workspace != "" && (d.os == "linux" || d.os == "darwin")
               && |d.id| <= 104 && |d.host| <= 256 && |d.user| <= 256 && |d.workspace| <= 4096
            then r == Attached(token) && a.id in t.conns && t.conns[a.id].code == "" && t.conns[a.id].token == token
                 && t.conns[a.id].device == d && t.conns[a.id].nativeAt == now
            else r == Denied && t == s
  {
  }

  /** The browser side of a live connection: the right owner and secret, granted, not revoked, neither lease run out. */
  predicate Live(s: State, now: int, owner: string, id: string, secret: string) {
    && id in s.conns && s.conns[id].owner == owner && s.conns[id].secret == secret && s.conns[id].grant.Some? && !s.conns[id].revoked
    && now - s.conns[id].browserAt <= 45 * 1_000_000_000 && now - s.conns[id].nativeAt <= 45 * 1_000_000_000
  }

  /** A grant is given exactly once to an attached, unrevoked connection, for the device that attached, with something in
      it; unless another live connection of the same browser device holds the conversation. */
  lemma GrantIsAnswered(s: State, now: int, owner: string, id: string, secret: string, device: string, g: Grant)
    requires id in s.conns && s.conns[id].owner == owner && s.conns[id].secret == secret && s.conns[id].grant.None?
    ensures var (t, r) := Step(s, now, AuthorizeCommand(owner, id, secret, device, g));
            var c := s.conns[id];
            if c.revoked || c.token == "" || c.device.id != device || g.space == "" || g.conversation == "" || (!g.files && !g.shell)
               || (g.model && g.destination == "") || now - c.nativeAt > 45 * 1_000_000_000
            then r == Denied && t == s
            else if exists other :: other in s.conns && !s.conns[other].revoked && s.conns[other].grant.Some?
                      && s.conns[other].browserDevice == c.browserDevice && s.conns[other].grant.value.conversation == g.conversation
            then r == Conflict && t == s
            else r == Done && id in t.conns && t.conns[id] == c.(grant := Some(g), browserAt := now, viewState := Connected)
  {
    assert With(s, id, s.conns[id]) == s;
    var c := s.conns[id];
    if exists other :: other in s.conns && !s.conns[other].revoked && s.conns[other].grant.Some?
         && s.conns[other].browserDevice == c.browserDevice && s.conns[other].grant.value.conversation == g.conversation
    {
      var other :| other in s.conns && !s.conns[other].revoked && s.conns[other].grant.Some?
        && s.conns[other].browserDevice == c.browserDevice && s.conns[other].grant.value.conversation == g.conversation;
      assert Holds(s.conns[other], c.browserDevice, g.conversation);
    }
  }

  // ----- Submissions -----

  /** What a user's submission on a live connection is answered with: refusal, the stored receipt of the same operation,
      conflict with another one of its identity, the limit while one is queued or the store is full, or a queued receipt. */
  lemma SubmissionIsAnswered(s: State, now: int, owner: string, id: string, secret: string, op: Operation)
    requires Live(s, now, owner, id, secret)
    ensures var (t, r) := Step(s, now, SubmitCommand(owner, id, secret, op));
            var c := s.conns[id];
            if !Allowed(c.grant.value, op.tool, false) || |op.id| < 1 || |op.id| > 160 || |op.run| > 160
               || |op.arguments.text| > 65536 || !op.arguments.Valid? then r == Denied && t == s
            else if op.id in c.records then
              t == s && r == (if c.records[op.id].digest == DigestOf(op) then Receipted(c.records[op.id].receipt) else Conflict)
            else if c.queue.Some? || |c.records| >= 1024 || c.bytes >= 8 * 1024 * 1024 then r == Limit && t == s
            else
              && r == Receipted(Receipt("", "", op.id, c.device.id, c.grant.value.conversation, op.run, Queued, "", ""))
              && id in t.conns && t.conns[id].queue == Some(op) && t.conns[id].order == c.order + [op.id]
              && t.conns[id].records == c.records[op.id := Record(r.receipt, DigestOf(op))]
  {
    hide Allowed, RevokedRecords;
    assert With(s, id, s.conns[id]) == s;
  }

  /** The model's submission is answered as the user's own would be, where the grant is for this destination and
      conversation, admits the model and the operation is neither a commit nor a discard; elsewhere it is refused. */
  lemma ModelSubmitsAsTheUser(s: State, now: int, owner: string, id: string, secret: string, device: string, conversation: string,
                              destination: string, op: Operation)
    requires Live(s, now, owner, id, secret)
    ensures var m, u := Step(s, now, ModelSubmitCommand(id, owner, device, conversation, destination, op)), Step(s, now, SubmitCommand(owner, id, secret, op));
            var c := s.conns[id];
            if c.browserDevice == device && c.grant.value.conversation == conversation && c.grant.value.destination == destination
               && c.grant.value.model && op.tool != "commit" && op.tool != "discard"
            then m == u else m == (s, Denied)
  {
    ModelIsNarrower(s.conns[id].grant.value, op.tool);
    hide Allowed, RevokedRecords;
    assert With(s, id, s.conns[id]) == s;
  }

  /** A connection that is offered to the model takes the model's submissions: what is allowed is not refused. */
  lemma ServedCanSubmit(s: State, now: int, id: string, owner: string, device: string, conversation: string, destination: string, op: Operation)
    requires id in s.conns && Serves(s.conns[id], now, owner, device, conversation, destination)
    requires Allowed(s.conns[id].grant.value, op.tool, true) && 1 <= |op.id| <= 160 && |op.run| <= 160 && |op.arguments.text| <= 65536 && op.arguments.Valid?
    ensures Step(s, now, ModelSubmitCommand(id, owner, device, conversation, destination, op)).1 != Denied
  {
    hide Allowed;
  }

  // ----- Exchanges -----

  /** Without the right code for this token, origin, connection, body and a new sequence number nothing happens. */
  lemma ForgedExchangeDoesNothing(s: State, now: int, id: string, sequence: nat, mac: Mac, body: Body)
    requires id !in s.conns || s.conns[id].token == "" || sequence <= s.conns[id].sequence || mac != Mac(s.conns[id].token, s.origin, id, sequence, body)
    ensures Step(s, now, ExchangeCommand(id, sequence, mac, body)) == (s, Denied)
  {
  }

  /** An authentic exchange of a live connection. */
  predicate Heard(s: State, now: int, id: string, sequence: nat, mac: Mac, body: Body) {
    && id in s.conns && s.conns[id].token != "" && sequence > s.conns[id].sequence && mac == Mac(s.conns[id].token, s.origin, id, sequence, body)
    && !s.conns[id].revoked && now - s.conns[id].browserAt <= 45 * 1_000_000_000
  }

  /** The receipt is for a delivered operation of this connection, and says that it is completed. */
  predicate Matching(c: Conn, r: Receipt) {
    && r.id in c.records && c.records[r.id].receipt.state == Dispatched && r.state == Completed
    && c.grant.Some? && r.device == c.device.id && r.conversation == c.grant.value.conversation && r.run == c.records[r.id].receipt.run
  }

  /** What becomes of an uploaded result: too large for a payload it is refused and the operation stays open; too large for
      what room is left it is given up as unknown; otherwise it is stored as it came, and charged. */
  lemma UploadIsStored(s: State, now: int, id: string, sequence: nat, mac: Mac, r: Receipt)
    requires StateOk(s) && Heard(s, now, id, sequence, mac, Body.Exchange(Some(r))) && Matching(s.conns[id], r)
    ensures var (t, reply) := Step(s, now, ExchangeCommand(id, sequence, mac, Body.Exchange(Some(r))));
            var c := s.conns[id];
            && id in t.conns && r.id in t.conns[id].records && !t.conns[id].revoked && t.conns[id].grant == c.grant && t.conns[id].browserAt == c.browserAt
            && if |r.value| > 65536 then reply == Denied && t.conns[id].records == c.records && t.conns[id].bytes == c.bytes
               else
                 && reply.Delivered? && reply.delivery.operation == c.queue && reply.delivery.grant == c.grant && t.conns[id].nativeAt == now
                 && if c.bytes + |r.value| > 8 * 1024 * 1024
                    then t.conns[id].records[r.id].receipt == c.records[r.id].receipt.(state := Unknown, error := "receipt_storage_limit")
                         && t.conns[id].bytes == c.bytes
                    else t.conns[id].records[r.id].receipt == r && t.conns[id].bytes == c.bytes + |r.value|
  {
    hide RevokedRecords, SumValues;
    assert ConnOk(s.conns[id]);
  }

  /** The receipt names this connection's device and conversation and its record's run, says completed, and is not too large. */
  predicate FitsRecord(c: Conn, r: Receipt)
    requires r.id in c.records
  {
    && c.grant.Some? && r.device == c.device.id && r.conversation == c.grant.value.conversation && r.run == c.records[r.id].receipt.run
    && r.state == Completed && |r.value| <= 65536
  }

  /** An authentic exchange that cannot be read, or whose receipt fits no delivered operation, only spends its number; and
      one that comes after the browser's lease revokes the connection. */
  lemma UselessExchangeIsRefused(s: State, now: int, id: string, sequence: nat, body: Body)
    requires id in s.conns && s.conns[id].token != "" && sequence > s.conns[id].sequence
    ensures var (t, reply) := Step(s, now, ExchangeCommand(id, sequence, Mac(s.conns[id].token, s.origin, id, sequence, body), body));
            var c := s.conns[id];
            && id in t.conns && t.conns[id].sequence == sequence
            && if c.revoked || now - c.browserAt > 45 * 1_000_000_000 then reply == Denied && t.conns[id].revoked && t.conns[id].queue.None?
               else
                 body.Malformed?
                 || (body.receipt.Some? && (body.receipt.value.id !in c.records || !FitsRecord(c, body.receipt.value)
                       || (c.records[body.receipt.value.id].receipt.state != Dispatched && c.records[body.receipt.value.id].receipt.state != Completed))) ==>
                 reply == Denied && t.conns[id] == c.(sequence := sequence)
  {
    hide RevokedRecords;
  }

  /** An exchange in time without a receipt, or with one whose operation is completed already, hands out the queued
      operation, once, keeps the native side alive, and changes no other record. */
  lemma PollIsAnswered(s: State, now: int, id: string, sequence: nat, mac: Mac, body: Body)
    requires StateOk(s) && Heard(s, now, id, sequence, mac, body) && body.Exchange?
    requires body.receipt.Some? ==>
               var r := body.receipt.value;
               r.id in s.conns[id].records && s.conns[id].records[r.id].receipt.state == Completed && FitsRecord(s.conns[id], r)
    ensures var (t, reply) := Step(s, now, ExchangeCommand(id, sequence, mac, body));
            var c := s.conns[id];
            && reply == Delivered(Delivery(c.grant, c.queue))
            && id in t.conns && t.conns[id].nativeAt == now && t.conns[id].queue.None? && t.conns[id].bytes == c.bytes
            && if c.queue.None? then t.conns[id].records == c.records
               else
                 && c.queue.value.id in c.records
                 && var op := c.queue.value.id;
                    t.conns[id].records == c.records[op := Record(c.records[op].receipt.(state := Dispatched), c.records[op].digest)]
  {
    assert ConnOk(s.conns[id]);
    hide RevokedRecords, SumValues, StateOk, ConnOk;
  }

  /** The owner asks for a receipt of a connection that is not revoked by then. */
  lemma ReceiptIsAnswered(s: State, now: int, owner: string, id: string, secret: string, operation: string)
    requires id in s.conns && s.conns[id].owner == owner && s.conns[id].secret == secret
    requires s.conns[id].grant.Some? ==> now - s.conns[id].browserAt <= 45 * 1_000_000_000
    ensures Step(s, now, ReceiptCommand(owner, id, secret, operation))
         == (s, if operation in s.conns[id].records then Receipted(s.conns[id].records[operation].receipt) else Denied)
  {
    hide RevokedRecords;
    assert With(s, id, s.conns[id]) == s;
  }

  /** The second half of a session. After a delivery, an authentic exchange in time uploads the matching result; asked for
      it while the connection is live, the broker answers with exactly that result, at once if and only if it fits the
      payload and the room that is left, and if it did ever after. */
  lemma UploadIsAnswered(origin: string, calls: seq<Call>, i: nat, k: nat, id: string, r: Receipt, owner: string, secret: string)
    requires ValidRun(Initial(origin), calls) && i < k < |calls|
    requires calls[i].command.ExchangeCommand? && calls[i].command.id == id && calls[i].command.body == Body.Exchange(Some(r))
    requires var s := StateAt(Initial(origin), calls, i);
             Heard(s, calls[i].now, id, calls[i].command.sequence, calls[i].command.mac, Body.Exchange(Some(r))) && Matching(s.conns[id], r)
    requires calls[k].command == ReceiptCommand(owner, id, secret, r.id)
    requires var t := StateAt(Initial(origin), calls, k);
             id in t.conns && t.conns[id].owner == owner && t.conns[id].secret == secret && !t.conns[id].revoked
             && calls[k].now - t.conns[id].browserAt <= 45 * 1_000_000_000
    ensures var c := StateAt(Initial(origin), calls, i).conns[id];
            var fits := |r.value| <= 65536 && c.bytes + |r.value| <= 8 * 1024 * 1024;
            && (fits ==> ReplyAt(Initial(origin), calls, k) == Receipted(r))
            && (k == i + 1 && ReplyAt(Initial(origin), calls, k) == Receipted(r) ==> fits)
  {
    hide StateAt, Step, Fresh, StateOk, Matching, Heard, StateReaches;
    var s, u, t := StateAt(Initial(origin), calls, i), StateAt(Initial(origin), calls, i + 1), StateAt(Initial(origin), calls, k);
    HeardMeans(s, calls[i].now, id, calls[i].command.sequence, calls[i].command.mac, Body.Exchange(Some(r)));
    MatchingIsOpen(s.conns[id], r);
    ReachableOk(origin, calls, i);
    RunStep(Initial(origin), calls, i);
    RunStep(Initial(origin), calls, k);
    UploadIsStored(s, calls[i].now, id, calls[i].command.sequence, calls[i].command.mac, r);
    ReceiptIsAnswered(t, calls[k].now, owner, id, secret, r.id);
    ReceiptsOnlyMoveForwards(origin, calls, i + 1, k, id);
  }

  lemma HeardMeans(s: State, now: int, id: string, sequence: nat, mac: Mac, body: Body)
    requires Heard(s, now, id, sequence, mac, body)
    ensures id in s.conns
  {
  }

  lemma MatchingIsOpen(c: Conn, r: Receipt)
    requires Matching(c, r)
    ensures r.id in c.records && c.records[r.id].receipt.state == Dispatched && r.state == Completed && c.records[r.id].receipt != r
  {
  }

  // ----- Revocation -----

  /** What a revocation leaves: no queue, no values, and every open receipt settled as never run or of unknown outcome. */
  predicate Settled(c: Conn, d: Conn) {
    && d.revoked && d.queue.None? && d.viewState == Revoked && d.records.Keys == c.records.Keys
    && forall op :: op in c.records ==>
         && d.records[op].digest == c.records[op].digest
         && d.records[op].receipt == c.records[op].receipt.(value := "", state := d.records[op].receipt.state)
         && d.records[op].receipt.state == (if c.records[op].receipt.state == Queued then NotExecuted
                                            else if c.records[op].receipt.state == Dispatched then Unknown else c.records[op].receipt.state)
  }

  lemma RevocationSettles(s: State, now: int, command: Command, id: string)
    requires id in s.conns && !s.conns[id].revoked
    requires (command.RevokeCommand? && command.owner == s.conns[id].owner && command.id == id && command.secret == s.conns[id].secret)
             || (command.RevokeChannelCommand? && command.id == id)
    ensures var (t, r) := Step(s, now, command); r == Done && id in t.conns && Settled(s.conns[id], t.conns[id])
  {
    var c := s.conns[id];
    forall op | op in c.records ensures RevokedRecord(RevokedRecord(c.records[op])) == RevokedRecord(c.records[op]) {
    }
    assert RevokedRecords(RevokedRecords(c.records)) == RevokedRecords(c.records);
  }

  /** Once revoked, a connection accepts and delivers nothing for the rest of the run. */
  lemma RevocationIsFinal(origin: string, calls: seq<Call>, i: nat, k: nat, id: string, op: Operation, model: bool)
    requires ValidRun(Initial(origin), calls) && i <= k < |calls|
    requires id in StateAt(Initial(origin), calls, i).conns && StateAt(Initial(origin), calls, i).conns[id].revoked
    ensures !AcceptsAt(Initial(origin), calls, k, id, op, model) && !DeliversAt(Initial(origin), calls, k, id, op)
  {
    hide StateAt, Step, Fresh, ConnOk, Clash, BrowserExpired, Allowed, ChangeOf, DeliversAt, RecordKept, StateReaches;
    if AcceptsAt(Initial(origin), calls, k, id, op, model) {
      ReceiptsOnlyMoveForwards(origin, calls, i, k, id);
      ReachableOk(origin, calls, k);
      RunStep(Initial(origin), calls, k);
      AcceptanceMeans(StateAt(Initial(origin), calls, k), calls[k].now, calls[k].command, id, op, model);
    }
    if DeliversAt(Initial(origin), calls, k, id, op) {
      DeliveryAt(origin, calls, k, id, op);
      ReceiptsOnlyMoveForwards(origin, calls, i, k, id);
    }
  }

  // ----- Views -----

  lemma {:induction false} ShownAll(order: seq<string>, records: map<string, Record>, state: ViewState)
    requires forall x :: x in order ==> x in records
    ensures var r := ShownReceipts(order, records, state);
            |r| == |order| && forall i :: 0 <= i < |order| ==> r[i] == Shown(records[order[i]].receipt, state)
  {
    if |order| > 0 {
      var n := |order| - 1;
      assert order[n] in order;
      ShownAll(order[..n], records, state);
      forall i | 0 <= i < |order| ensures ShownReceipts(order, records, state)[i] == Shown(records[order[i]].receipt, state) {
        if i < n { assert order[..n][i] == order[i]; }
      }
    }
  }

  /** A view of a live connection: its device and grant, disconnected if the native side was silent for five seconds, and
      the last twenty receipts in order of submission, where a delivered operation of a disconnected device shows as
      unknown. Looking renews the browser's lease and changes nothing else. */
  lemma ViewIsAnswered(s: State, now: int, owner: string, id: string, secret: string)
    requires StateOk(s) && Live(s, now, owner, id, secret)
    ensures var (t, r) := Step(s, now, ViewCommand(owner, id, secret));
            var c := s.conns[id];
            && t == s.(conns := s.conns[id := c.(browserAt := now)]) && r.Viewed?
            && var v, n := r.view, if |c.order| > 20 then 20 else |c.order|;
               && v.id == id && v.device == c.device && v.grant == c.grant && |v.receipts| == n
               && v.state == (if c.token != "" && now - c.nativeAt > 5 * 1_000_000_000 then Disconnected else c.viewState)
               && forall i :: 0 <= i < n ==>
                    var op := c.order[|c.order| - n + i];
                    op in c.records && v.receipts[i] == (if c.records[op].receipt.state == Dispatched && v.state == Disconnected
                                                         then c.records[op].receipt.(state := Unknown) else c.records[op].receipt)
  {
    hide *;
    LiveConnection(s, now, owner, id, secret);
    var c := s.conns[id];
    var state := if c.token != "" && now - c.nativeAt > 5 * 1_000_000_000 then Disconnected else c.viewState;
    var last := if |c.order| > 20 then c.order[|c.order| - 20..] else c.order;
    LookShows(s, now, owner, id, secret);
    ShownAll(last, c.records, state);
    var r := ShownReceipts(last, c.records, state);
    forall i | 0 <= i < |last|
      ensures last[i] in c.records && r[i] == if c.records[last[i]].receipt.state == Dispatched && state == Disconnected
                                              then c.records[last[i]].receipt.(state := Unknown) else c.records[last[i]].receipt
    {
      ShownMeans(c.records[last[i]].receipt, state);
    }
  }

  lemma ShownMeans(r: Receipt, state: ViewState)
    ensures Shown(r, state) == if r.state == Dispatched && state == Disconnected then r.(state := Unknown) else r
  {
  }

  lemma LiveConnection(s: State, now: int, owner: string, id: string, secret: string)
    requires StateOk(s) && Live(s, now, owner, id, secret)
    ensures id in s.conns && forall x :: x in s.conns[id].order ==> x in s.conns[id].records
  {
    assert ConnOk(s.conns[id]);
  }

  lemma LookShows(s: State, now: int, owner: string, id: string, secret: string)
    requires Live(s, now, owner, id, secret)
    ensures var c := s.conns[id];
            var state := if c.token != "" && now - c.nativeAt > 5 * 1_000_000_000 then Disconnected else c.viewState;
            var last := if |c.order| > 20 then c.order[|c.order| - 20..] else c.order;
            Step(s, now, ViewCommand(owner, id, secret))
            == (s.(conns := s.conns[id := c.(browserAt := now)]), Viewed(View(id, state, c.device, c.grant, ShownReceipts(last, c.records, state))))
  {
    hide RevokedRecords, ShownReceipts;
  }
}
