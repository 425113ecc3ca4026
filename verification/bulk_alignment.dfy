/** The bulk route pairs the `i`-th queried user with the `i`-th ticket,
    although tickets exist only for the users whose token passed the
    gateway's check. This module exhibits the resulting misalignment on a
    concrete table and defines the evidently intended route, whose ledger
    rows are built from the users actually sent a message. */
module BulkAlignment {
  import opened Base
  import opened Store
  import opened Expo
  import opened Notifications

  // ---------------------------------------------------------------------
  // As written: a concrete misalignment

  /** Two users asked for: user 1 holds a token the gateway rejects, user 2
      one it accepts. */
  function TwoUserDb(): (db: Db)
  {
    Db([User(1, "a@example.com", "h1", Some("bad"), 0, 0),
        User(2, "b@example.com", "h2", Some("good"), 1, 1)],
       [], 3, 1, 2)
  }

  /** A gateway that accepts only `"good"`, sends everything in one chunk and
      answers each message with an accepted ticket. */
  function OneChunkGateway(): (gw: Gateway)
  {
    Gateway((t: string) => t == "good",
            (ms: seq<Message>) => [ms],
            (i: nat, c: seq<Message>) => MapSeq((m: Message) => Ticket("ok", Some("receipt")), c))
  }

  /** The counterexample lies inside the schema's constraints, and its
      gateway meets both contracts the intended properties assume. */
  lemma FixturesWellFormed()
    ensures Wf(TwoUserDb())
    ensures ChunkerSound(OneChunkGateway()) && OneTicketPerMessage(OneChunkGateway())
  {
    var gw := OneChunkGateway();
    forall ms: seq<Message>
      ensures Flatten(gw.chunk(ms)) == ms
    {
      assert [ms][1..] == [];
    }
  }

  /** On that table, the one message goes to user 2, yet the ledger credits
      its ticket to user 1, who was sent nothing, and records user 2 as an
      error with no ticket id. */
  lemma BulkLedgerMisaligned(stringify: Payload -> string)
    ensures var req := BulkRequest(Some([1, 2]), Some("T"), Some("B"), None);
            var out := SendBulk(TwoUserDb(), OneChunkGateway(), stringify, req);
            && out.resp.Ok?
            && Flatten(out.submitted) == [Message("good", DefaultSound, "T", "B", map["userId" := Num(2)])]
            && |out.db.ledger| == 2
            && out.db.ledger[0].entry.userId == 1
            && out.db.ledger[0].entry.status == "ok" && out.db.ledger[0].entry.ticketId == Some("receipt")
            && out.db.ledger[1].entry.userId == 2
            && out.db.ledger[1].entry.status == "error" && out.db.ledger[1].entry.ticketId == None
  {
    var db, gw := TwoUserDb(), OneChunkGateway();
    var req := BulkRequest(Some([1, 2]), Some("T"), Some("B"), None);
    var users := Recipients(db.users, InIds([1, 2]));
    assert db.users[1..][1..] == [];
    assert users == [Recipient(1, "bad"), Recipient(2, "good")];
    var sent := Filter(Deliverable(gw), users);
    assert users[1..][1..] == [];
    assert sent == [Recipient(2, "good")];
    var m := Message("good", DefaultSound, "T", "B", map["userId" := Num(2)]);
    assert Messages(gw, users, "T", "B", None) == [m];
    assert Submit(gw, [[m]]) == [Ticket("ok", Some("receipt"))] by {
      assert [[m]][..0] == [];
    }
  }

  // ---------------------------------------------------------------------
  // Intended: one ledger row per message sent

  /** `POST /send-bulk` with the ledger rows built from the recipients that
      passed the token check: the same reply and submissions as the route,
      and row `i` pairs the `i`-th message's recipient with ticket `i`. */
  function SendBulkAligned(db: Db, gw: Gateway, stringify: Payload -> string, req: BulkRequest): (out: Outcome<BulkReceipt>)
    ensures out.resp == SendBulk(db, gw, stringify, req).resp
    ensures out.submitted == SendBulk(db, gw, stringify, req).submitted
    ensures out.resp.Err? ==> out.db == db
    ensures out.resp.Ok? ==>
              var sent := Filter(Deliverable(gw), Recipients(db.users, InIds(req.userIds.value)));
              var tickets := out.resp.value.tickets;
              && out.db.users == db.users
              && |out.db.ledger| == |db.ledger| + |sent|
              && out.db.ledger[..|db.ledger|] == db.ledger
              && forall i :: 0 <= i < |sent| ==>
                   out.db.ledger[|db.ledger| + i].entry
                   == Entry(sent[i].id, req.title.value, req.body.value, stringify(PayloadOrEmpty(req.data)),
                            StatusAt(tickets, i), TicketIdAt(tickets, i))
  {
    var asWritten := SendBulk(db, gw, stringify, req);
    if asWritten.resp.Err? then asWritten
    else
      var sent := Filter(Deliverable(gw), Recipients(db.users, InIds(req.userIds.value)));
      var tickets := asWritten.resp.value.tickets;
      var entries := seq(|sent|, i requires 0 <= i < |sent| =>
                       Entry(sent[i].id, req.title.value, req.body.value, stringify(PayloadOrEmpty(req.data)),
                             StatusAt(tickets, i), TicketIdAt(tickets, i)));
      Outcome(asWritten.resp, InsertAll(db, entries), asWritten.submitted)
  }

  /** The intended property: with a sound chunker and one ticket per
      message, there is one ledger row per message sent, row `i` belongs to
      the user whose id message `i` carries, and its status and ticket id
      come from a real ticket, the `i`-th. */
  lemma AlignedRecordsMatchMessages(db: Db, gw: Gateway, stringify: Payload -> string, req: BulkRequest)
    requires ChunkerSound(gw) && OneTicketPerMessage(gw)
    requires SendBulkAligned(db, gw, stringify, req).resp.Ok?
    ensures var out := SendBulkAligned(db, gw, stringify, req);
            var ms := Flatten(out.submitted);
            var tickets := out.resp.value.tickets;
            var n := |db.ledger|;
            && |out.db.ledger| == n + |ms| == n + |tickets|
            && forall i :: 0 <= i < |ms| ==>
                 && ms[i].data["userId"] == Num(out.db.ledger[n + i].entry.userId)
                 && (tickets[i].status != "" ==> out.db.ledger[n + i].entry.status == tickets[i].status)
                 && (Present(tickets[i].id) ==> out.db.ledger[n + i].entry.ticketId == tickets[i].id)
  {
    var users := Recipients(db.users, InIds(req.userIds.value));
    TicketCountMatches(gw, Messages(gw, users, req.title.value, req.body.value, req.data));
  }

  /** When the gateway answers message by message, the row of every user
      sent a message records the status of that user's own ticket. */
  lemma AlignedRecordsCarryOwnTicket(db: Db, gw: Gateway, f: Message -> Ticket, stringify: Payload -> string, req: BulkRequest)
    requires ChunkerSound(gw) && AnswersPerMessage(gw, f)
    requires SendBulkAligned(db, gw, stringify, req).resp.Ok?
    ensures var out := SendBulkAligned(db, gw, stringify, req);
            var ms := Flatten(out.submitted);
            var n := |db.ledger|;
            forall i :: 0 <= i < |ms| ==>
              out.db.ledger[n + i].entry.status == (if f(ms[i]).status != "" then f(ms[i]).status else "error")
  {
    var users := Recipients(db.users, InIds(req.userIds.value));
    TicketsAlignWithMessages(gw, f, Messages(gw, users, req.title.value, req.body.value, req.data));
  }

  /** The intended route keeps the schema's constraints. */
  lemma AlignedPreservesWf(db: Db, gw: Gateway, stringify: Payload -> string, req: BulkRequest)
    requires Wf(db)
    ensures Wf(SendBulkAligned(db, gw, stringify, req).db)
  {
    var out := SendBulkAligned(db, gw, stringify, req);
    if out.resp.Ok? {
      var sent := Filter(Deliverable(gw), Recipients(db.users, InIds(req.userIds.value)));
      var n := |db.ledger|;
      var es := Entries(out.db.ledger[n..]);
      assert out.db == InsertAll(db, es);
      forall e | e in es
        ensures HasUser(db.users, e.userId)
      {
        var i :| 0 <= i < |es| && es[i] == e;
        assert e.userId == sent[i].id && sent[i] in sent;
      }
      InsertAllPreservesWf(db, es);
    }
  }
}
