/** Properties of the notification routes that relate a route's outcome to
    an independent description of it: who receives a message, how tickets
    line up with messages, how the ledger grows, and what `/history` shows. */
module NotificationFacts {
  import opened Base
  import opened Store
  import opened Expo
  import opened Api
  import opened Notifications

  // ---------------------------------------------------------------------
  // /send

  /** Under the primary-key constraint, `/send` to an existing user succeeds
      exactly when that user's stored token is non-empty and accepted by the
      gateway, and then the one message submitted goes to that token. */
  lemma SendTargetsStoredToken(db: Db, gw: Gateway, stringify: Payload -> string, req: SendRequest, k: nat)
    requires Wf(db)
    requires ChunkerSound(gw)
    requires SendFieldsGiven(req)
    requires k < |db.users| && db.users[k].id == req.userId.value
    ensures var out := Send(db, gw, stringify, req);
            && (out.resp.Ok? <==> Present(db.users[k].pushToken) && gw.isPushToken(db.users[k].pushToken.value))
            && (out.resp.Ok? ==>
                  Flatten(out.submitted) == [Message(db.users[k].pushToken.value, DefaultSound, req.title.value,
                                                     req.body.value, PayloadOrEmpty(req.data))])
  {
    FindByIdUnique(db, k);
  }

  /** `/send` to an id that no user has fails before anything is submitted. */
  lemma SendUnknownUserRejected(db: Db, gw: Gateway, stringify: Payload -> string, req: SendRequest)
    requires SendFieldsGiven(req)
    requires forall u :: u in db.users ==> u.id != req.userId.value
    ensures Send(db, gw, stringify, req) == Outcome(Err(UserOrTokenMissing), db, [])
  {
    assert !HasUser(db.users, req.userId.value);
  }

  /** With one ticket per message, a successful `/send` gets exactly one
      ticket back, reports it, and records its status. */
  lemma SendRecordsItsTicket(db: Db, gw: Gateway, stringify: Payload -> string, req: SendRequest)
    requires ChunkerSound(gw) && OneTicketPerMessage(gw)
    requires Send(db, gw, stringify, req).resp.Ok?
    ensures var out := Send(db, gw, stringify, req);
            var tickets := Submit(gw, out.submitted);
            && |tickets| == 1
            && out.resp.value.ticket == Some(tickets[0])
            && (tickets[0].status != "" ==> out.db.ledger[|db.ledger|].entry.status == tickets[0].status)
  {
    var out := Send(db, gw, stringify, req);
    var token := StoredToken(db.users, req.userId.value).value;
    TicketCountMatches(gw, [Message(token, DefaultSound, req.title.value, req.body.value, PayloadOrEmpty(req.data))]);
  }

  /** `/send` keeps the schema's constraints, and the reported
      `notificationId` is the id of the new row, above every earlier one. */
  lemma SendPreservesWf(db: Db, gw: Gateway, stringify: Payload -> string, req: SendRequest)
    requires Wf(db)
    ensures var out := Send(db, gw, stringify, req);
            && Wf(out.db)
            && (out.resp.Ok? ==> forall x :: x in db.ledger ==> x.id < out.resp.value.notificationId)
  {
    var out := Send(db, gw, stringify, req);
    if out.resp.Ok? {
      var e := out.db.ledger[|db.ledger|].entry;
      assert HasUser(db.users, e.userId);
      InsertPreservesWf(db, e);
    }
  }

  /** Every refusal of the three sending routes is a 400. */
  lemma SendingRouteStatusCodes(db: Db, gw: Gateway, stringify: Payload -> string,
                                send: SendRequest, bulk: BulkRequest, all: BroadcastRequest)
    ensures Send(db, gw, stringify, send).resp.Err? ==> Code(Send(db, gw, stringify, send).resp.error) == 400
    ensures SendBulk(db, gw, stringify, bulk).resp.Err? ==> Code(SendBulk(db, gw, stringify, bulk).resp.error) == 400
    ensures SendAll(db, gw, all).resp.Err? ==> Code(SendAll(db, gw, all).resp.error) == 400
  {
  }

  // ---------------------------------------------------------------------
  // /send-bulk, as written

  /** The bulk messages are one per reachable user of the table (asked for
      and holding an accepted token), in table order, each carrying that
      user's id as `userId`. */
  lemma BulkMessagesAreReachableUsers(db: Db, gw: Gateway, stringify: Payload -> string, req: BulkRequest)
    requires ChunkerSound(gw)
    requires SendBulk(db, gw, stringify, req).resp.Ok?
    ensures Flatten(SendBulk(db, gw, stringify, req).submitted)
         == MapSeq(UserMessage(req.title.value, req.body.value, req.data), Filter(Reachable(gw, InIds(req.userIds.value)), db.users))
  {
    MessagesAreReachableUsers(gw, db.users, InIds(req.userIds.value), req.title.value, req.body.value, req.data);
  }

  /** The bulk route writes one ledger row per queried user, which is never
      fewer than the messages it sent, and exactly as many only when the
      gateway accepts the token of every queried user. */
  lemma BulkRecordsOutnumberMessages(db: Db, gw: Gateway, stringify: Payload -> string, req: BulkRequest)
    requires ChunkerSound(gw)
    requires SendBulk(db, gw, stringify, req).resp.Ok?
    ensures var out := SendBulk(db, gw, stringify, req);
            && |out.db.ledger| - |db.ledger| >= |Flatten(out.submitted)|
            && (|out.db.ledger| - |db.ledger| == |Flatten(out.submitted)| <==>
                  forall u :: u in db.users && u.id in req.userIds.value && u.pushToken.Some? ==>
                                gw.isPushToken(u.pushToken.value))
  {
    var users := Recipients(db.users, InIds(req.userIds.value));
    FilterKeepsAll(Deliverable(gw), users);
    if forall r :: r in users ==> gw.isPushToken(r.token) {
      forall u | u in db.users && u.id in req.userIds.value && u.pushToken.Some?
        ensures gw.isPushToken(u.pushToken.value)
      {
        assert Recipient(u.id, u.pushToken.value) in users;
      }
    }
  }

  /** With one ticket per message, every bulk row past the number of
      messages sent falls back to status `"error"` and no ticket id. */
  lemma BulkTrailingRecordsDefault(db: Db, gw: Gateway, stringify: Payload -> string, req: BulkRequest)
    requires ChunkerSound(gw) && OneTicketPerMessage(gw)
    requires SendBulk(db, gw, stringify, req).resp.Ok?
    ensures var out := SendBulk(db, gw, stringify, req);
            forall i :: |db.ledger| + |Flatten(out.submitted)| <= i < |out.db.ledger| ==>
              out.db.ledger[i].entry.status == "error" && out.db.ledger[i].entry.ticketId == None
  {
    var out := SendBulk(db, gw, stringify, req);
    var users := Recipients(db.users, InIds(req.userIds.value));
    TicketCountMatches(gw, Messages(gw, users, req.title.value, req.body.value, req.data));
    forall i | |db.ledger| + |Flatten(out.submitted)| <= i < |out.db.ledger|
      ensures out.db.ledger[i].entry.status == "error" && out.db.ledger[i].entry.ticketId == None
    {
      assert out.db.ledger[|db.ledger| + (i - |db.ledger|)].entry.status == StatusAt(out.resp.value.tickets, i - |db.ledger|);
    }
  }

  /** The bulk route keeps the schema's constraints: every row it writes
      references a queried, hence existing, user. */
  lemma BulkPreservesWf(db: Db, gw: Gateway, stringify: Payload -> string, req: BulkRequest)
    requires Wf(db)
    ensures Wf(SendBulk(db, gw, stringify, req).db)
  {
    var out := SendBulk(db, gw, stringify, req);
    if out.resp.Ok? {
      var users := Recipients(db.users, InIds(req.userIds.value));
      var n := |db.ledger|;
      var es := Entries(out.db.ledger[n..]);
      assert out.db == InsertAll(db, es);
      forall e | e in es
        ensures HasUser(db.users, e.userId)
      {
        var i :| 0 <= i < |es| && es[i] == e;
        assert e.userId == users[i].id && users[i] in users;
      }
      InsertAllPreservesWf(db, es);
    }
  }

  // ---------------------------------------------------------------------
  // /send-all

  /** The broadcast messages are one per user holding an accepted token, in
      table order; with one ticket per message the reported count is the
      number of such users. */
  lemma BroadcastReachesEveryValidToken(db: Db, gw: Gateway, req: BroadcastRequest)
    requires ChunkerSound(gw)
    requires SendAll(db, gw, req).resp.Ok?
    ensures var out := SendAll(db, gw, req);
            && Flatten(out.submitted)
               == MapSeq(UserMessage(req.title.value, req.body.value, req.data), Filter(Reachable(gw, AnyId()), db.users))
            && (OneTicketPerMessage(gw) ==> out.resp.value.count == |Filter(Reachable(gw, AnyId()), db.users)|)
  {
    var users := Recipients(db.users, AnyId());
    MessagesAreReachableUsers(gw, db.users, AnyId(), req.title.value, req.body.value, req.data);
    if OneTicketPerMessage(gw) {
      TicketCountMatches(gw, Messages(gw, users, req.title.value, req.body.value, req.data));
    }
  }

  // ---------------------------------------------------------------------
  // /history

  /** The caller's rows in ledger order are strictly increasing in
      creation time. */
  lemma OwnRowsIncreasing(db: Db, caller: int)
    requires Wf(db)
    ensures var mine := Filter(OwnedBy(caller), db.ledger);
            forall i, j :: 0 <= i < j < |mine| ==> mine[i].createdAt < mine[j].createdAt
  {
    var key := (x: Record) => x.createdAt as int;
    FilterKeepsOrder(OwnedBy(caller), db.ledger, key);
  }

  /** `/history` reads the caller's rows backwards from the last one. */
  lemma HistoryReadsBackwards(db: Db, caller: int)
    ensures var mine := Filter(OwnedBy(caller), db.ledger);
            var r := History(db, caller);
            && |r| == Min(HistoryLimit, |mine|)
            && forall q :: 0 <= q < |r| ==> r[q] == mine[|mine| - 1 - q]
  {
  }

  /** Under the ledger's ordering invariant, `/history` lists the caller's
      rows newest first. */
  lemma HistoryNewestFirst(db: Db, caller: int)
    requires Wf(db)
    ensures var r := History(db, caller);
            forall i, j :: 0 <= i < j < |r| ==> r[i].createdAt > r[j].createdAt
  {
    OwnRowsIncreasing(db, caller);
    HistoryReadsBackwards(db, caller);
  }

  /** Reading the last `Min(limit, |mine|)` rows of a creation-ordered
      sequence backwards leaves out only rows older than all it keeps. */
  lemma NewestSuffix(mine: seq<Record>, r: seq<Record>, limit: nat)
    requires forall i, j :: 0 <= i < j < |mine| ==> mine[i].createdAt < mine[j].createdAt
    requires |r| == Min(limit, |mine|)
    requires forall q :: 0 <= q < |r| ==> r[q] == mine[|mine| - 1 - q]
    ensures forall p, y :: 0 <= p < |mine| && mine[p] !in r && y in r ==> mine[p].createdAt < y.createdAt
    ensures |mine| <= limit ==> forall p :: 0 <= p < |mine| ==> mine[p] in r
  {
    var m := |mine|;
    forall p | 0 <= p < m && m - |r| <= p
      ensures mine[p] in r
    {
      assert r[m - 1 - p] == mine[p];
    }
  }

  /** `/history` keeps the newest of the caller's rows: every row of the
      caller it leaves out is older than all it shows, and when the caller
      has no more rows than the limit, it leaves none out. */
  lemma HistoryKeepsNewest(db: Db, caller: int)
    requires Wf(db)
    ensures var r := History(db, caller);
            && (forall x, y :: x in db.ledger && x.entry.userId == caller && x !in r && y in r ==>
                                 x.createdAt < y.createdAt)
            && (|Filter(OwnedBy(caller), db.ledger)| <= HistoryLimit ==>
                  forall x :: x in db.ledger && x.entry.userId == caller ==> x in r)
  {
    var mine := Filter(OwnedBy(caller), db.ledger);
    var r := History(db, caller);
    OwnRowsIncreasing(db, caller);
    HistoryReadsBackwards(db, caller);
    NewestSuffix(mine, r, HistoryLimit);
    forall x | x in db.ledger && x.entry.userId == caller
      ensures exists p :: 0 <= p < |mine| && mine[p] == x
    {
      assert OwnedBy(caller)(x);
      assert x in mine;
    }
  }
}
