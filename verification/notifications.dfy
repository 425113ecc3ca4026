/** The notification routes as pure transitions: `/send`, `/send-bulk`,
    `/send-all` and `/history`. Each sending route takes the database, the
    gateway and the JSON serialiser, and returns its reply, the database
    after it and the chunks it submitted to the gateway, in submission
    order. */
module Notifications {
  import opened Base
  import opened Store
  import opened Expo
  import opened Api

  datatype SendRequest = SendRequest(
    userId: Option<int>, title: Option<string>, body: Option<string>, data: Option<Payload>)

  /** `userIds` is `None` when it is missing or not an array. */
  datatype BulkRequest = BulkRequest(
    userIds: Option<seq<int>>, title: Option<string>, body: Option<string>, data: Option<Payload>)

  datatype BroadcastRequest = BroadcastRequest(title: Option<string>, body: Option<string>, data: Option<Payload>)

  /** The `/send` reply: the new ledger row's id and the first ticket, if any. */
  datatype SendReceipt = SendReceipt(notificationId: int, ticket: Option<Ticket>)

  /** The `/send-bulk` reply: every ticket, in order. */
  datatype BulkReceipt = BulkReceipt(tickets: seq<Ticket>)

  /** The `/send-all` reply: the number of tickets. */
  datatype BroadcastReceipt = BroadcastReceipt(count: nat)

  /** A route's reply, the database after it, and what it submitted. */
  datatype Outcome<T> = Outcome(resp: Result<T, Error>, db: Db, submitted: seq<seq<Message>>)

  /** A row of a recipient query: `SELECT id, expo_push_token` with the token
      known to be non-NULL. */
  datatype Recipient = Recipient(id: int, token: string)

  /** The number of ledger rows `/history` returns at most. */
  const HistoryLimit: nat := 50

  // ---------------------------------------------------------------------
  // Request checks and queries

  /** `userId` truthy: present and not 0. */
  predicate UserIdGiven(id: Option<int>)
  {
    id.Some? && id.value != 0
  }

  predicate SendFieldsGiven(req: SendRequest)
  {
    UserIdGiven(req.userId) && Present(req.title) && Present(req.body)
  }

  predicate BulkFieldsGiven(req: BulkRequest)
  {
    req.userIds.Some? && Present(req.title) && Present(req.body)
  }

  predicate BroadcastFieldsGiven(req: BroadcastRequest)
  {
    Present(req.title) && Present(req.body)
  }

  /** The push token `/send` would use for a user: `None` when the user is
      unknown or has a NULL or empty token. */
  function StoredToken(users: seq<User>, id: int): (t: Option<string>)
    ensures t.Some? <==> FindById(users, id).Some? && Present(FindById(users, id).value.pushToken)
    ensures t.Some? ==> t == FindById(users, id).value.pushToken
  {
    match FindById(users, id)
    case None => None
    case Some(u) => if Present(u.pushToken) then u.pushToken else None
  }

  /** The `WHERE id IN (...)` condition of `/send-bulk`. */
  function InIds(ids: seq<int>): (wanted: int -> bool)
  {
    (id: int) => id in ids
  }

  /** `/send-all` has no condition on the id. */
  function AnyId(): (wanted: int -> bool)
  {
    (id: int) => true
  }

  /** `SELECT id, expo_push_token FROM users WHERE <wanted id> AND
      expo_push_token IS NOT NULL`, in table order. */
  function Recipients(users: seq<User>, wanted: int -> bool): (rs: seq<Recipient>)
    ensures |rs| <= |users|
    ensures forall r :: r in rs <==> exists u :: u in users && wanted(u.id) && u.pushToken == Some(r.token) && u.id == r.id
  {
    if users == [] then []
    else
      var u := users[0];
      (if wanted(u.id) && u.pushToken.Some? then [Recipient(u.id, u.pushToken.value)] else [])
      + Recipients(users[1..], wanted)
  }

  /** The gateway's token check as a filter condition. */
  function Deliverable(gw: Gateway): (ok: Recipient -> bool)
  {
    (r: Recipient) => gw.isPushToken(r.token)
  }

  /** The message built for one recipient: its token as `to`, and the
      caller's payload with `userId` set to the recipient's id. */
  function MessageFor(title: string, body: string, data: Option<Payload>): (build: Recipient -> Message)
  {
    (r: Recipient) => Message(r.token, DefaultSound, title, body, WithUserId(data, r.id))
  }

  /** The recipients that pass the token check, one message each, in order. */
  function Messages(gw: Gateway, rs: seq<Recipient>, title: string, body: string, data: Option<Payload>): (ms: seq<Message>)
    ensures |ms| <= |rs|
    ensures forall i :: 0 <= i < |ms| ==> gw.isPushToken(ms[i].to)
  {
    var sent := Filter(Deliverable(gw), rs);
    assert forall i :: 0 <= i < |sent| ==> sent[i] in sent;
    MapSeq(MessageFor(title, body, data), sent)
  }

  // ---------------------------------------------------------------------
  // Independent description of who gets a message

  /** A user of the table who is asked for and holds a token the gateway
      accepts. */
  function Reachable(gw: Gateway, wanted: int -> bool): (reach: User -> bool)
  {
    (u: User) => wanted(u.id) && u.pushToken.Some? && gw.isPushToken(u.pushToken.value)
  }

  /** The message a reachable user gets. */
  function UserMessage(title: string, body: string, data: Option<Payload>): (build: User -> Message)
  {
    (u: User) => Message(if u.pushToken.Some? then u.pushToken.value else "", DefaultSound, title, body,
                         WithUserId(data, u.id))
  }

  /** The first user of the table contributes the same message, or none,
      through either description. */
  lemma HeadMessage(gw: Gateway, u: User, wanted: int -> bool, title: string, body: string, data: Option<Payload>)
    ensures var head := if wanted(u.id) && u.pushToken.Some? then [Recipient(u.id, u.pushToken.value)] else [];
            MapSeq(MessageFor(title, body, data), Filter(Deliverable(gw), head))
            == MapSeq(UserMessage(title, body, data), if Reachable(gw, wanted)(u) then [u] else [])
  {
    var head := if wanted(u.id) && u.pushToken.Some? then [Recipient(u.id, u.pushToken.value)] else [];
    if head != [] {
      assert head[1..] == [];
    }
  }

  /** The query, the token filter and the message map together send exactly
      one message to each reachable user of the table, in table order. */
  lemma {:induction false} MessagesAreReachableUsers(
    gw: Gateway, users: seq<User>, wanted: int -> bool, title: string, body: string, data: Option<Payload>)
    ensures Messages(gw, Recipients(users, wanted), title, body, data)
         == MapSeq(UserMessage(title, body, data), Filter(Reachable(gw, wanted), users))
  {
    if users != [] {
      var u := users[0];
      var f, g := MessageFor(title, body, data), UserMessage(title, body, data);
      var ok, reach := Deliverable(gw), Reachable(gw, wanted);
      var head := if wanted(u.id) && u.pushToken.Some? then [Recipient(u.id, u.pushToken.value)] else [];
      var tail := Recipients(users[1..], wanted);
      var uhead := if reach(u) then [u] else [];
      var utail := Filter(reach, users[1..]);
      assert Recipients(users, wanted) == head + tail;
      assert Filter(reach, users) == uhead + utail;
      FilterAppend(ok, head, tail);
      MapSeqAppend(f, Filter(ok, head), Filter(ok, tail));
      MapSeqAppend(g, uhead, utail);
      HeadMessage(gw, u, wanted, title, body, data);
      MessagesAreReachableUsers(gw, users[1..], wanted, title, body, data);
      calc {
        Messages(gw, Recipients(users, wanted), title, body, data);
        MapSeq(f, Filter(ok, head + tail));
        MapSeq(f, Filter(ok, head)) + MapSeq(f, Filter(ok, tail));
        MapSeq(g, uhead) + MapSeq(g, utail);
        MapSeq(g, uhead + utail);
      }
    }
  }

  // ---------------------------------------------------------------------
  // The routes

  /** `POST /send`. */
  function Send(db: Db, gw: Gateway, stringify: Payload -> string, req: SendRequest): (out: Outcome<SendReceipt>)
    ensures !SendFieldsGiven(req) ==> out == Outcome(Err(MissingSendFields), db, [])
    ensures SendFieldsGiven(req) && StoredToken(db.users, req.userId.value).None? ==>
              out == Outcome(Err(UserOrTokenMissing), db, [])
    ensures SendFieldsGiven(req) && StoredToken(db.users, req.userId.value).Some?
            && !gw.isPushToken(StoredToken(db.users, req.userId.value).value) ==>
              out == Outcome(Err(InvalidPushToken), db, [])
    ensures out.resp.Ok? <==>
              SendFieldsGiven(req) && StoredToken(db.users, req.userId.value).Some?
              && gw.isPushToken(StoredToken(db.users, req.userId.value).value)
    ensures out.resp.Ok? ==>
              var tickets := Submit(gw, out.submitted);
              && out.submitted == gw.chunk([Message(StoredToken(db.users, req.userId.value).value, DefaultSound,
                                                    req.title.value, req.body.value, PayloadOrEmpty(req.data))])
              && out.db.users == db.users
              && |out.db.ledger| == |db.ledger| + 1
              && out.db.ledger[..|db.ledger|] == db.ledger
              && out.db.ledger[|db.ledger|].id == out.resp.value.notificationId == db.nextRecordId
              && out.db.ledger[|db.ledger|].entry
                 == Entry(req.userId.value, req.title.value, req.body.value, stringify(PayloadOrEmpty(req.data)),
                          StatusAt(tickets, 0), TicketIdAt(tickets, 0))
              && out.resp.value.ticket == (if tickets == [] then None else Some(tickets[0]))
  {
    if !UserIdGiven(req.userId) || !Present(req.title) || !Present(req.body) then
      Outcome(Err(MissingSendFields), db, [])
    else match StoredToken(db.users, req.userId.value)
      case None => Outcome(Err(UserOrTokenMissing), db, [])
      case Some(token) =>
        if !gw.isPushToken(token) then Outcome(Err(InvalidPushToken), db, [])
        else
          var data := PayloadOrEmpty(req.data);
          var message := Message(token, DefaultSound, req.title.value, req.body.value, data);
          var chunks := gw.chunk([message]);
          var tickets := Submit(gw, chunks);
          var entry := Entry(req.userId.value, req.title.value, req.body.value, stringify(data),
                             StatusAt(tickets, 0), TicketIdAt(tickets, 0));
          Outcome(Ok(SendReceipt(db.nextRecordId, if tickets == [] then None else Some(tickets[0]))),
                  Insert(db, entry), chunks)
  }

  /** `POST /send-bulk`, as written: one ledger row per queried user, paired
      with the ticket at the same position. */
  function SendBulk(db: Db, gw: Gateway, stringify: Payload -> string, req: BulkRequest): (out: Outcome<BulkReceipt>)
    ensures !BulkFieldsGiven(req) ==> out == Outcome(Err(MissingBulkFields), db, [])
    ensures out.resp.Err? ==> out.db == db && out.submitted == []
    ensures BulkFieldsGiven(req) ==>
              (out.resp.Ok? <==> exists u :: u in db.users && Reachable(gw, InIds(req.userIds.value))(u))
    ensures BulkFieldsGiven(req) && out.resp.Err? ==> out.resp.error == NoValidRecipients
    ensures out.resp.Ok? ==>
              var users := Recipients(db.users, InIds(req.userIds.value));
              var tickets := out.resp.value.tickets;
              && tickets == Submit(gw, out.submitted)
              && out.submitted == gw.chunk(Messages(gw, users, req.title.value, req.body.value, req.data))
              && out.db.users == db.users
              && |out.db.ledger| == |db.ledger| + |users|
              && out.db.ledger[..|db.ledger|] == db.ledger
              && forall i :: 0 <= i < |users| ==>
                   out.db.ledger[|db.ledger| + i].entry
                   == Entry(users[i].id, req.title.value, req.body.value, stringify(PayloadOrEmpty(req.data)),
                            StatusAt(tickets, i), TicketIdAt(tickets, i))
  {
    if req.userIds.None? || !Present(req.title) || !Present(req.body) then
      Outcome(Err(MissingBulkFields), db, [])
    else
      var users := Recipients(db.users, InIds(req.userIds.value));
      var messages := Messages(gw, users, req.title.value, req.body.value, req.data);
      if messages == [] then
        NoneReachable(gw, db.users, InIds(req.userIds.value), req.title.value, req.body.value, req.data);
        Outcome(Err(NoValidRecipients), db, [])
      else
        SomeReachable(gw, db.users, InIds(req.userIds.value), req.title.value, req.body.value, req.data);
        var chunks := gw.chunk(messages);
        var tickets := Submit(gw, chunks);
        var entries := seq(|users|, i requires 0 <= i < |users| =>
                         Entry(users[i].id, req.title.value, req.body.value, stringify(PayloadOrEmpty(req.data)),
                               StatusAt(tickets, i), TicketIdAt(tickets, i)));
        Outcome(Ok(BulkReceipt(tickets)), InsertAll(db, entries), chunks)
  }

  /** `POST /send-all`: like the bulk route over every user with a token,
      but it writes no ledger row and reports only the ticket count. */
  function SendAll(db: Db, gw: Gateway, req: BroadcastRequest): (out: Outcome<BroadcastReceipt>)
    ensures out.db == db
    ensures !BroadcastFieldsGiven(req) ==> out == Outcome(Err(MissingBroadcastFields), db, [])
    ensures out.resp.Err? ==> out.submitted == []
    ensures BroadcastFieldsGiven(req) ==>
              (out.resp.Ok? <==> exists u :: u in db.users && Reachable(gw, AnyId())(u))
    ensures BroadcastFieldsGiven(req) && out.resp.Err? ==> out.resp.error == NoValidRecipients
    ensures out.resp.Ok? ==>
              && out.submitted == gw.chunk(Messages(gw, Recipients(db.users, AnyId()), req.title.value, req.body.value, req.data))
              && out.resp.value.count == |Submit(gw, out.submitted)|
  {
    if !Present(req.title) || !Present(req.body) then
      Outcome(Err(MissingBroadcastFields), db, [])
    else
      var users := Recipients(db.users, AnyId());
      var messages := Messages(gw, users, req.title.value, req.body.value, req.data);
      if messages == [] then
        NoneReachable(gw, db.users, AnyId(), req.title.value, req.body.value, req.data);
        Outcome(Err(NoValidRecipients), db, [])
      else
        SomeReachable(gw, db.users, AnyId(), req.title.value, req.body.value, req.data);
        var chunks := gw.chunk(messages);
        Outcome(Ok(BroadcastReceipt(|Submit(gw, chunks)|)), db, chunks)
  }

  /** `GET /history`: the caller's ledger rows, newest first, at most
      `HistoryLimit` of them. */
  function History(db: Db, caller: int): (r: seq<Record>)
    ensures |r| <= HistoryLimit
    ensures |r| == Min(HistoryLimit, |Filter(OwnedBy(caller), db.ledger)|)
    ensures forall x :: x in r ==> x in db.ledger && x.entry.userId == caller
  {
    var mine := Filter(OwnedBy(caller), db.ledger);
    Reverse(mine)[..Min(HistoryLimit, |mine|)]
  }

  /** The condition `WHERE user_id = ?` of `/history`. */
  function OwnedBy(caller: int): (mine: Record -> bool)
  {
    (x: Record) => x.entry.userId == caller
  }

  // ---------------------------------------------------------------------
  // Helpers for the empty / non-empty message list decision

  lemma NoneReachable(gw: Gateway, users: seq<User>, wanted: int -> bool, title: string, body: string, data: Option<Payload>)
    requires Messages(gw, Recipients(users, wanted), title, body, data) == []
    ensures forall u :: u in users ==> !Reachable(gw, wanted)(u)
  {
    MessagesAreReachableUsers(gw, users, wanted, title, body, data);
  }

  lemma SomeReachable(gw: Gateway, users: seq<User>, wanted: int -> bool, title: string, body: string, data: Option<Payload>)
    requires Messages(gw, Recipients(users, wanted), title, body, data) != []
    ensures exists u :: u in users && Reachable(gw, wanted)(u)
  {
    MessagesAreReachableUsers(gw, users, wanted, title, body, data);
    var r := Filter(Reachable(gw, wanted), users);
    assert r[0] in r;
  }
}
