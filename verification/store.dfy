/** The two SQLite tables the routes share (`users` and `notifications`), as
    immutable values, with the schema's constraints as an invariant and the
    two insert statements the routes issue.

    `CURRENT_TIMESTAMP` is an abstract counter `clock` that every write
    advances; AUTOINCREMENT is a next-id counter per table. */
module Store {
  import opened Base

  /** A JSON value as carried in a request's `data` payload. */
  datatype Value =
    | Null
    | Bool(b: bool)
    | Num(n: int)
    | Str(s: string)
    | Arr(items: seq<Value>)
    | Obj(fields: map<string, Value>)

  /** A JSON object: the shape of a notification's `data`. */
  type Payload = map<string, Value>

  /** A row of `users`. `pushToken` is the nullable `expo_push_token`. */
  datatype User = User(
    id: int,
    email: string,
    password: string,
    pushToken: Option<string>,
    createdAt: nat,
    updatedAt: nat)

  /** The caller-supplied columns of one `notifications` insert. */
  datatype Entry = Entry(
    userId: int,
    title: string,
    body: string,
    data: string,
    status: string,
    ticketId: Option<string>)

  /** A row of `notifications`: an entry plus the columns the database fills in. */
  datatype Record = Record(id: int, entry: Entry, sentAt: nat, createdAt: nat)

  /** The whole database. */
  datatype Db = Db(
    users: seq<User>,
    ledger: seq<Record>,
    nextUserId: int,
    nextRecordId: int,
    clock: nat)

  /** The state of a freshly created database. */
  function EmptyDb(): (db: Db)
    ensures Wf(db)
    ensures db.users == [] && db.ledger == []
  {
    Db([], [], 1, 1, 0)
  }

  /** The schema's constraints, plus the orderings the counters induce:
      user ids are a positive AUTOINCREMENT primary key, emails are UNIQUE,
      record ids and creation times grow with insertion order, and every
      record's `user_id` references an existing user (the FOREIGN KEY). */
  ghost predicate Wf(db: Db)
  {
    && 0 < db.nextUserId && 0 < db.nextRecordId
    && (forall i :: 0 <= i < |db.users| ==> 0 < db.users[i].id < db.nextUserId)
    && (forall i, j :: 0 <= i < j < |db.users| ==> db.users[i].id < db.users[j].id)
    && (forall i, j :: 0 <= i < j < |db.users| ==> db.users[i].email != db.users[j].email)
    && (forall i :: 0 <= i < |db.ledger| ==> 0 < db.ledger[i].id < db.nextRecordId)
    && (forall i :: 0 <= i < |db.ledger| ==> db.ledger[i].createdAt < db.clock)
    && (forall i, j :: 0 <= i < j < |db.ledger| ==>
          db.ledger[i].id < db.ledger[j].id && db.ledger[i].createdAt < db.ledger[j].createdAt)
    && (forall i :: 0 <= i < |db.ledger| ==> HasUser(db.users, db.ledger[i].entry.userId))
  }

  predicate HasUser(users: seq<User>, id: int)
  {
    exists i :: 0 <= i < |users| && users[i].id == id
  }

  /** `SELECT ... FROM users WHERE id = ?`: the first row with that id. */
  function FindById(users: seq<User>, id: int): (r: Option<User>)
    ensures r.Some? ==> r.value in users && r.value.id == id
    ensures r.None? <==> !HasUser(users, id)
  {
    if users == [] then None
    else if users[0].id == id then Some(users[0])
    else FindById(users[1..], id)
  }

  /** `SELECT ... FROM users WHERE email = ?`: the first row with that email. */
  function FindByEmail(users: seq<User>, email: string): (r: Option<User>)
    ensures r.Some? ==> r.value in users && r.value.email == email
    ensures r.None? <==> forall u :: u in users ==> u.email != email
  {
    if users == [] then None
    else if users[0].email == email then Some(users[0])
    else FindByEmail(users[1..], email)
  }

  /** Under the primary-key constraint, the row `FindById` returns is THE row
      with that id. */
  lemma {:induction false} FindByIdUnique(db: Db, k: nat)
    requires Wf(db)
    requires k < |db.users|
    ensures FindById(db.users, db.users[k].id) == Some(db.users[k])
  {
    var r := FindById(db.users, db.users[k].id);
    assert r.Some?;
    var j :| 0 <= j < |db.users| && db.users[j] == r.value;
  }

  /** One `INSERT INTO notifications`: the row gets the next id and the
      current time as both `sent_at` and `created_at`. */
  function Insert(db: Db, e: Entry): (db': Db)
    ensures db'.users == db.users
    ensures db'.ledger == db.ledger + [Record(db.nextRecordId, e, db.clock, db.clock)]
    ensures db'.clock > db.clock && db'.nextRecordId > db.nextRecordId
  {
    db.(ledger := db.ledger + [Record(db.nextRecordId, e, db.clock, db.clock)],
        nextRecordId := db.nextRecordId + 1,
        clock := db.clock + 1)
  }

  /** The entries of a sequence of records, in order. */
  function Entries(rs: seq<Record>): (es: seq<Entry>)
    ensures |es| == |rs|
    ensures forall i :: 0 <= i < |rs| ==> es[i] == rs[i].entry
  {
    seq(|rs|, i requires 0 <= i < |rs| => rs[i].entry)
  }

  /** A loop of separate inserts, one per entry, in order (no transaction). */
  function InsertAll(db: Db, es: seq<Entry>): (db': Db)
    decreases |es|
    ensures db'.users == db.users
    ensures |db'.ledger| == |db.ledger| + |es|
    ensures db'.ledger[..|db.ledger|] == db.ledger
    ensures Entries(db'.ledger[|db.ledger|..]) == es
    ensures db'.clock == db.clock + |es|
    ensures db'.nextRecordId == db.nextRecordId + |es|
    ensures forall i :: 0 <= i < |es| ==>
              db'.ledger[|db.ledger| + i] == Record(db.nextRecordId + i, es[i], db.clock + i, db.clock + i)
  {
    if es == [] then db
    else
      var db1 := Insert(db, es[0]);
      var db' := InsertAll(db1, es[1..]);
      assert db'.ledger[..|db1.ledger|] == db1.ledger;
      assert db'.ledger[|db.ledger|] == db1.ledger[|db.ledger|];
      db'
  }

  /** One insert of an entry that references an existing user keeps the
      database well formed. */
  lemma InsertPreservesWf(db: Db, e: Entry)
    requires Wf(db)
    requires HasUser(db.users, e.userId)
    ensures Wf(Insert(db, e))
  {
    var db' := Insert(db, e);
    assert forall i :: 0 <= i < |db.ledger| ==> db'.ledger[i] == db.ledger[i];
  }

  /** Appending entries that reference existing users keeps the database
      well formed. */
  lemma {:induction false} InsertAllPreservesWf(db: Db, es: seq<Entry>)
    requires Wf(db)
    requires forall e :: e in es ==> HasUser(db.users, e.userId)
    ensures Wf(InsertAll(db, es))
    decreases |es|
  {
    if es != [] {
      assert es[0] in es;
      InsertPreservesWf(db, es[0]);
      var db1 := Insert(db, es[0]);
      assert forall e :: e in es[1..] ==> e in es;
      InsertAllPreservesWf(db1, es[1..]);
    }
  }
}
