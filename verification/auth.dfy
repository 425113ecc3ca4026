/** The account routes as transitions over the `users` table: `/register`,
    `/login`, `/me` and `/push-token`. The caller of `/me` and `/push-token`
    is the id the authentication middleware put on the request; JWT signing
    is not modelled, so the replies carry the account but not the token. */
module Auth {
  import opened Base
  import opened Store
  import opened Api

  /** bcrypt, opaque: a hash and a password-against-hash comparison. */
  datatype Bcrypt = Bcrypt(hash: string -> string, compare: (string, string) -> bool)

  /** The shortest password `/register` accepts, in UTF-16 code units. */
  const MinPasswordLength: nat := 6

  /** The `user` object in the `/register` and `/login` replies. */
  datatype Account = Account(id: int, email: string)

  /** The `/me` projection: every column of the row except the password
      hash and `updated_at`. */
  datatype Profile = Profile(id: int, email: string, pushToken: Option<string>, createdAt: nat)

  /** A route's reply and the database after it. */
  datatype Step<T> = Step(resp: Result<T, Error>, db: Db)

  /** Both request fields truthy. */
  predicate CredentialsGiven(email: Option<string>, password: Option<string>)
  {
    Present(email) && Present(password)
  }

  predicate EmailTaken(users: seq<User>, email: string)
  {
    exists u :: u in users && u.email == email
  }

  /** `POST /register`. */
  function Register(db: Db, crypt: Bcrypt, email: Option<string>, password: Option<string>): (out: Step<Account>)
    ensures !CredentialsGiven(email, password) ==> out == Step(Err(MissingCredentials), db)
    ensures CredentialsGiven(email, password) && Utf16Length(password.value) < MinPasswordLength ==>
              out == Step(Err(PasswordTooShort), db)
    ensures (CredentialsGiven(email, password) && Utf16Length(password.value) >= MinPasswordLength
             && EmailTaken(db.users, email.value)) ==> out == Step(Err(EmailInUse), db)
    ensures out.resp.Ok? <==>
              CredentialsGiven(email, password) && Utf16Length(password.value) >= MinPasswordLength
              && !EmailTaken(db.users, email.value)
    ensures out.resp.Ok? ==>
              && out.resp.value == Account(db.nextUserId, email.value)
              && out.db.users == db.users + [User(db.nextUserId, email.value, crypt.hash(password.value), None, db.clock, db.clock)]
              && out.db.ledger == db.ledger
              && out.db.nextUserId > db.nextUserId
  {
    if !Present(email) || !Present(password) then Step(Err(MissingCredentials), db)
    else if Utf16Length(password.value) < MinPasswordLength then Step(Err(PasswordTooShort), db)
    else if FindByEmail(db.users, email.value).Some? then Step(Err(EmailInUse), db)
    else
      var id := db.nextUserId;
      var user := User(id, email.value, crypt.hash(password.value), None, db.clock, db.clock);
      Step(Ok(Account(id, email.value)),
           db.(users := db.users + [user], nextUserId := id + 1, clock := db.clock + 1))
  }

  /** Three astral characters are three Dafny characters but six UTF-16
      code units. */
  lemma AstralPasswordLength()
    ensures |"\U{1F600}\U{1F600}\U{1F600}"| == 3
    ensures Utf16Length("\U{1F600}\U{1F600}\U{1F600}") == 6
  {
    var astral := "\U{1F600}\U{1F600}\U{1F600}";
    assert astral[1..][1..][1..] == [];
    assert Utf16Length(astral[1..][1..]) == 2;
    assert Utf16Length(astral[1..]) == 4;
  }

  /** The length rule counts UTF-16 code units, as JavaScript does: three
      astral characters (six code units) pass it, while five ASCII
      characters do not. */
  lemma PasswordLengthCountsCodeUnits(crypt: Bcrypt)
    ensures Register(EmptyDb(), crypt, Some("a@b"), Some("\U{1F600}\U{1F600}\U{1F600}")).resp.Ok?
    ensures Register(EmptyDb(), crypt, Some("a@b"), Some("abcde")).resp == Err(PasswordTooShort)
  {
    AstralPasswordLength();
    assert Utf16Length("abcde") <= 5;
  }

  /** A registration keeps the schema's constraints; in particular no two
      users ever share an email. */
  lemma RegisterPreservesWf(db: Db, crypt: Bcrypt, email: Option<string>, password: Option<string>)
    requires Wf(db)
    ensures Wf(Register(db, crypt, email, password).db)
  {
    var out := Register(db, crypt, email, password);
    if out.resp.Ok? {
      var n := |db.users|;
      assert out.db.users[n].email == email.value;
      assert forall i :: 0 <= i < n ==> out.db.users[i] == db.users[i];
      assert forall i :: 0 <= i < n ==> db.users[i] in db.users;
      forall i | 0 <= i < |out.db.ledger|
        ensures HasUser(out.db.users, out.db.ledger[i].entry.userId)
      {
        var j :| 0 <= j < n && db.users[j].id == db.ledger[i].entry.userId;
        assert out.db.users[j] == db.users[j];
      }
    }
  }

  /** `POST /login`: an unknown email and a wrong password get the same
      error. The route writes nothing, so only the reply is returned. */
  function Login(db: Db, crypt: Bcrypt, email: Option<string>, password: Option<string>): (r: Result<Account, Error>)
    ensures !CredentialsGiven(email, password) ==> r == Err(MissingCredentials)
    ensures CredentialsGiven(email, password) && r.Err? ==> r.error == InvalidCredentials
    ensures CredentialsGiven(email, password) && !EmailTaken(db.users, email.value) ==> r == Err(InvalidCredentials)
    ensures r.Ok? ==> exists u :: u in db.users && u.email == email.value
                        && crypt.compare(password.value, u.password) && r.value == Account(u.id, u.email)
  {
    if !Present(email) || !Present(password) then Err(MissingCredentials)
    else
      match FindByEmail(db.users, email.value)
      case None => Err(InvalidCredentials)
      case Some(u) =>
        if !crypt.compare(password.value, u.password) then Err(InvalidCredentials)
        else Ok(Account(u.id, u.email))
  }

  /** Under the UNIQUE email constraint, login succeeds exactly for the one
      account with that email whose stored hash matches the password. */
  lemma LoginSucceedsIff(db: Db, crypt: Bcrypt, email: string, password: string, k: nat)
    requires Wf(db)
    requires email != "" && password != ""
    requires k < |db.users| && db.users[k].email == email
    ensures Login(db, crypt, Some(email), Some(password)).Ok? <==> crypt.compare(password, db.users[k].password)
    ensures Login(db, crypt, Some(email), Some(password)).Ok? ==>
              Login(db, crypt, Some(email), Some(password)).value == Account(db.users[k].id, email)
  {
    var found := FindByEmail(db.users, email);
    assert found.Some?;
    var j :| 0 <= j < |db.users| && db.users[j] == found.value;
    assert j == k;
  }

  /** `GET /me`. */
  function Me(db: Db, caller: int): (r: Result<Profile, Error>)
    ensures r.Err? <==> !HasUser(db.users, caller)
    ensures r.Err? ==> r.error == UserNotFound
    ensures r.Ok? ==> exists u :: u in db.users && u.id == caller
                        && r.value == Profile(u.id, u.email, u.pushToken, u.createdAt)
  {
    match FindById(db.users, caller)
    case None => Err(UserNotFound)
    case Some(u) => Ok(Profile(u.id, u.email, u.pushToken, u.createdAt))
  }

  /** `POST /push-token`: the token is stored on the caller's row as given,
      with no format check. An unknown caller updates no row and still gets
      a success reply. */
  function SetPushToken(db: Db, caller: int, token: Option<string>): (out: Step<()>)
    ensures !Present(token) ==> out == Step(Err(MissingPushToken), db)
    ensures Present(token) ==> out.resp.Ok?
    ensures out.db.ledger == db.ledger
    ensures |out.db.users| == |db.users|
    ensures forall i :: 0 <= i < |db.users| ==>
              var (u, u') := (db.users[i], out.db.users[i]);
              && u'.id == u.id && u'.email == u.email && u'.password == u.password && u'.createdAt == u.createdAt
              && (u.id == caller && Present(token) ==> u'.pushToken == token)
              && (u.id != caller || !Present(token) ==> u' == u)
  {
    if !Present(token) then Step(Err(MissingPushToken), db)
    else
      var users' := MapSeq((u: User) => if u.id == caller then u.(pushToken := token, updatedAt := db.clock) else u,
                           db.users);
      Step(Ok(()), db.(users := users', clock := db.clock + 1))
  }

  /** Updating a push token keeps the schema's constraints. */
  lemma SetPushTokenPreservesWf(db: Db, caller: int, token: Option<string>)
    requires Wf(db)
    ensures Wf(SetPushToken(db, caller, token).db)
  {
    var db' := SetPushToken(db, caller, token).db;
    forall i | 0 <= i < |db'.ledger|
      ensures HasUser(db'.users, db'.ledger[i].entry.userId)
    {
      var j :| 0 <= j < |db.users| && db.users[j].id == db.ledger[i].entry.userId;
      assert db'.users[j].id == db.users[j].id;
    }
  }

  /** The HTTP status of every failing account route: a login failure with
      both credentials given is a 401, a missing `/me` user is a 404, and
      every other refusal of `/register`, `/login` and `/push-token` is a
      400. */
  lemma AccountRouteStatusCodes(db: Db, crypt: Bcrypt, email: Option<string>, password: Option<string>,
                                caller: int, token: Option<string>)
    ensures Register(db, crypt, email, password).resp.Err? ==> Code(Register(db, crypt, email, password).resp.error) == 400
    ensures Login(db, crypt, email, password).Err? ==>
              Code(Login(db, crypt, email, password).error) == (if CredentialsGiven(email, password) then 401 else 400)
    ensures Me(db, caller).Err? ==> Code(Me(db, caller).error) == 404
    ensures SetPushToken(db, caller, token).resp.Err? ==> Code(SetPushToken(db, caller, token).resp.error) == 400
  {
  }

  /** Round trip: after a successful registration, `/me` for the returned id
      shows the registered email and no push token yet. */
  lemma RegisterThenMe(db: Db, crypt: Bcrypt, email: Option<string>, password: Option<string>)
    requires Wf(db)
    requires Register(db, crypt, email, password).resp.Ok?
    ensures var out := Register(db, crypt, email, password);
            Me(out.db, out.resp.value.id) == Ok(Profile(out.resp.value.id, email.value, None, db.clock))
  {
    var out := Register(db, crypt, email, password);
    var n := |db.users|;
    assert out.db.users[n].id == db.nextUserId;
    RegisterPreservesWf(db, crypt, email, password);
    FindByIdUnique(out.db, n);
  }

  /** Round trip: after a successful registration, logging in with the same
      password succeeds for the new account, given that bcrypt accepts a
      password against its own hash. */
  lemma RegisterThenLogin(db: Db, crypt: Bcrypt, email: Option<string>, password: Option<string>)
    requires Wf(db)
    requires Register(db, crypt, email, password).resp.Ok?
    requires crypt.compare(password.value, crypt.hash(password.value))
    ensures var out := Register(db, crypt, email, password);
            Login(out.db, crypt, email, password) == Ok(out.resp.value)
  {
    var out := Register(db, crypt, email, password);
    RegisterPreservesWf(db, crypt, email, password);
    LoginSucceedsIff(out.db, crypt, email.value, password.value, |db.users|);
  }

  /** A second registration with the same email is refused and changes
      nothing. */
  lemma RegisterTwiceRefused(db: Db, crypt: Bcrypt, email: Option<string>, password: Option<string>, password2: Option<string>)
    requires Register(db, crypt, email, password).resp.Ok?
    requires Present(password2) && Utf16Length(password2.value) >= MinPasswordLength
    ensures var db1 := Register(db, crypt, email, password).db;
            Register(db1, crypt, email, password2) == Step(Err(EmailInUse), db1)
  {
    var db1 := Register(db, crypt, email, password).db;
    assert db1.users[|db.users|] in db1.users;
  }

  /** Round trip: after a push-token update by an existing user, `/me`
      reports the new token. */
  lemma SetPushTokenThenMe(db: Db, caller: int, token: string)
    requires Wf(db)
    requires HasUser(db.users, caller)
    requires token != ""
    ensures Me(SetPushToken(db, caller, Some(token)).db, caller).Ok?
    ensures Me(SetPushToken(db, caller, Some(token)).db, caller).value.pushToken == Some(token)
  {
    var db' := SetPushToken(db, caller, Some(token)).db;
    SetPushTokenPreservesWf(db, caller, Some(token));
    var k :| 0 <= k < |db.users| && db.users[k].id == caller;
    FindByIdUnique(db', k);
  }
}
