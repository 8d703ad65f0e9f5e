/** The backend's signup and login over the users table. Hashing, password checking and token
    signing are the functions `hash`, `verify` and `createToken`; a failing database call is
    described by `DbFault`. */
module Auth {
  import opened Common
  import opened Schemas
  import opened Tables

  type Body = map<string, string>

  /** Whether, and where, the database raises an exception other than an `HTTPException`. */
  datatype DbFault = NoFault | FailsAtLookup(message: string) | FailsAtInsert(message: string)

  /** The token payload: the subject and the lifetime in hours. */
  datatype Claims = Claims(sub: string, expiresInHours: int)

  const TokenLifetimeHours := 24

  const EmailAlreadyRegistered := HttpException(400, "Email already registered")

  const InvalidCredentials := HttpException(400, "Invalid credentials")

  predicate EmailTaken(users: seq<UserRow>, email: string)
  {
    exists j :: 0 <= j < |users| && users[j].email == email
  }

  predicate UniqueEmails(users: seq<UserRow>)
  {
    forall i, j :: 0 <= i < j < |users| ==> users[i].email != users[j].email
  }

  /** `signup`: a registered email is refused and nothing is inserted; otherwise one row with the
      email and the password's hash, and the reply carries only id and email. */
  method Signup(db: Database, payload: UserCreate, hash: string -> string, newId: string, fault: DbFault)
    returns (r: Result<Body, HttpException>)
    requires db.Valid()
    requires forall j :: 0 <= j < |db.users| ==> db.users[j].id != newId
    modifies db`users
    ensures db.Valid()
    ensures fault.FailsAtLookup? ==>
      r == Err(HttpException(500, "Signup failed: " + fault.message)) && db.users == old(db.users)
    ensures !fault.FailsAtLookup? && EmailTaken(old(db.users), payload.email) ==>
      r == Err(EmailAlreadyRegistered) && db.users == old(db.users)
    ensures fault.FailsAtInsert? && !EmailTaken(old(db.users), payload.email) ==>
      r == Err(HttpException(500, "Signup failed: " + fault.message)) && db.users == old(db.users)
    ensures fault.NoFault? && !EmailTaken(old(db.users), payload.email) ==>
      db.users == old(db.users) + [UserRow(newId, payload.email, hash(payload.password))]
      && r == Ok(map["id" := newId, "email" := payload.email])
    ensures UniqueEmails(old(db.users)) ==> UniqueEmails(db.users)
  {
    if fault.FailsAtLookup? {
      return Err(HttpException(500, "Signup failed: " + fault.message));
    }
    if EmailTaken(db.users, payload.email) {
      return Err(EmailAlreadyRegistered);
    }
    if fault.FailsAtInsert? {
      return Err(HttpException(500, "Signup failed: " + fault.message));
    }
    var hashed := hash(payload.password);
    db.users := db.users + [UserRow(newId, payload.email, hashed)];
    r := Ok(map["id" := newId, "email" := payload.email]);
  }

  /** `.eq("email", email).limit(1)` on the users table. */
  function FirstUserByEmail(users: seq<UserRow>, email: string): (u: Option<UserRow>)
    ensures u.None? <==> !EmailTaken(users, email)
    ensures u.Some? ==> u.value in users && u.value.email == email
    ensures u.Some? ==> exists k :: (0 <= k < |users| && users[k] == u.value
      && forall j :: 0 <= j < k ==> users[j].email != email)
    ensures u.Some? && UniqueEmails(users) ==> forall j :: 0 <= j < |users| && users[j].email == email ==> users[j] == u.value
  {
    if |users| == 0 then None
    else if users[0].email == email then Some(users[0])
    else
      var u := FirstUserByEmail(users[1..], email);
      assert EmailTaken(users, email) <==> EmailTaken(users[1..], email) by {
        if j :| 0 <= j < |users| && users[j].email == email {
          assert users[1..][j - 1] == users[j];
        }
      }
      u
  }

  /** `login`: an unknown email and a wrong password give the same 400; a match gives a bearer
      token whose subject is the user's id and whose lifetime is 24 hours. */
  function Login(users: seq<UserRow>, payload: UserLogin, verify: (string, string) -> bool,
                 createToken: Claims -> string, fault: Option<string>): (r: Result<Body, HttpException>)
    ensures fault.Some? ==> r == Err(HttpException(500, "Login failed: " + fault.value))
    ensures fault.None? && r.Err? ==> r.error == InvalidCredentials
    ensures fault.None? && !EmailTaken(users, payload.email) ==> r == Err(InvalidCredentials)
    ensures r.Ok? ==> (FirstUserByEmail(users, payload.email).Some?
      && var u := FirstUserByEmail(users, payload.email).value;
      verify(payload.password, u.passwordHash)
      && r.value == map["access_token" := createToken(Claims(u.id, TokenLifetimeHours)), "token_type" := "bearer"])
    ensures (fault.None? && FirstUserByEmail(users, payload.email).Some?
      && verify(payload.password, FirstUserByEmail(users, payload.email).value.passwordHash)) ==> r.Ok?
  {
    if fault.Some? then Err(HttpException(500, "Login failed: " + fault.value))
    else match FirstUserByEmail(users, payload.email)
      case None => Err(InvalidCredentials)
      case Some(u) =>
        if !verify(payload.password, u.passwordHash) then Err(InvalidCredentials)
        else Ok(map["access_token" := createToken(Claims(u.id, TokenLifetimeHours)), "token_type" := "bearer"])
  }

  /** A wrong password and an unregistered email cannot be told apart from the reply. */
  lemma WrongPasswordLooksUnregistered(users: seq<UserRow>, others: seq<UserRow>, payload: UserLogin,
                                       verify: (string, string) -> bool, createToken: Claims -> string)
    requires EmailTaken(users, payload.email)
    requires !verify(payload.password, FirstUserByEmail(users, payload.email).value.passwordHash)
    requires !EmailTaken(others, payload.email)
    ensures Login(users, payload, verify, createToken, None) == Login(others, payload, verify, createToken, None)
  {
  }

  /** After a signup, logging in with the same password (which `verify` accepts against its own
      hash) issues a token for the new user's id. */
  lemma {:induction false} LoginAfterSignup(users: seq<UserRow>, email: string, password: string, newId: string,
                                            hash: string -> string, verify: (string, string) -> bool,
                                            createToken: Claims -> string)
    requires !EmailTaken(users, email)
    requires verify(password, hash(password))
    ensures Login(users + [UserRow(newId, email, hash(password))], UserLogin(email, password), verify, createToken, None)
      == Ok(map["access_token" := createToken(Claims(newId, TokenLifetimeHours)), "token_type" := "bearer"])
  {
    FirstUserAfterAppend(users, UserRow(newId, email, hash(password)));
  }

  lemma {:induction false} FirstUserAfterAppend(users: seq<UserRow>, u: UserRow)
    requires !EmailTaken(users, u.email)
    ensures FirstUserByEmail(users + [u], u.email) == Some(u)
  {
    if |users| == 0 {
      assert users + [u] == [u];
    } else {
      assert (users + [u])[1..] == users[1..] + [u];
      assert forall j :: 0 <= j < |users[1..]| ==> users[1..][j] == users[j + 1];
      FirstUserAfterAppend(users[1..], u);
      assert users[0].email != u.email;
    }
  }
}
