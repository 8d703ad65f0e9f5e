/** The session store (`AuthProvider`): `user`, `token` and `loading`, persisted under
    "ai-study-auth", with the restore effect and the login, signup and logout transitions. */
module AuthContext {
  import opened Common
  import opened Browser
  import opened Wire
  import Api

  /** The provider's three state fields as one value. */
  datatype SessionView = SessionView(user: Option<User>, token: Option<string>, loading: bool)

  /** The `useState` initial values: nobody signed in, still loading. */
  const InitialView := SessionView(None, None, true)

  /** The result of running an effect: it finishes with a new state, or throws part-way. */
  datatype EffectRun = Completed(view: SessionView) | Threw(reason: string)

  /** The restore effect exactly as written: `JSON.parse` is not guarded, so a truthy record
      that does not parse throws before `setLoading(false)` runs. */
  function RestoreAsWritten(stored: Option<Stored>, s: SessionView): (r: EffectRun)
    ensures r.Threw? <==> stored.Some? && stored.value.Unparsable? && StoredTruthy(stored.value)
    ensures r.Completed? ==> !r.view.loading
    ensures r.Completed? && stored.Some? && stored.value.Json? ==>
      r.view == s.(user := stored.value.record.user, token := stored.value.record.token, loading := false)
    ensures r.Completed? && !(stored.Some? && stored.value.Json?) ==> r.view == s.(loading := false)
  {
    if stored.Some? && StoredTruthy(stored.value) then
      match stored.value
      case Unparsable(_) => Threw("SyntaxError")
      case Json(rec) => Completed(SessionView(rec.user, rec.token, false))
    else Completed(s.(loading := false))
  }

  /** The restore effect with the parse guarded as the request interceptor guards it: every
      run ends with `loading` false; a record sets user and token, anything else keeps them;
      and wherever the effect as written completes, the two agree. */
  function RestoreEffect(stored: Option<Stored>, s: SessionView): (t: SessionView)
    ensures !t.loading
    ensures (stored.Some? && stored.value.Json?) ==>
      t.user == stored.value.record.user && t.token == stored.value.record.token
    ensures !(stored.Some? && stored.value.Json?) ==> t.user == s.user && t.token == s.token
    ensures RestoreAsWritten(stored, s).Completed? ==> RestoreAsWritten(stored, s).view == t
  {
    match stored
    case Some(Json(rec)) => SessionView(rec.user, rec.token, false)
    case _ => s.(loading := false)
  }

  /** `error.response?.data?.detail || error.message || fallback`. */
  function ErrorMessage(e: HttpError, fallback: string): (m: string)
    ensures e.response.Some? && Truthy(e.response.value.detail) ==> m == e.response.value.detail.value
    ensures !(e.response.Some? && Truthy(e.response.value.detail)) && e.message != "" ==> m == e.message
    ensures !(e.response.Some? && Truthy(e.response.value.detail)) && e.message == "" ==> m == fallback
    ensures fallback != "" ==> m != ""
  {
    if e.response.Some? && Truthy(e.response.value.detail) then e.response.value.detail.value
    else if e.message != "" then e.message
    else fallback
  }

  /** How an awaited `login`/`signup` settles: resolved, or rejected with `new Error(message)`. */
  datatype Settled = Resolved | Rejected(message: string)

  /** `useAuthHeader`: a bearer header when the in-memory token is truthy, no header otherwise. */
  function AuthHeader(token: Option<string>): (h: map<string, string>)
    ensures Truthy(token) ==> h == map["Authorization" := "Bearer " + token.value]
    ensures !Truthy(token) ==> h == map[]
  {
    if Truthy(token) then map["Authorization" := "Bearer " + token.value] else map[]
  }

  /** The record a successful login writes, `{user: {email}, token}`. */
  function LoginRecord(email: string, token: Option<string>): Stored
  {
    Json(AuthRecord(Some(User(email)), token))
  }

  /** After a login has persisted its record, the request interceptor attaches exactly the
      header `useAuthHeader` derives from the in-memory token. */
  lemma InterceptorAgreesWithAuthHeader(storage: map<string, Stored>, email: string, token: Option<string>)
    ensures Api.WithAuthorization(storage[AuthKey := LoginRecord(email, token)], map[]) == AuthHeader(token)
  {
    var s := storage[AuthKey := LoginRecord(email, token)];
    assert GetItem(s, AuthKey) == Some(LoginRecord(email, token));
  }

  class AuthProvider {
    var user: Option<User>
    var token: Option<string>
    var loading: bool
    const window: Window

    constructor (w: Window)
      ensures window == w && View() == InitialView
    {
      window := w;
      user, token, loading := None, None, true;
    }

    function View(): SessionView
      reads this
    {
      SessionView(user, token, loading)
    }

    /** The mount effect (with the parse guarded): reads storage, never writes it. */
    method Restore()
      modifies this`user, this`token, this`loading
      ensures View() == RestoreEffect(GetItem(window.storage, AuthKey), old(View()))
    {
      var stored := GetItem(window.storage, AuthKey);
      if stored.Some? && StoredTruthy(stored.value) {
        match stored.value
        case Unparsable(_) =>
        case Json(rec) =>
          user := rec.user;
          token := rec.token;
      }
      loading := false;
    }

    /** `login(email, password)` once `POST /auth/login` has settled with `res`. */
    method Login(email: string, password: string, res: Outcome<Body>) returns (sent: Request, r: Settled)
      modifies this`user, this`token, window`storage
      ensures sent == PostLogin(email, password)
      ensures res.Success? ==> (r == Resolved && user == Some(User(email))
        && token == Lookup(res.data, "access_token")
        && window.storage == old(window.storage)[AuthKey := LoginRecord(email, token)])
      ensures res.Failure? ==> (r == Rejected(ErrorMessage(res.error, "Login failed"))
        && user == old(user) && token == old(token) && window.storage == old(window.storage))
    {
      sent := PostLogin(email, password);
      match res
      case Success(body) =>
        var accessToken := Lookup(body, "access_token");
        token := accessToken;
        user := Some(User(email));
        window.storage := window.storage[AuthKey := LoginRecord(email, accessToken)];
        r := Resolved;
      case Failure(error) =>
        r := Rejected(ErrorMessage(error, "Login failed"));
    }

    /** `signup(email, password)`: `POST /auth/signup`, then `login` with the same credentials;
        when that login fails, its message is what signup rejects with. */
    method Signup(email: string, password: string, signupRes: Outcome<Body>, loginRes: Outcome<Body>)
      returns (sent: seq<Request>, r: Settled)
      modifies this`user, this`token, window`storage
      ensures signupRes.Failure? ==> (sent == [PostSignup(email, password)]
        && r == Rejected(ErrorMessage(signupRes.error, "Signup failed"))
        && user == old(user) && token == old(token) && window.storage == old(window.storage))
      ensures signupRes.Success? ==> sent == [PostSignup(email, password), PostLogin(email, password)]
      ensures signupRes.Success? && loginRes.Success? ==> (r == Resolved && user == Some(User(email))
        && token == Lookup(loginRes.data, "access_token")
        && window.storage == old(window.storage)[AuthKey := LoginRecord(email, token)])
      ensures signupRes.Success? && loginRes.Failure? ==> (r == Rejected(ErrorMessage(loginRes.error, "Login failed"))
        && user == old(user) && token == old(token) && window.storage == old(window.storage))
    {
      sent := [PostSignup(email, password)];
      match signupRes
      case Failure(error) =>
        r := Rejected(ErrorMessage(error, "Signup failed"));
      case Success(_) =>
        var loginSent, loginSettled := Login(email, password, loginRes);
        sent := sent + [loginSent];
        match loginSettled
        case Resolved => r := Resolved;
        case Rejected(m) =>
          // the Error thrown by login has no `response`; its message is non-empty
          r := Rejected(ErrorMessage(HttpError(None, m), "Signup failed"));
    }

    /** `logout()`: clears both fields and the persisted record, whatever the state was, so a
        second call changes nothing more. */
    method Logout()
      modifies this`user, this`token, window`storage
      ensures user == None && token == None
      ensures window.storage == old(window.storage) - {AuthKey}
    {
      user := None;
      token := None;
      window.storage := window.storage - {AuthKey};
    }
  }

  /** Two logouts leave the same state as one. */
  method LogoutTwice(p: AuthProvider)
    modifies p, p.window
    ensures p.user == None && p.token == None && p.loading == old(p.loading)
    ensures p.window.storage == old(p.window.storage) - {AuthKey}
  {
    p.Logout();
    ghost var once := p.window.storage;
    p.Logout();
    assert p.window.storage == once;
  }
}
