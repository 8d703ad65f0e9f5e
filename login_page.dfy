/** The login form: the `isSignup` toggle and the `handleSubmit` state machine over `loading`
    and `error`, driving the session store. */
module LoginPage {
  import opened Common
  import opened Wire
  import opened AuthContext

  /** Shown when the rejection carries no message. */
  const SubmitFallback := "Authentication failed. Please check your credentials."

  class LoginForm {
    var isSignup: bool
    var email: string
    var password: string
    var loading: bool
    var error: string
    /** The last `navigate(...)` target, if the form has navigated. */
    var navigatedTo: Option<string>
    const auth: AuthProvider

    constructor (auth: AuthProvider)
      ensures this.auth == auth
      ensures !isSignup && email == "" && password == "" && !loading && error == "" && navigatedTo == None
    {
      this.auth := auth;
      isSignup, email, password, loading, error, navigatedTo := false, "", "", false, "", None;
    }

    /** The link under the form flips between logging in and signing up. */
    method ToggleSignup()
      modifies this`isSignup
      ensures isSignup == !old(isSignup)
    {
      isSignup := !isSignup;
    }

    /** The submit button is disabled exactly while a submission is in flight. */
    function SubmitDisabled(): (d: bool)
      reads this
      ensures d <==> loading
    {
      loading
    }

    /** The part of `handleSubmit` before its await: busy, and the old error cleared. */
    method BeginSubmit()
      modifies this`loading, this`error
      ensures loading && error == ""
      ensures SubmitDisabled()
    {
      loading := true;
      error := "";
    }

    /** The part after the await: navigate home on success, show the message otherwise, and
        clear `loading` in either case. */
    method FinishSubmit(r: Settled)
      modifies this`loading, this`error, this`navigatedTo
      ensures !loading && !SubmitDisabled()
      ensures r.Resolved? ==> navigatedTo == Some("/") && error == old(error)
      ensures r.Rejected? ==> (navigatedTo == old(navigatedTo)
        && error == (if r.message != "" then r.message else SubmitFallback))
    {
      if r.Resolved? {
        navigatedTo := Some("/");
      } else {
        error := if r.message != "" then r.message else SubmitFallback;
      }
      loading := false;
    }

    /** The whole handler: `signup` when toggled to sign up, `login` otherwise, with the typed
        email and password; it ends not loading, and either navigated home or showing an error. */
    method Submit(signupRes: Outcome<Body>, loginRes: Outcome<Body>) returns (sent: seq<Request>)
      modifies this`loading, this`error, this`navigatedTo, auth`user, auth`token, auth.window`storage
      ensures old(isSignup) ==> |sent| >= 1 && sent[0] == PostSignup(old(email), old(password))
      ensures !old(isSignup) ==> sent == [PostLogin(old(email), old(password))]
      ensures !loading && !SubmitDisabled()
      ensures navigatedTo == Some("/") || (navigatedTo == old(navigatedTo) && error != "")
      ensures auth.loading == old(auth.loading)
    {
      BeginSubmit();
      var r: Settled;
      if isSignup {
        sent, r := auth.Signup(email, password, signupRes, loginRes);
      } else {
        var one;
        one, r := auth.Login(email, password, loginRes);
        sent := [one];
      }
      FinishSubmit(r);
    }
  }
}
