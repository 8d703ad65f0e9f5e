/** The route table and its `PrivateRoute` guard, as functions of the session store's
    `loading` and `user`. */
module AppRouter {
  import opened Common
  import opened Browser
  import AuthContext

  /** What `PrivateRoute` returns: `null`, a `<Navigate replace>`, or its children. */
  datatype Rendered = Nothing | RedirectTo(path: string) | Children

  /** Nothing while the session is loading, a redirect to "/login" without a user, and the
      guarded subtree with one; the three cases exclude each other. */
  function PrivateRoute(loading: bool, user: Option<User>): (r: Rendered)
    ensures r == Nothing <==> loading
    ensures r == RedirectTo("/login") <==> !loading && user.None?
    ensures r == Children <==> !loading && user.Some?
  {
    if loading then Nothing
    else if user.None? then RedirectTo("/login")
    else Children
  }

  datatype Page = LoginPage | Dashboard | Notes | Chat | Questions | Planner | Settings

  /** What the router shows for a location: a blank screen, a redirect, or a page. */
  datatype Screen = Blank | Navigate(to: string) | Show(page: Page)

  /** The pages nested under the guarded "/" route, by path. */
  function GuardedPage(path: string): Option<Page>
  {
    if path == "/" then Some(Dashboard)
    else if path == "/notes" then Some(Notes)
    else if path == "/chat" then Some(Chat)
    else if path == "/questions" then Some(Questions)
    else if path == "/planner" then Some(Planner)
    else if path == "/settings" then Some(Settings)
    else None
  }

  /** The route table: "/login" is unguarded, the app pages sit behind the guard, and every other
      path redirects to "/". */
  function RouteScreen(path: string, loading: bool, user: Option<User>): (s: Screen)
    ensures path == "/login" ==> s == Show(LoginPage)
    ensures path != "/login" && GuardedPage(path).None? ==> s == Navigate("/")
    ensures s.Show? && s.page != LoginPage ==> !loading && user.Some? && GuardedPage(path) == Some(s.page)
    ensures GuardedPage(path).Some? && loading ==> s == Blank
    ensures GuardedPage(path).Some? && !loading && user.None? ==> s == Navigate("/login")
    ensures GuardedPage(path).Some? && !loading && user.Some? ==> s == Show(GuardedPage(path).value)
  {
    if path == "/login" then Show(LoginPage)
    else match GuardedPage(path)
      case None => Navigate("/")
      case Some(p) =>
        match PrivateRoute(loading, user)
        case Nothing => Blank
        case RedirectTo(to) => Navigate(to)
        case Children => Show(p)
  }

  /** Following the router's redirects from any path ends, after at most two of them, on a blank
      screen or a page, and on a page other than the login page only with a signed-in user. */
  lemma RedirectsSettle(path: string, loading: bool, user: Option<User>)
    ensures var s1 := RouteScreen(path, loading, user);
      s1.Navigate? ==>
        var s2 := RouteScreen(s1.to, loading, user);
        s2.Navigate? ==> RouteScreen(s2.to, loading, user) == Show(LoginPage)
  {
    var s1 := RouteScreen(path, loading, user);
    if s1.Navigate? {
      assert s1.to == "/" || s1.to == "/login";
    }
  }

  /** The restore effect as written on a stored record that does not parse: it throws before
      clearing `loading`, and with `loading` still true every guarded page stays blank. */
  lemma MalformedRecordLeavesAppBlank(path: string)
    requires GuardedPage(path).Some?
    ensures AuthContext.RestoreAsWritten(Some(Unparsable("{")), AuthContext.InitialView).Threw?
    ensures RouteScreen(path, AuthContext.InitialView.loading, AuthContext.InitialView.user) == Blank
    ensures RouteScreen(path, AuthContext.RestoreEffect(Some(Unparsable("{")), AuthContext.InitialView).loading,
                        AuthContext.RestoreEffect(Some(Unparsable("{")), AuthContext.InitialView).user) == Navigate("/login")
  {
  }
}
