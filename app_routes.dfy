/**
 * frontend/src/App.jsx: the two route guards and the route table. A guard's outcome is what it
 * renders: the loading placeholder, its children, or a `<Navigate replace>` to another path.
 */
module AppRoutes {

  import opened Wrappers
  import opened Text

  datatype Page = LoginPage | RegisterPage | HomePage

  /** What an element renders. */
  datatype Screen = Placeholder | Show(page: Page) | Redirect(to: string)

  /** The guard wrapping a page. */
  datatype Guard = Public | Protected

  /** A route's element: a bare redirect, or a page behind a guard. */
  datatype Element = RedirectElement(to: string) | Guarded(guard: Guard, page: Page)

  /** `ProtectedRoute`: the placeholder while loading, then the page only when signed in. */
  function ProtectedRoute(isLoading: bool, isAuthenticated: bool, page: Page): (s: Screen)
    ensures isLoading <==> s == Placeholder
    ensures !isLoading ==> (s == Show(page) <==> isAuthenticated)
    ensures !isLoading && !isAuthenticated ==> s == Redirect("/login")
  {
    if isLoading then Placeholder
    else if isAuthenticated then Show(page)
    else Redirect("/login")
  }

  /** `PublicRoute`: the placeholder while loading, then the page only when signed out. */
  function PublicRoute(isLoading: bool, isAuthenticated: bool, page: Page): (s: Screen)
    ensures isLoading <==> s == Placeholder
    ensures !isLoading ==> (s == Show(page) <==> !isAuthenticated)
    ensures !isLoading && isAuthenticated ==> s == Redirect("/home")
  {
    if isLoading then Placeholder
    else if !isAuthenticated then Show(page)
    else Redirect("/home")
  }

  /** A path without the slashes it ends with. */
  function DropTrailingSlashes(s: string): (q: string)
    ensures |q| <= |s| && q == s[..|q|]
    ensures q == [] || q[|q| - 1] != '/'
    ensures forall k :: |q| <= k < |s| ==> s[k] == '/'
  {
    if s != [] && s[|s| - 1] == '/' then DropTrailingSlashes(s[..|s| - 1]) else s
  }

  /**
   * The form react-router matches a path in: route paths are not case-sensitive and trailing
   * slashes are ignored, so the path is lowered and its trailing slashes dropped ("/" stays).
   */
  function Canonical(path: string): (c: string)
    ensures c != []
  {
    var q := DropTrailingSlashes(Lower(path));
    if q == [] then "/" else q
  }

  /** `AppRoutes`: the element for a path; any other path matches no route. */
  function RouteFor(path: string): (e: Option<Element>)
    ensures e.Some? <==> Canonical(path) in {"/", "/login", "/register", "/home"}
    ensures Canonical(path) == "/" ==> e == Some(RedirectElement("/login"))
    ensures e.Some? && e.value.Guarded? ==> (e.value.guard == Protected <==> e.value.page == HomePage)
  {
    var p := Canonical(path);
    if p == "/" then Some(RedirectElement("/login"))
    else if p == "/login" then Some(Guarded(Public, LoginPage))
    else if p == "/register" then Some(Guarded(Public, RegisterPage))
    else if p == "/home" then Some(Guarded(Protected, HomePage))
    else None
  }

  /** A path with no capital letter and no trailing slash is already canonical. */
  lemma CanonicalWhenClean(p: string)
    requires p != [] && p[|p| - 1] != '/'
    requires forall k :: 0 <= k < |p| ==> !('A' <= p[k] <= 'Z')
    ensures Canonical(p) == p
  {
    LowerWithoutCapitals(p);
    assert DropTrailingSlashes(p) == p;
  }

  /** The four route paths are already in canonical form. */
  lemma RoutePathCanonical(p: string)
    requires p in {"/", "/login", "/register", "/home"}
    ensures Canonical(p) == p
  {
    if p == "/" {
      LowerWithoutCapitals("/");
      assert DropTrailingSlashes("/") == DropTrailingSlashes("");
    } else {
      CanonicalWhenClean(p);
    }
  }

  /** Trailing slashes do not change the canonical form. */
  lemma CanonicalIgnoresSlash(path: string)
    ensures Canonical(path + "/") == Canonical(path)
  {
    var l := Lower(path);
    LowerAppend(path, "/");
    LowerWithoutCapitals("/");
    assert Lower(path + "/") == l + "/";
    assert (l + "/")[..|l + "/"| - 1] == l;
  }

  /** A path is routed like its lower-case form and like itself with a trailing slash. */
  lemma RouteIgnoresCaseAndSlash(path: string)
    ensures RouteFor(Lower(path)) == RouteFor(path)
    ensures RouteFor(path + "/") == RouteFor(path)
  {
    LowerIdempotent(path);
    assert Canonical(Lower(path)) == Canonical(path);
    CanonicalIgnoresSlash(path);
  }

  /** What visiting a path renders; `None` for a path with no route. */
  function Visit(path: string, isLoading: bool, isAuthenticated: bool): Option<Screen> {
    match RouteFor(path)
    case None => None
    case Some(RedirectElement(to)) => Some(Redirect(to))
    case Some(Guarded(Public, page)) => Some(PublicRoute(isLoading, isAuthenticated, page))
    case Some(Guarded(Protected, page)) => Some(ProtectedRoute(isLoading, isAuthenticated, page))
  }

  /** Follows at most `hops` redirects from a path and reports where it ends. */
  function Follow(path: string, isLoading: bool, isAuthenticated: bool, hops: nat): Option<Screen>
    decreases hops
  {
    match Visit(path, isLoading, isAuthenticated)
    case Some(Redirect(to)) => if hops == 0 then Some(Redirect(to)) else Follow(to, isLoading, isAuthenticated, hops - 1)
    case other => other
  }

  /** Once loading is over, the home page is shown exactly when signed in, and the public pages exactly when signed out. */
  lemma GuardsSeparatePages(path: string, isAuthenticated: bool, page: Page)
    ensures Visit(path, false, isAuthenticated) == Some(Show(page)) ==> (page == HomePage <==> isAuthenticated)
  {
  }

  /** Once loading is over, /login shows the login page when signed out, and otherwise leads on to /home. */
  lemma LoginTarget(isAuthenticated: bool)
    ensures Visit("/login", false, isAuthenticated) == Some(PublicRoute(false, isAuthenticated, LoginPage))
  {
    RoutePathCanonical("/login");
  }

  /** Once loading is over, /home shows the home page when signed in, and otherwise leads on to /login. */
  lemma HomeTarget(isAuthenticated: bool)
    ensures Visit("/home", false, isAuthenticated) == Some(ProtectedRoute(false, isAuthenticated, HomePage))
  {
    RoutePathCanonical("/home");
  }

  /** From /login, one more hop reaches the page that belongs to the session. */
  lemma LoginSettles(isAuthenticated: bool)
    ensures Follow("/login", false, isAuthenticated, 1) == Some(Show(if isAuthenticated then HomePage else LoginPage))
  {
    LoginTarget(isAuthenticated);
    if isAuthenticated {
      HomeTarget(isAuthenticated);
      assert Follow("/login", false, isAuthenticated, 1) == Follow("/home", false, isAuthenticated, 0);
    }
  }

  /** From /home, one more hop reaches the page that belongs to the session. */
  lemma HomeSettles(isAuthenticated: bool)
    ensures Follow("/home", false, isAuthenticated, 1) == Some(Show(if isAuthenticated then HomePage else LoginPage))
  {
    HomeTarget(isAuthenticated);
    if !isAuthenticated {
      LoginTarget(isAuthenticated);
      assert Follow("/home", false, isAuthenticated, 1) == Follow("/login", false, isAuthenticated, 0);
    }
  }

  /** What a routed path renders first once loading is over, by its canonical form. */
  lemma FirstStep(path: string, isAuthenticated: bool)
    requires RouteFor(path).Some?
    ensures var c := Canonical(path);
            Visit(path, false, isAuthenticated) ==
              if c == "/" then Some(Redirect("/login"))
              else if c == "/home" then Some(ProtectedRoute(false, isAuthenticated, HomePage))
              else Some(PublicRoute(false, isAuthenticated, if c == "/register" then RegisterPage else LoginPage))
  {
  }

  /**
   * Every route settles within two redirects once loading is over: signed in, on the home
   * page; signed out, on the login page, or on the register page when that was asked for.
   */
  lemma RoutesSettle(path: string, isAuthenticated: bool)
    requires RouteFor(path).Some?
    ensures Follow(path, false, isAuthenticated, 2) ==
              Some(Show(if isAuthenticated then HomePage else if Canonical(path) == "/register" then RegisterPage else LoginPage))
  {
    LoginSettles(isAuthenticated);
    HomeSettles(isAuthenticated);
    FirstStep(path, isAuthenticated);
  }
}
