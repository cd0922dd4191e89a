/** The application shell (src/SemanticAppLayout.tsx): the user state shared
    through the user context, the language selection, the navigation bar and
    the route table. */
module SemanticAppLayout {
  import opened Wrappers
  import opened UserContext
  import opened Storage

  // ------------------------------------------------------------ route table

  /** The element a route renders. */
  datatype View =
    | HomePage | LoginPage | LogoutPage | CreateUserPage | UpdateUserPage
    | DeleteUserPage | CartHistoryPage | ShoppingCartPage | AccessDeniedPage | NotFoundPage

  datatype Pattern = Path(path: string) | AnyPath

  datatype Route = Route(pattern: Pattern, view: View)

  predicate Matches(p: Pattern, path: string)
  {
    p.AnyPath? || p.path == path
  }

  /** The `<Routes>` children in declaration order; the conditional group
      depends on `user.isLoggedIn`. */
  function Routes(isLoggedIn: bool): (table: seq<Route>)
    ensures |table| == 11 && table[10] == Route(AnyPath, NotFoundPage)
  {
    [ Route(Path("/"), HomePage),
      Route(Path("/login"), LoginPage),
      Route(Path("/logout"), LogoutPage),
      Route(Path("/home"), HomePage),
      Route(Path("/create-user"), CreateUserPage) ]
    + (if isLoggedIn then
         [ Route(Path("/update-user"), UpdateUserPage),
           Route(Path("/delete-user"), DeleteUserPage),
           Route(Path("/cart-history"), CartHistoryPage),
           Route(Path("/cart"), ShoppingCartPage),
           Route(Path("/logout"), LogoutPage) ]
       else
         [ Route(Path("/update-user"), AccessDeniedPage),
           Route(Path("/delete-user"), AccessDeniedPage),
           Route(Path("/cart-history"), AccessDeniedPage),
           Route(Path("/cart"), AccessDeniedPage),
           Route(Path("/logout"), AccessDeniedPage) ])
    + [ Route(AnyPath, NotFoundPage) ]
  }

  /** The first route at or after index `i` whose pattern matches. */
  function FirstMatchFrom(routes: seq<Route>, path: string, i: nat): (r: Option<View>)
    requires i <= |routes|
    ensures r.None? <==> forall j :: i <= j < |routes| ==> !Matches(routes[j].pattern, path)
    ensures r.Some? ==> exists j :: i <= j < |routes| && Matches(routes[j].pattern, path)
                                    && r.value == routes[j].view
                                    && forall k :: i <= k < j ==> !Matches(routes[k].pattern, path)
    decreases |routes| - i
  {
    if i == |routes| then None
    else if Matches(routes[i].pattern, path) then Some(routes[i].view)
    else FirstMatchFrom(routes, path, i + 1)
  }

  /** The view of the earliest matching route, if any. */
  function FirstMatch(routes: seq<Route>, path: string): Option<View>
  {
    FirstMatchFrom(routes, path, 0)
  }

  /** The first matching route decides, whatever later routes say. */
  lemma FirstMatchIs(routes: seq<Route>, path: string, j: nat)
    requires j < |routes| && Matches(routes[j].pattern, path)
    requires forall k :: 0 <= k < j ==> !Matches(routes[k].pattern, path)
    ensures FirstMatch(routes, path) == Some(routes[j].view)
  {
    var r := FirstMatch(routes, path);
    var j' :| 0 <= j' < |routes| && Matches(routes[j'].pattern, path) && r.value == routes[j'].view
              && forall k :: 0 <= k < j' ==> !Matches(routes[k].pattern, path);
    assert j' == j;
  }

  /** The element rendered for `path`: the catch-all route makes the table
      total. */
  function Resolve(path: string, isLoggedIn: bool): (v: View)
    ensures exists j :: 0 <= j < |Routes(isLoggedIn)| && Matches(Routes(isLoggedIn)[j].pattern, path)
                        && v == Routes(isLoggedIn)[j].view
                        && forall k :: 0 <= k < j ==> !Matches(Routes(isLoggedIn)[k].pattern, path)
  {
    var table := Routes(isLoggedIn);
    assert Matches(table[10].pattern, path);
    FirstMatch(table, path).value
  }

  // ------------------------------------------ the guard the table is meant to be

  datatype Access = Public | RequiresAuth | Unrouted

  /** `AccessOf`: the access class the conditional route group of
      src/SemanticAppLayout.tsx gives each navigation target. */
  function AccessOf(path: string): Access
  {
    if path in {"/", "/home", "/login", "/create-user"} then Public
    else if path in {"/update-user", "/delete-user", "/cart-history", "/cart", "/logout"} then RequiresAuth
    else Unrouted
  }

  /** The component a known path names. */
  function RealView(path: string): View
  {
    match path
    case "/" => HomePage
    case "/home" => HomePage
    case "/login" => LoginPage
    case "/logout" => LogoutPage
    case "/create-user" => CreateUserPage
    case "/update-user" => UpdateUserPage
    case "/delete-user" => DeleteUserPage
    case "/cart-history" => CartHistoryPage
    case "/cart" => ShoppingCartPage
    case _ => NotFoundPage
  }

  /** Public targets render, guarded ones render only when logged in,
      anything else is not found. */
  function Guarded(path: string, isLoggedIn: bool): View
  {
    match AccessOf(path)
    case Unrouted => NotFoundPage
    case Public => RealView(path)
    case RequiresAuth => if isLoggedIn then RealView(path) else AccessDeniedPage
  }

  /** The table implements the guard on every path but `/logout`. */
  lemma ResolveIsGuarded(path: string, isLoggedIn: bool)
    requires path != "/logout"
    ensures Resolve(path, isLoggedIn) == Guarded(path, isLoggedIn)
  {
    match AccessOf(path)
    case Public => PublicRoutesRender(path, isLoggedIn);
    case RequiresAuth => GuardedRoutesNeedLogin(path, isLoggedIn);
    case Unrouted => UnknownRoutesNotFound(path, isLoggedIn);
  }

  /** Public targets render their view in both session states. */
  lemma PublicRoutesRender(path: string, isLoggedIn: bool)
    requires AccessOf(path) == Public
    ensures Resolve(path, isLoggedIn) == RealView(path) != NotFoundPage
  {
    var table := Routes(isLoggedIn);
    if path == "/" {
      FirstMatchIs(table, path, 0);
    } else if path == "/login" {
      FirstMatchIs(table, path, 1);
    } else if path == "/home" {
      FirstMatchIs(table, path, 3);
    } else {
      FirstMatchIs(table, path, 4);
    }
  }

  /** Guarded targets render iff logged in, else AccessDenied. */
  lemma GuardedRoutesNeedLogin(path: string, isLoggedIn: bool)
    requires AccessOf(path) == RequiresAuth && path != "/logout"
    ensures isLoggedIn ==> Resolve(path, isLoggedIn) == RealView(path) != AccessDeniedPage
    ensures !isLoggedIn ==> Resolve(path, isLoggedIn) == AccessDeniedPage
  {
    var table := Routes(isLoggedIn);
    if path == "/update-user" {
      FirstMatchIs(table, path, 5);
    } else if path == "/delete-user" {
      FirstMatchIs(table, path, 6);
    } else if path == "/cart-history" {
      FirstMatchIs(table, path, 7);
    } else {
      FirstMatchIs(table, path, 8);
    }
  }

  /** Paths outside the table are not found. */
  lemma UnknownRoutesNotFound(path: string, isLoggedIn: bool)
    requires AccessOf(path) == Unrouted
    ensures Resolve(path, isLoggedIn) == NotFoundPage
  {
    FirstMatchIs(Routes(isLoggedIn), path, 10);
  }

  /** `/logout` is declared unconditionally before its guarded duplicates, so
      it renders Logout even when logged out, where the guard denies it. */
  lemma LogoutIsNotGuarded(isLoggedIn: bool)
    ensures Resolve("/logout", isLoggedIn) == LogoutPage
    ensures Guarded("/logout", false) == AccessDeniedPage
  {
    FirstMatchIs(Routes(isLoggedIn), "/logout", 2);
  }

  // ---------------------------------------------------------- navigation bar

  const GatedLinks: seq<string> := ["/update-user", "/delete-user", "/cart-history", "/cart"]

  /** The `href`s of the left-hand menu. */
  function MenuLinks(isLoggedIn: bool): (links: seq<string>)
    ensures "/create-user" in links
    ensures forall l :: l in GatedLinks ==> (l in links <==> isLoggedIn)
    ensures forall l :: l in links ==> l == "/create-user" || l in GatedLinks
  {
    ["/create-user"] + (if isLoggedIn then GatedLinks else [])
  }

  /** The right-hand controls. */
  datatype AccountArea =
    | SignedIn(username: Option<string>, logoutHref: string)
    | SignedOut(loginHref: string)

  function Account(user: User): (a: AccountArea)
    ensures a.SignedIn? <==> user.isLoggedIn
    ensures a.SignedIn? ==> a == SignedIn(user.username, "/logout")
    ensures a.SignedOut? ==> a == SignedOut("/login")
  {
    if user.isLoggedIn then SignedIn(user.username, "/logout") else SignedOut("/login")
  }

  function AccountHref(a: AccountArea): string
  {
    if a.SignedIn? then a.logoutHref else a.loginHref
  }

  /** Every link the bar shows (the brand link to `/`, the menu and the
      account control) renders a real view, never AccessDenied or NotFound. */
  lemma NavLinksRender(user: User)
    ensures forall l :: l in ["/"] + MenuLinks(user.isLoggedIn) + [AccountHref(Account(user))] ==>
              Resolve(l, user.isLoggedIn) !in {AccessDeniedPage, NotFoundPage}
  {
    var b := user.isLoggedIn;
    forall l | l in ["/"] + MenuLinks(b) + [AccountHref(Account(user))]
      ensures Resolve(l, b) !in {AccessDeniedPage, NotFoundPage}
    {
      if l == "/logout" {
        LogoutIsNotGuarded(b);
      } else {
        ResolveIsGuarded(l, b);
      }
    }
  }

  /** The language at startup: the stored one, or 'en' when it is absent
      (or the empty string, which is falsy). */
  function StartupLanguage(data: map<string, Value>): (l: string)
    ensures StoredLanguage(data).Some? && StoredLanguage(data).value != "" ==> l == StoredLanguage(data).value
    ensures !(StoredLanguage(data).Some? && StoredLanguage(data).value != "") ==> l == "en"
    ensures l != ""
  {
    match StoredLanguage(data)
    case Some(code) => if code != "" then code else "en"
    case None => "en"
  }

  // -------------------------------------------------------------- the shell

  /** The layout's `user` state (handed out through the user context), the
      current i18n language, and the store. */
  class Layout {
    var user: User
    var language: string
    const store: Store

    /** The session invariant: a logged-in user, in memory or in
        storage, holds a token. */
    ghost predicate Valid()
      reads this, store
    {
      HoldsToken(user) && StoredSessionHoldsToken(store.data)
    }

    /** The in-memory session agrees with the stored one. */
    ghost predicate Synced()
      reads this, store
    {
      user.isLoggedIn <==> StoredLoggedIn(store.data)
    }

    /** `useState<UserType>` starts from the default user; `language` is
        whatever i18n was configured with. */
    constructor (store: Store, language: string)
      ensures this.store == store && this.language == language
      ensures user == DefaultUser
      ensures StoredSessionHoldsToken(store.data) ==> Valid()
    {
      this.store := store;
      this.language := language;
      user := DefaultUser;
    }

    /** `setUser`, as the context hands it to the pages. */
    method SetUser(u: User)
      modifies this`user
      ensures user == u
    {
      user := u;
    }

    /** `changeLanguage(l)`: switch i18n and store the choice. */
    method ChangeLanguage(l: string)
      modifies this`language, store
      ensures language == l
      ensures store.data == old(store.data)[LanguageKey := Language(l)]
      ensures StartupLanguage(store.data) == if l != "" then l else "en"
      ensures old(Valid()) ==> Valid()
      ensures old(Synced()) ==> Synced()
    {
      language := l;
      store.SetItem(LanguageKey, Language(l));
    }

    /** The session hydration effect: a stored session is adopted only when
        it says the user is logged in. */
    method HydrateSession()
      modifies this`user
      ensures StoredLoggedIn(store.data) ==> user == StoredSession(store.data).value
      ensures !StoredLoggedIn(store.data) ==> user == old(user)
      ensures old(Valid()) ==> Valid()
      ensures old(!user.isLoggedIn) ==> Synced()
    {
      var s := StoredSession(store.data);
      if s.Some? && s.value.isLoggedIn {
        user := s.value;
      }
    }

    /** The language hydration effect. */
    method HydrateLanguage()
      modifies this`language
      ensures language == StartupLanguage(store.data)
    {
      var stored := StoredLanguage(store.data);
      if stored.Some? && stored.value != "" {
        language := stored.value;
      } else {
        language := "en";
      }
    }
  }

  /** Startup on a store that holds a logged-in session: the session is
      adopted and the guarded views render. */
  method StartupScenario(session: User)
    requires session.isLoggedIn && session.token != ""
  {
    var store := new Store(map[UserSessionKey := Session(session)]);
    var layout := new Layout(store, "fr");
    assert !layout.user.isLoggedIn;
    layout.HydrateSession();
    layout.HydrateLanguage();
    assert layout.user == session && layout.language == "en";
    assert layout.Valid() && layout.Synced();
  }
}
