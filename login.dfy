/** The login page (src/components/User/Login.tsx): the redirect of an
    existing session on mount, and `handleLogin`, whose network round trip is
    an input. */
module Login {
  import opened Wrappers
  import opened UserContext
  import opened Storage
  import opened SemanticAppLayout

  /** How the call to `POST /auth/login` settled. */
  datatype AuthResponse =
    | NetworkFailure(message: string)          // `fetch` or `res.json()` rejected
    | Reply(ok: bool, token: Option<string>)   // the status flag and `data.token`

  const BadStatusMessage := "Invalid username or password"
  const NoTokenMessage := "Invalid credentials"
  const FallbackMessage := "Failed to login"

  /** `data.token` is truthy. */
  predicate HasToken(token: Option<string>)
  {
    token.Some? && token.value != ""
  }

  /** The session record built for a successful login. */
  function SessionFor(username: string, password: string, token: string): User
  {
    User(username, Some(username), Some(password), token, true)
  }

  /** The promise chain of `handleLogin`: the session it builds, or the
      message of the error the `catch` receives. */
  function LoginOutcome(username: string, password: string, response: AuthResponse): (o: Result<User, string>)
    ensures o.Ok? <==> response.Reply? && response.ok && HasToken(response.token)
    ensures o.Ok? ==> o.value == SessionFor(username, password, response.token.value)
    ensures o.Ok? ==> o.value.isLoggedIn && o.value.token != "" && HoldsToken(o.value)
    ensures response.Reply? && !response.ok ==> o == Err(BadStatusMessage)
    ensures response.Reply? && response.ok && !HasToken(response.token) ==> o == Err(NoTokenMessage)
    ensures response.NetworkFailure? ==> o == Err(response.message)
  {
    match response
    case NetworkFailure(m) => Err(m)
    case Reply(ok, token) =>
      if !ok then Err(BadStatusMessage)
      else if !HasToken(token) then Err(NoTokenMessage)
      else Ok(SessionFor(username, password, token.value))
  }

  /** `err.message || 'Failed to login'`. */
  function ShownError(message: string): (shown: string)
    ensures shown != ""
    ensures message != "" ==> shown == message
    ensures message == "" ==> shown == FallbackMessage
  {
    if message != "" then message else FallbackMessage
  }

  /** The form's state and the layout whose `setUser` the context provides. */
  class LoginForm {
    var username: string
    var userPassword: string
    var errorMessage: string
    const layout: Layout

    constructor (layout: Layout)
      ensures this.layout == layout
      ensures username == "" && userPassword == "" && errorMessage == ""
    {
      this.layout := layout;
      username, userPassword, errorMessage := "", "", "";
    }

    method SetUsername(s: string)
      modifies this`username
      ensures username == s
    {
      username := s;
    }

    method SetUserPassword(s: string)
      modifies this`userPassword
      ensures userPassword == s
    {
      userPassword := s;
    }

    /** The mount effect: a stored logged-in session is adopted and the page
        redirects to `/home`; otherwise nothing happens. */
    method CheckExistingSession() returns (target: Option<string>)
      modifies layout`user
      ensures StoredLoggedIn(layout.store.data) ==>
                layout.user == StoredSession(layout.store.data).value && target == Some("/home")
      ensures !StoredLoggedIn(layout.store.data) ==> layout.user == old(layout.user) && target == None
      ensures old(layout.Valid()) ==> layout.Valid()
      ensures old(layout.Synced()) ==> layout.Synced()
    {
      var s := StoredSession(layout.store.data);
      if s.Some? && s.value.isLoggedIn {
        layout.SetUser(s.value);
        target := Some("/home");
      } else {
        target := None;
      }
    }

    /** `handleLogin` once the response is in: on success the session is
        stored, put into the context, and the page goes to `/home`; on any
        failure only the error message changes. */
    method HandleLogin(response: AuthResponse) returns (target: Option<string>)
      modifies this`errorMessage, layout`user, layout.store
      ensures LoginOutcome(username, userPassword, response).Ok? ==>
                var session := LoginOutcome(username, userPassword, response).value;
                && layout.store.data == old(layout.store.data)[UserSessionKey := Session(session)]
                && layout.user == session
                && errorMessage == old(errorMessage)
                && target == Some("/home")
      ensures LoginOutcome(username, userPassword, response).Err? ==>
                && layout.store.data == old(layout.store.data)
                && layout.user == old(layout.user)
                && errorMessage == ShownError(LoginOutcome(username, userPassword, response).error)
                && target == None
      ensures old(layout.Valid()) ==> layout.Valid()
      ensures old(layout.Synced()) ==> layout.Synced()
    {
      var outcome := LoginOutcome(username, userPassword, response);
      match outcome
      case Ok(session) =>
        layout.store.SetItem(UserSessionKey, Session(session));
        layout.SetUser(session);
        target := Some("/home");
      case Err(message) =>
        errorMessage := ShownError(message);
        target := None;
    }
  }

  /** Scenario: a token for `mor_2314` yields the
      stored and current session; a reply without a token changes nothing. */
  method LoginScenario()
  {
    var store := new Store(map[]);
    var layout := new Layout(store, "en");
    var form := new LoginForm(layout);
    form.SetUsername("mor_2314");
    form.SetUserPassword("83r5^_");
    var target := form.HandleLogin(Reply(true, None));
    assert target == None && form.errorMessage == NoTokenMessage;
    assert !layout.user.isLoggedIn && store.data == map[];
    target := form.HandleLogin(Reply(true, Some("abc")));
    var session := User("mor_2314", Some("mor_2314"), Some("83r5^_"), "abc", true);
    assert target == Some("/home") && layout.user == session;
    assert store.data == map[UserSessionKey := Session(session)];
  }
}
