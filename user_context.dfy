/** The user record shared through the user context (src/context/UserContext.tsx)
    and the records the application puts into it. */
module UserContext {
  import opened Wrappers

  /** `UserType`: `username` is optional, and a session built at login also
      carries the password the user typed. */
  datatype User = User(
    name: string,
    username: Option<string>,
    password: Option<string>,
    token: string,
    isLoggedIn: bool)

  /** The state the layout starts from (and the context's default value). */
  const DefaultUser := User("", Some(""), None, "", false)

  /** The record Logout puts into the context: no username at all. */
  const LoggedOutUser := User("", None, None, "", false)

  /** The session invariant: a logged-in user holds a token. */
  predicate HoldsToken(u: User)
  {
    u.isLoggedIn ==> u.token != ""
  }
}
