/**
 * The session both pages keep in the browser's localStorage: the key
 * `authToken` (the opaque token the login endpoint issued) and the key
 * `user` (the signed-in user's profile).
 */
module Session {
  import opened Wrappers

  datatype User = User(username: string, email: string)

  /** The two storage keys; `None` is a key that `getItem` reports as `null`. */
  datatype Storage = Storage(authToken: Option<string>, user: Option<User>)

  /** Both keys removed, as `logout` and every 401 handler leave the storage. */
  const SignedOut: Storage := Storage(None, None)

  /**
   * `if (localStorage.getItem('authToken'))`: JavaScript truthiness, so a
   * stored empty string counts as no token.
   */
  function HasToken(s: Storage): (truthy: bool)
    ensures !truthy <==> s.authToken == None || s.authToken == Some("")
  {
    s.authToken.Some? && s.authToken.value != ""
  }
}
