/** The token verification the middleware delegates to `jsonwebtoken`, kept abstract. */
module Jwt {
  import opened Wrappers

  /** The decoded payload of a valid token: the user's id and role, either of which the signer may have left out. */
  datatype Claims = Claims(userId: Option<string>, role: Option<string>)

  /**
   * `jwt.verify(token, secret)`: an empty token is always rejected ("jwt must be provided");
   * any other token is accepted or rejected by the signature and expiry check `check`,
   * which stands for the library and the secret.
   */
  function Verify(token: string, check: string -> Option<Claims>): Option<Claims> {
    if token == "" then None else check(token)
  }
}
