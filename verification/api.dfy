/** The error kinds the routes answer with, one per distinct error response,
    and the HTTP status each carries. The catch-all 500 responses are not
    modelled. */
module Api {

  datatype Error =
    | MissingSendFields       // `/send` without userId, title or body
    | UserOrTokenMissing      // `/send` to an unknown user or one without a push token
    | InvalidPushToken        // `/send` to a user whose token the gateway rejects
    | MissingBulkFields       // `/send-bulk` without a userIds array, title or body
    | MissingBroadcastFields  // `/send-all` without title or body
    | NoValidRecipients       // `/send-bulk`, `/send-all`: nobody left after filtering
    | MissingCredentials      // `/register`, `/login` without email or password
    | PasswordTooShort        // `/register` with a password under six characters
    | EmailInUse              // `/register` with an email already registered
    | InvalidCredentials      // `/login` with an unknown email or a wrong password
    | UserNotFound            // `/me` for a user that is not in the table
    | MissingPushToken        // `/push-token` without a token

  /** The HTTP status of each error response. */
  function Code(e: Error): (code: int)
    ensures code == 401 <==> e == InvalidCredentials
    ensures code == 404 <==> e == UserNotFound
    ensures code in {400, 401, 404}
  {
    match e
    case InvalidCredentials => 401
    case UserNotFound => 404
    case _ => 400
  }
}
