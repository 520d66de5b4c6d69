/** Outcomes of the route handlers: an optional value, the error taxonomy the
    handlers answer with, and a result that carries one or the other. */
module Responses {

  datatype Option<+T> = None | Some(value: T)

  /** The error answers of the server, with the HTTP status each is sent with. */
  datatype Error =
    | Conflict            // 400, the username is taken
    | NotFound            // 404, no such registrant or voter record
    | InvalidCredentials  // 400, unknown username or wrong password
    | NotApproved         // 403, the signup is not accepted
    | InvalidKey          // 400, the voter id is not an object id
    | Unauthenticated     // 401, no session
    | Forbidden           // 403, the session's role is not allowed
    | Internal            // 500, the store rejected the request

  datatype Result<+T> = Ok(value: T) | Err(error: Error)
}
