/** Shared vocabulary of the application: optional values, error results, the
    JSON envelope every route answers with, and the authenticated principal. */
module Common {

  datatype Option<T> = None | Some(value: T)

  /** Outcome of a service call that may throw: `Err` carries the message. */
  datatype Result<T> = Ok(value: T) | Err(error: string)

  /** Row identifiers. The store hands them out from a monotone counter. */
  type Id = nat

  /** Instants are opaque, totally ordered values. */
  type Timestamp = int

  /** The signed-in user as the route handlers see it through the session:
      `session.user.id` and `session.user.email` ("" stands for a missing email). */
  datatype Principal = Principal(id: Id, email: string)

  /** The JSON envelope `{ success, error?, message?, data? }` with its HTTP status. */
  datatype Reply<T> = Reply(status: nat, success: bool, error: Option<string>, message: Option<string>, data: Option<T>)

  function Failure<T>(status: nat, error: string): Reply<T>
  {
    Reply(status, false, Some(error), None, None)
  }

  function Success<T>(data: T): Reply<T>
  {
    Reply(200, true, None, None, Some(data))
  }

  /** The `linkedinDetails` claim carried by the JWT and the session
      (every field optional, as in the next-auth type augmentation). */
  datatype DetailsClaim = DetailsClaim(
    email: Option<string>,
    avatar: Option<string>,
    name: Option<string>,
    headline: Option<string>,
    username: Option<string>,
    accountId: Option<string>,
    isPremium: Option<bool>)

  /** The application's own fields of a decoded JWT. */
  datatype TokenClaims = TokenClaims(
    id: Option<Id>,
    email: Option<string>,
    name: Option<string>,
    needsLinkedinConn: Option<bool>,
    linkedinDetails: Option<DetailsClaim>)
}
