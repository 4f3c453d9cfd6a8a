/**
 * Records shared by the stores, the auth service and the views of the chat
 * client (the interfaces of src/types/index.ts), plus the shapes in which
 * asynchronous results reach the model.
 *
 * Timestamps (`created_at`, `updated_at`, `last_seen`) are ISO strings in the
 * source; the backend orders rows by the instant they denote, so they are
 * modelled here as that instant, an `int`.
 */
module Types {

  datatype Option<+T> = None | Some(value: T)

  /** JavaScript truthiness of an optional string: `undefined`, `null` and `""` are falsy. */
  predicate Truthy(s: Option<string>) {
    s.Some? && s.value != ""
  }

  /** A row of the `messages` table. */
  datatype Message = Message(
    id: string,
    content: string,
    userId: string,
    username: string,
    avatarUrl: Option<string>,
    createdAt: int,
    updatedAt: int)

  /** A row of the `users` table. */
  datatype User = User(
    id: string,
    email: string,
    username: string,
    avatarUrl: Option<string>,
    createdAt: int,
    lastSeen: int,
    isOnline: bool)

  /** The signed-in identity held by the auth store. */
  datatype AuthUser = AuthUser(id: string, email: string, username: string, avatarUrl: Option<string>)

  datatype LoginCredentials = LoginCredentials(email: string, password: string)

  datatype RegisterCredentials = RegisterCredentials(email: string, password: string, username: string)

  /** The session object `{ access_token }`. */
  datatype Session = Session(accessToken: string)

  /** What the auth service hands back to the auth store; `error` undefined is `None`. */
  datatype AuthResponse = AuthResponse(user: Option<AuthUser>, session: Option<Session>, error: Option<string>)

  /** A value thrown by an awaited call: an `Error` instance with its message, or anything else. */
  datatype Thrown = ErrorInstance(message: string) | NonError

  /**
   * How an awaited call settles: it resolves with a value or it rejects.
   * Network and backend results enter the model as parameters of this type.
   */
  datatype Settled<T> = Resolved(value: T) | Rejected(reason: Thrown)

  /** `{ isValid, errors }` as returned by the validators of src/utils/validation.ts. */
  datatype ValidationResult = ValidationResult(isValid: bool, errors: seq<string>)
}
