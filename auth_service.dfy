/**
 * The auth service of src/lib/auth/authService.ts: it posts credentials to
 * the backend, turns the backend's reply into an `AuthResponse`, and keeps
 * the session token in one browser-storage slot, "auth_token".
 *
 * The reply of the HTTP call (or what it throws) is a parameter; turning a
 * reply into a response is a pure function; the storage slot is a field of
 * a class whose methods write it the way the source does.
 */
module AuthClient {
  import opened Types

  const RegistrationFailed := "Registration failed"
  const LoginFailed := "Login failed"
  const UnexpectedError := "An unexpected error occurred"

  /** The `user` object of a backend reply. */
  datatype ApiUser = ApiUser(id: string, email: string, name: string)

  /** The JSON body the backend answers with; absent members are `None`. */
  datatype ApiReply = ApiReply(user: Option<ApiUser>, token: Option<string>, message: Option<string>, error: Option<string>)

  /** The JSON body posted to /auth/register. */
  datatype RegisterPayload = RegisterPayload(email: string, password: string, name: string)

  /** The body of /auth/register: the backend calls the username `name`. */
  function PayloadOf(credentials: RegisterCredentials): (p: RegisterPayload)
    ensures p.name == credentials.username
    ensures p.email == credentials.email && p.password == credentials.password
  {
    RegisterPayload(credentials.email, credentials.password, credentials.username)
  }

  /** The reply carries a user and a (truthy) token, so the sign-in or sign-up went through. */
  predicate Issued(reply: Settled<ApiReply>) {
    reply.Resolved? && !Truthy(reply.value.error) && reply.value.user.Some? && Truthy(reply.value.token)
  }

  /**
   * The `AuthResponse` for a backend reply; `failure` is the message used
   * when the reply has neither an error nor a user with a token
   * ("Registration failed" for sign-up, "Login failed" for sign-in).
   */
  function ResponseOf(reply: Settled<ApiReply>, failure: string): (r: AuthResponse)
    ensures r.user.Some? <==> Issued(reply)
    ensures r.user.Some? <==> r.session.Some?
    ensures r.user.Some? <==> r.error.None?
    ensures Issued(reply) ==> r.session == Some(Session(reply.value.token.value))
  {
    match reply
    case Rejected(ErrorInstance(message)) => AuthResponse(None, None, Some(message))
    case Rejected(NonError) => AuthResponse(None, None, Some(UnexpectedError))
    case Resolved(body) =>
      if Truthy(body.error) then AuthResponse(None, None, body.error)
      else if body.user.Some? && Truthy(body.token) then
        var u := body.user.value;
        AuthResponse(Some(AuthUser(u.id, u.email, u.name, None)), Some(Session(body.token.value)), None)
      else AuthResponse(None, None, Some(failure))
  }

  /** A reply with a (non-empty) error is passed on unchanged, with no user and no session. */
  lemma ErrorReplyPassedOn(reply: Settled<ApiReply>, failure: string)
    requires reply.Resolved? && Truthy(reply.value.error)
    ensures ResponseOf(reply, failure) == AuthResponse(None, None, reply.value.error)
  {
  }

  /**
   * A reply with a user and a token gives that user, named by the reply's
   * `name`, with no avatar, and a session holding the token.
   */
  lemma IssuedReplyMapped(reply: Settled<ApiReply>, failure: string)
    requires Issued(reply)
    ensures var u := reply.value.user.value;
      ResponseOf(reply, failure).user == Some(AuthUser(u.id, u.email, u.name, None))
  {
  }

  /** A reply with neither an error nor a user and token yields the fallback message. */
  lemma IncompleteReplyFails(reply: Settled<ApiReply>, failure: string)
    requires reply.Resolved? && !Truthy(reply.value.error) && !Issued(reply)
    ensures ResponseOf(reply, failure) == AuthResponse(None, None, Some(failure))
  {
  }

  /** A thrown `Error` yields its message; anything else thrown yields the generic message. */
  lemma ThrownReplyFails(reply: Settled<ApiReply>, failure: string)
    requires reply.Rejected?
    ensures ResponseOf(reply, failure).error
      == Some(if reply.reason.ErrorInstance? then reply.reason.message else UnexpectedError)
  {
  }

  /**
   * Every response either signs the user in or carries an error that the
   * auth store sees as truthy, except when the call threw an `Error` whose
   * message is empty.
   */
  lemma ResponseDecides(reply: Settled<ApiReply>, failure: string)
    requires failure != ""
    requires reply != Rejected(ErrorInstance(""))
    ensures var r := ResponseOf(reply, failure); r.user.Some? || Truthy(r.error)
  {
  }

  /** The service, with the browser-storage slot "auth_token" it reads and writes. */
  class AuthService {
    var authToken: Option<string>

    /** The service over whatever the slot holds when the page loads. */
    constructor (stored: Option<string>)
      ensures authToken == stored
    {
      authToken := stored;
    }

    /** signUp: maps the reply of /auth/register; on success the token is stored. */
    method SignUp(credentials: RegisterCredentials, reply: Settled<ApiReply>)
      returns (payload: RegisterPayload, r: AuthResponse)
      modifies this
      ensures payload == PayloadOf(credentials)
      ensures r == ResponseOf(reply, RegistrationFailed)
      ensures authToken == if Issued(reply) then reply.value.token else old(authToken)
    {
      payload := PayloadOf(credentials);
      r := ResponseOf(reply, RegistrationFailed);
      if Issued(reply) {
        authToken := reply.value.token;
      }
    }

    /** signIn: maps the reply of /auth/login; on success the token is stored. */
    method SignIn(credentials: LoginCredentials, reply: Settled<ApiReply>) returns (r: AuthResponse)
      modifies this
      ensures r == ResponseOf(reply, LoginFailed)
      ensures authToken == if Issued(reply) then reply.value.token else old(authToken)
    {
      r := ResponseOf(reply, LoginFailed);
      if Issued(reply) {
        authToken := reply.value.token;
      }
    }

    /** signOut: the token is removed. */
    method SignOut()
      modifies this
      ensures authToken == None
    {
      authToken := None;
    }

    /** getCurrentUser: there is no endpoint for it, so it answers null, token or not. */
    method GetCurrentUser() returns (u: Option<AuthUser>)
      ensures u == None
    {
      if !Truthy(authToken) {
        return None;
      }
      u := None;
    }

    /** getSession: a session exactly when a (truthy) token is stored, holding that token. */
    method GetSession() returns (s: Option<Session>)
      ensures s.Some? <==> Truthy(authToken)
      ensures s.Some? ==> s.value.accessToken == authToken.value
    {
      s := if Truthy(authToken) then Some(Session(authToken.value)) else None;
    }
  }

  /** After a sign-in that went through, the session is the token of the reply. */
  method SignInThenSession(stored: Option<string>, credentials: LoginCredentials, reply: Settled<ApiReply>)
    returns (session: Option<Session>)
    requires Issued(reply)
    ensures session == Some(Session(reply.value.token.value))
  {
    var service := new AuthService(stored);
    var r := service.SignIn(credentials, reply);
    session := service.GetSession();
  }

  /** After signing out there is no session, whatever was stored before. */
  method SignOutThenSession(stored: Option<string>) returns (session: Option<Session>)
    ensures session == None
  {
    var service := new AuthService(stored);
    service.SignOut();
    session := service.GetSession();
  }
}
