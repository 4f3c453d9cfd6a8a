/**
 * The auth store of src/stores/auth/authStore.ts: the signed-in user, the
 * `isAuthenticated` flag that mirrors it, the loading flag and the error.
 *
 * Each action awaits the auth service once; what that call settles to is a
 * parameter, and the action is one atomic step.
 */
module AuthStore {
  import opened Types
  import opened AuthClient

  const SignOutFailed := "Error signing out"

  /**
   * The user held once signIn or signUp settles `response`, `before` being
   * the user held when it was called: only a resolved answer without a
   * truthy error and with a user replaces it.
   */
  function UserAfter(response: Settled<AuthResponse>, before: Option<AuthUser>): (after: Option<AuthUser>)
    ensures after != before ==> response.Resolved? && after == response.value.user && after.Some?
    ensures response.Resolved? && !Truthy(response.value.error) && response.value.user.Some? ==>
      after == response.value.user
  {
    match response
    case Resolved(r) => if !Truthy(r.error) && r.user.Some? then r.user else before
    case Rejected(_) => before
  }

  /**
   * The error held once signIn or signUp settles `response`: the generic
   * message for a rejection, the answer's own error when it is truthy, and
   * none otherwise.
   */
  function ErrorAfter(response: Settled<AuthResponse>): (e: Option<string>)
    ensures e.Some? <==> response.Rejected? || Truthy(response.value.error)
    ensures response.Rejected? ==> e == Some(UnexpectedError)
    ensures response.Resolved? && e.Some? ==> e == response.value.error
  {
    match response
    case Resolved(r) => if Truthy(r.error) then r.error else None
    case Rejected(_) => Some(UnexpectedError)
  }

  /**
   * Whether the loading flag is still raised once signIn or signUp settles
   * `response`: only an answer with neither a truthy error nor a user
   * leaves it up, and then no error is shown.
   */
  function LoadingAfter(response: Settled<AuthResponse>): (loading: bool)
    ensures loading <==> response.Resolved? && !Truthy(response.value.error) && response.value.user.None?
    ensures loading ==> ErrorAfter(response) == None
  {
    match response
    case Resolved(r) => !Truthy(r.error) && r.user.None?
    case Rejected(_) => false
  }

  class AuthStore {
    var user: Option<AuthUser>
    var isAuthenticated: bool
    var isLoading: bool
    var error: Option<string>

    /** The flag the views read agrees with the presence of a user. */
    ghost predicate Valid()
      reads this
    {
      isAuthenticated == user.Some?
    }

    /** The store as `create` initialises it. */
    constructor ()
      ensures Valid()
      ensures user == None && !isAuthenticated && !isLoading && error == None
    {
      user, isAuthenticated, isLoading, error := None, false, false, None;
    }

    /**
     * What signIn and signUp leave behind once the service answered
     * `response`: the loading flag is raised and the error cleared first;
     * then a truthy response error is recorded (the user is kept), a
     * response user is signed in, and a rejection records the generic
     * message. A response with neither leaves the loading flag raised.
     */
    twostate predicate SettledBy(response: Settled<AuthResponse>)
      reads this
    {
      && user == UserAfter(response, old(user))
      && isLoading == LoadingAfter(response)
      && error == ErrorAfter(response)
    }

    /** The body that signIn and signUp share, apart from the service they call. */
    method Authenticate(response: Settled<AuthResponse>)
      requires Valid()
      modifies this
      ensures Valid()
      ensures SettledBy(response)
    {
      isLoading, error := true, None;
      match response {
        case Resolved(r) =>
          if Truthy(r.error) {
            error, isLoading := r.error, false;
          } else if r.user.Some? {
            user, isAuthenticated, isLoading, error := r.user, true, false, None;
          }
        case Rejected(_) =>
          error, isLoading := Some(UnexpectedError), false;
      }
    }

    /** signIn: `credentials` go to the service, whose answer is `response`. */
    method SignIn(credentials: LoginCredentials, response: Settled<AuthResponse>)
      requires Valid()
      modifies this
      ensures Valid()
      ensures SettledBy(response)
    {
      Authenticate(response);
    }

    /** signUp: the same handling of the service's answer as signIn. */
    method SignUp(credentials: RegisterCredentials, response: Settled<AuthResponse>)
      requires Valid()
      modifies this
      ensures Valid()
      ensures SettledBy(response)
    {
      Authenticate(response);
    }

    /**
     * signOut: when the service call settles, the user is gone and the
     * flags are low; a rejection records "Error signing out" and keeps the user.
     */
    method SignOut(settled: Settled<()>)
      requires Valid()
      modifies this
      ensures Valid()
      ensures !isLoading
      ensures settled.Resolved? ==> user == None && !isAuthenticated && error == None
      ensures settled.Rejected? ==> user == old(user) && error == Some(SignOutFailed)
    {
      isLoading := true;
      match settled {
        case Resolved(_) =>
          user, isAuthenticated, isLoading, error := None, false, false, None;
        case Rejected(_) =>
          error, isLoading := Some(SignOutFailed), false;
      }
    }

    /**
     * getCurrentUser: the user the service answers with, or none when it
     * answers null or throws; the error is left as it was.
     */
    method GetCurrentUser(fetched: Settled<Option<AuthUser>>)
      requires Valid()
      modifies this
      ensures Valid()
      ensures !isLoading && error == old(error)
      ensures user == if fetched.Resolved? then fetched.value else None
    {
      isLoading := true;
      match fetched {
        case Resolved(u) =>
          if u.Some? {
            user, isAuthenticated, isLoading := u, true, false;
          } else {
            user, isAuthenticated, isLoading := None, false, false;
          }
        case Rejected(_) =>
          user, isAuthenticated, isLoading := None, false, false;
      }
    }

    /** clearError: only the error is reset. */
    method ClearError()
      requires Valid()
      modifies this
      ensures Valid()
      ensures error == None
      ensures user == old(user) && isAuthenticated == old(isAuthenticated) && isLoading == old(isLoading)
    {
      error := None;
    }

    /** setUser: the user and the flag derived from it; nothing else. */
    method SetUser(u: Option<AuthUser>)
      modifies this
      ensures Valid()
      ensures user == u && isAuthenticated == u.Some?
      ensures isLoading == old(isLoading) && error == old(error)
    {
      user, isAuthenticated := u, u.Some?;
    }
  }

  /**
   * signIn as the store runs it, through the auth service: the store never
   * stays loading (unless the request threw an `Error` with an empty
   * message), and a reply with a user and a token both signs the user in
   * and stores the token.
   */
  method SignInThroughService(store: AuthStore, service: AuthService, credentials: LoginCredentials, reply: Settled<ApiReply>)
    requires store.Valid()
    modifies store, service
    ensures store.Valid()
    ensures reply != Rejected(ErrorInstance("")) ==> !store.isLoading
    ensures Issued(reply) ==> store.isAuthenticated && service.authToken == reply.value.token
    ensures !Issued(reply) ==> store.user == old(store.user) && service.authToken == old(service.authToken)
  {
    var response := service.SignIn(credentials, reply);
    if reply != Rejected(ErrorInstance("")) {
      ResponseDecides(reply, LoginFailed);
    }
    store.SignIn(credentials, Resolved(response));
  }
}
