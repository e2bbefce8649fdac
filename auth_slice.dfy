/**
  The client's authentication state: the auth slice's reducers, which assign
  the fields of the state in place, and the token kept in the browser's
  localStorage by the login, signup and logout thunks.

  The HTTP requests the thunks make are not modelled; each thunk takes the
  server's reply as a parameter instead.
 */
module Auth {
  import opened Wrappers

  datatype User = User(email: string, name: string)

  /** JavaScript truthiness of a string that may be null: null and "" are falsy. */
  predicate Truthy(s: Option<string>) {
    s.Some? && s.value != ""
  }

  /** `message || fallback`. */
  function OrElse(message: Option<string>, fallback: string): string {
    if Truthy(message) then message.value else fallback
  }

  const LoginFailed: string := "Login failed"
  const SignupFailed: string := "Signup failed"
  const LogoutFailed: string := "Logout failed"

  /** The browser's localStorage, reduced to its "token" entry. */
  class TokenStorage {
    var token: Option<string>

    constructor (token: Option<string>)
      ensures this.token == token
    {
      this.token := token;
    }

    method SetItem(value: string)
      modifies this
      ensures token == Some(value)
    {
      token := Some(value);
    }

    method RemoveItem()
      modifies this
      ensures token == None
    {
      token := None;
    }
  }

  /** The server's answer to a login or signup request. */
  datatype AuthReply = Accepted(token: string, user: User) | Refused(message: Option<string>)

  /** The server's answer to a logout request. */
  datatype LogoutReply = LogoutAccepted | LogoutRefused(message: Option<string>)

  /** The action a login or signup thunk settles with. */
  datatype AuthSettled = AuthFulfilled(user: User) | AuthRejected(payload: Option<string>)

  /** The action the logout thunk settles with. */
  datatype LogoutSettled = LogoutFulfilled | LogoutRejected(payload: Option<string>)

  /** loginUser: on success the token is stored and the user returned; otherwise nothing is stored. */
  method LoginUser(storage: TokenStorage, reply: AuthReply) returns (action: AuthSettled)
    modifies storage
    ensures reply.Accepted? ==> storage.token == Some(reply.token) && action == AuthFulfilled(reply.user)
    ensures reply.Refused? ==> storage.token == old(storage.token) && action == AuthRejected(Some(OrElse(reply.message, LoginFailed)))
  {
    match reply
    case Accepted(token, user) =>
      storage.SetItem(token);
      action := AuthFulfilled(user);
    case Refused(message) =>
      action := AuthRejected(Some(OrElse(message, LoginFailed)));
  }

  /** signupUser: as loginUser, with its own fallback message. */
  method SignupUser(storage: TokenStorage, reply: AuthReply) returns (action: AuthSettled)
    modifies storage
    ensures reply.Accepted? ==> storage.token == Some(reply.token) && action == AuthFulfilled(reply.user)
    ensures reply.Refused? ==> storage.token == old(storage.token) && action == AuthRejected(Some(OrElse(reply.message, SignupFailed)))
  {
    match reply
    case Accepted(token, user) =>
      storage.SetItem(token);
      action := AuthFulfilled(user);
    case Refused(message) =>
      action := AuthRejected(Some(OrElse(message, SignupFailed)));
  }

  /**
    logoutUser: without a stored token it sends no request; either way the
    stored token is removed (the finally block), and the thunk is rejected
    only when a request was sent and refused.
   */
  method LogoutUser(storage: TokenStorage, reply: LogoutReply) returns (action: LogoutSettled, requested: bool)
    modifies storage
    ensures storage.token == None
    ensures requested <==> Truthy(old(storage.token))
    ensures action.LogoutRejected? <==> requested && reply.LogoutRefused?
    ensures action.LogoutRejected? ==> action.payload == Some(OrElse(reply.message, LogoutFailed))
  {
    var token := storage.token;
    if !Truthy(token) {
      requested := false;
      action := LogoutFulfilled;
    } else {
      requested := true;
      match reply
      case LogoutAccepted =>
        action := LogoutFulfilled;
      case LogoutRefused(message) =>
        action := LogoutRejected(Some(OrElse(message, LogoutFailed)));
    }
    storage.RemoveItem();
  }

  /** The auth slice's state, which the reducers update in place. */
  class AuthSlice {
    var user: Option<User>
    var token: Option<string>
    var isAuthenticated: bool
    var loading: bool
    var error: Option<string>

    /** The signed-out state every logout path ends in. */
    ghost predicate LoggedOut()
      reads this
    {
      user.None? && token.None? && !isAuthenticated
    }

    /** The state says "authenticated" exactly when a usable token is stored. */
    ghost predicate Consistent(storage: TokenStorage)
      reads this, storage
    {
      isAuthenticated <==> Truthy(storage.token)
    }

    /** initialState, read from localStorage when the store is created. */
    constructor (storage: TokenStorage)
      ensures token == (if Truthy(storage.token) then storage.token else None)
      ensures isAuthenticated <==> Truthy(storage.token)
      ensures user.None? && !loading && error.None?
      ensures Consistent(storage)
    {
      user := None;
      token := if Truthy(storage.token) then storage.token else None;
      isAuthenticated := Truthy(storage.token);
      loading := false;
      error := None;
    }

    /** The synchronous logout reducer. */
    method Logout(storage: TokenStorage)
      modifies this, storage
      ensures LoggedOut() && storage.token == None && Consistent(storage)
      ensures loading == old(loading) && error == old(error)
    {
      storage.RemoveItem();
      user := None;
      token := None;
      isAuthenticated := false;
    }

    /** loginUser.pending and signupUser.pending. */
    method Pending()
      modifies this
      ensures loading && error.None?
      ensures user == old(user) && token == old(token) && isAuthenticated == old(isAuthenticated)
    {
      loading := true;
      error := None;
    }

    /** loginUser.fulfilled and signupUser.fulfilled: the token field is not touched. */
    method Fulfilled(payload: User)
      modifies this
      ensures !loading && isAuthenticated && user == Some(payload)
      ensures token == old(token) && error == old(error)
    {
      loading := false;
      isAuthenticated := true;
      user := Some(payload);
    }

    /** loginUser.rejected and signupUser.rejected, with the case's fallback message. */
    method Rejected(payload: Option<string>, fallback: string)
      modifies this
      ensures !loading && error == Some(OrElse(payload, fallback))
      ensures user == old(user) && token == old(token) && isAuthenticated == old(isAuthenticated)
    {
      loading := false;
      error := Some(OrElse(payload, fallback));
    }

    /**
      logoutUser.fulfilled and logoutUser.rejected: both repeat the logout
      reducer's steps, so they end in the state it ends in.
     */
    method LogoutUserSettled(storage: TokenStorage)
      modifies this, storage
      ensures LoggedOut() && storage.token == None && Consistent(storage)
      ensures loading == old(loading) && error == old(error)
    {
      Logout(storage);
    }

    /**
      dispatch(loginUser(...)), or dispatch(signupUser(...)) when signup is
      set: the pending reducer, the thunk, then the reducer of the action it
      settles with. A login that succeeds authenticates the state and stores
      the token, but leaves the state's token field as it was; one that fails
      records the error and changes nothing else.
     */
    method DispatchAuth(storage: TokenStorage, reply: AuthReply, signup: bool)
      modifies this, storage
      ensures !loading
      ensures reply.Accepted? ==>
        && isAuthenticated && user == Some(reply.user) && error.None?
        && token == old(token) && storage.token == Some(reply.token)
      ensures reply.Refused? ==>
        && error == Some(OrElse(reply.message, if signup then SignupFailed else LoginFailed))
        && user == old(user) && token == old(token) && isAuthenticated == old(isAuthenticated)
        && storage.token == old(storage.token)
      ensures old(Consistent(storage)) && (reply.Accepted? ==> reply.token != "") ==> Consistent(storage)
    {
      Pending();
      var action;
      if signup {
        action := SignupUser(storage, reply);
      } else {
        action := LoginUser(storage, reply);
      }
      match action
      case AuthFulfilled(u) =>
        Fulfilled(u);
      case AuthRejected(payload) =>
        Rejected(payload, if signup then SignupFailed else LoginFailed);
    }

    /**
      dispatch(logoutUser()): whatever the server answers, the state ends
      signed out and no token is stored; a request is sent only when a token
      was stored.
     */
    method DispatchLogout(storage: TokenStorage, reply: LogoutReply) returns (requested: bool)
      modifies this, storage
      ensures LoggedOut() && storage.token == None && Consistent(storage)
      ensures requested <==> Truthy(old(storage.token))
      ensures loading == old(loading) && error == old(error)
    {
      var action;
      action, requested := LogoutUser(storage, reply);
      LogoutUserSettled(storage);
    }
  }
}
