/** The store slice of authentication: whether the user is signed in, and
    the status and errors of the sign-in, token refresh, token check and
    sign-out requests. */
module AuthSlice {
  import opened Common

  /** The status constants of this slice, which keep no `lastAction`. */
  const LOADING: Status := Status(true, false, false, None)
  const SUCCESS: Status := Status(false, true, false, None)
  const FAILURE: Status := Status(false, false, true, None)

  /** The token requests: a check of a stored token and its refresh. */
  datatype TokenRequest = Refresh | Verify

  class Auth {
    var status: Status
    var errors: Option<ServerError>
    var isAuth: bool

    /** At most one status flag is set. */
    predicate Valid()
      reads this
    {
      OneFlagAtMost(status)
    }

    /** `initialState`: no flag set, no errors, signed out. */
    constructor ()
      ensures Valid()
      ensures status == IDLE && errors == None && !isAuth
    {
      status := IDLE;
      errors := None;
      isAuth := false;
    }

    /** `setIsAuth`: the flag only. */
    method SetIsAuth(b: bool)
      modifies this
      ensures isAuth == b && status == old(status) && errors == old(errors)
      ensures Valid() <==> old(Valid())
    {
      isAuth := b;
    }

    /** `login.pending`: loading, errors cleared, sign-in state untouched. */
    method LoginPending()
      modifies this
      ensures Valid()
      ensures status == LOADING && errors == None && isAuth == old(isAuth)
    {
      status := LOADING;
      errors := None;
    }

    /** `refreshToken.pending` and `verifyToken.pending`: loading, errors
        cleared, and signed out until the token is confirmed. */
    method TokenPending(r: TokenRequest)
      modifies this
      ensures Valid()
      ensures status == LOADING && errors == None && !isAuth
    {
      status := LOADING;
      errors := None;
      isAuth := false;
    }

    /** The fulfilled case of sign-in, refresh and check alike: signed in. */
    method Fulfilled()
      modifies this
      ensures Valid()
      ensures status == SUCCESS && isAuth && errors == old(errors)
    {
      status := SUCCESS;
      isAuth := true;
    }

    /** The rejected case of sign-in, refresh and check alike: the payload
        as errors, sign-in state untouched. */
    method Rejected(payload: Option<ServerError>)
      modifies this
      ensures Valid()
      ensures status == FAILURE && errors == payload && isAuth == old(isAuth)
    {
      status := FAILURE;
      errors := payload;
    }

    /** `logout.pending`: signed out at once, reported as a success. */
    method LogoutPending()
      modifies this
      ensures Valid()
      ensures status == SUCCESS && errors == None && !isAuth
    {
      status := SUCCESS;
      errors := None;
      isAuth := false;
    }
  }

  /** A refresh or check of the token that fails leaves the user signed
      out, whatever the state before. */
  method FailedTokenRequestSignsOut(a: Auth, r: TokenRequest, payload: Option<ServerError>)
    modifies a
    ensures a.Valid()
    ensures !a.isAuth && a.status == FAILURE && a.errors == payload
  {
    a.TokenPending(r);
    a.Rejected(payload);
  }

  /** A failed sign-in leaves the sign-in state as it was before. */
  method FailedLoginKeepsState(a: Auth, payload: Option<ServerError>)
    modifies a
    ensures a.Valid()
    ensures a.isAuth == old(a.isAuth) && a.status == FAILURE && a.errors == payload
  {
    a.LoginPending();
    a.Rejected(payload);
  }
}
