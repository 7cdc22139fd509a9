/** The auth store slice: the session token and user with the login request's flags. */
module AuthSlice {
  import opened Wrappers
  import opened Js

  /** A snapshot of the slice; `U` is the user object the login response carries. */
  datatype AuthState<U> = AuthState(token: Option<string>, user: Option<U>, loading: bool, error: Option<string>)

  /** `localStorage.getItem("token") || null`: a missing or empty stored token gives no token. */
  function StoredToken(stored: Option<string>): (t: Option<string>)
    ensures t.Some? <==> Truthy(stored)
    ensures t.Some? ==> t == stored
  {
    if Truthy(stored) then stored else None
  }

  /** `initialState`, given what local storage holds under "token". */
  function Initial<U>(stored: Option<string>): (s: AuthState<U>)
    ensures s.token == StoredToken(stored) && s.user.None? && !s.loading && s.error.None?
  {
    AuthState(StoredToken(stored), None, false, None)
  }

  class AuthStore<U> {
    var token: Option<string>
    var user: Option<U>
    var loading: bool
    var error: Option<string>

    function State(): AuthState<U>
      reads this
    {
      AuthState(token, user, loading, error)
    }

    constructor (stored: Option<string>)
      ensures State() == Initial(stored)
    {
      token := StoredToken(stored);
      user := None;
      loading := false;
      error := None;
    }

    /** `setToken`: only the token changes. */
    method SetToken(t: Option<string>)
      modifies this
      ensures State() == old(State()).(token := t)
    {
      token := t;
    }

    /** `loginUser.pending`: loading, the error cleared. */
    method LoginPending()
      modifies this
      ensures State() == old(State()).(loading := true, error := None)
    {
      loading := true;
      error := None;
    }

    /** `loginUser.fulfilled`: token and user come from the response; an earlier error stays. */
    method LoginFulfilled(t: Option<string>, u: Option<U>)
      modifies this
      ensures State() == old(State()).(loading := false, token := t, user := u)
    {
      loading := false;
      token := t;
      user := u;
    }

    /** `loginUser.rejected`: the payload becomes the error; token and user stay. */
    method LoginRejected(payload: string)
      modifies this
      ensures State() == old(State()).(loading := false, error := Some(payload))
    {
      loading := false;
      error := Some(payload);
    }
  }
}
