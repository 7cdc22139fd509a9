/** The signup store slice: the form's fields and the request's flags. */
module SignupSlice {
  import opened Wrappers

  datatype SignupState = SignupState(
    name: string,
    userName: string,
    email: string,
    password: string,
    confirmPassword: string,
    error: string,
    loading: bool,
    success: bool,
    token: Option<string>)

  /** `initialState`: empty strings, both flags false, no token. */
  function Initial(): (s: SignupState)
    ensures s.name == s.userName == s.email == s.password == s.confirmPassword == s.error == ""
    ensures !s.loading && !s.success && s.token.None?
  {
    SignupState("", "", "", "", "", "", false, false, None)
  }

  class SignupStore {
    var name: string
    var userName: string
    var email: string
    var password: string
    var confirmPassword: string
    var error: string
    var loading: bool
    var success: bool
    var token: Option<string>

    function State(): SignupState
      reads this
    {
      SignupState(name, userName, email, password, confirmPassword, error, loading, success, token)
    }

    constructor ()
      ensures State() == Initial()
    {
      name, userName, email, password, confirmPassword, error := "", "", "", "", "", "";
      loading, success, token := false, false, None;
    }

    method SetName(v: string)
      modifies this
      ensures State() == old(State()).(name := v)
    {
      name := v;
    }

    /** Declared among the reducers but not among the exported actions, so no page can dispatch it. */
    method SetUserName(v: string)
      modifies this
      ensures State() == old(State()).(userName := v)
    {
      userName := v;
    }

    method SetEmail(v: string)
      modifies this
      ensures State() == old(State()).(email := v)
    {
      email := v;
    }

    method SetPassword(v: string)
      modifies this
      ensures State() == old(State()).(password := v)
    {
      password := v;
    }

    method SetConfirmPassword(v: string)
      modifies this
      ensures State() == old(State()).(confirmPassword := v)
    {
      confirmPassword := v;
    }

    method SetError(v: string)
      modifies this
      ensures State() == old(State()).(error := v)
    {
      error := v;
    }

    /** `clearError`: the error back to the empty string. */
    method ClearError()
      modifies this
      ensures State() == old(State()).(error := "")
    {
      error := "";
    }

    method SetLoading(v: bool)
      modifies this
      ensures State() == old(State()).(loading := v)
    {
      loading := v;
    }

    method SetSuccess(v: bool)
      modifies this
      ensures State() == old(State()).(success := v)
    {
      success := v;
    }

    /** `setToken`: takes a token or null. */
    method SetToken(v: Option<string>)
      modifies this
      ensures State() == old(State()).(token := v)
    {
      token := v;
    }
  }
}
