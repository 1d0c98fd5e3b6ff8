/** The login form: the e-mail pattern is checked before any request; a
    successful answer stores the token and the role and then navigates. */
module LoginPage {
  import opened Strings
  import opened JsValues
  import opened AuthForms

  /** The JSON body of the login request. */
  datatype LoginBody = LoginBody(email: string, password: string, role: string)

  const InvalidEmail := "Please enter a valid email address"
  const LoginFailed := "Login failed. Try again."

  class Page {
    var email: string
    var password: string
    var role: string
    var error: string
    var loading: bool
    var effects: seq<Effect>

    constructor ()
      ensures email == "" && password == "" && role == "user" && error == "" && !loading && effects == []
    {
      email, password, role, error := "", "", "user", "";
      loading := false;
      effects := [];
    }

    /** `canSubmit`: nothing is trimmed. */
    predicate CanSubmit()
      reads this
    {
      email != "" && password != "" && !loading
    }

    /** `handleLogin`, with the server's answer as a parameter. */
    method Submit(response: AuthResponse) returns (request: Option<LoginBody>)
      modifies this
      ensures email == old(email) && password == old(password) && role == old(role)
      ensures !loading
      ensures !ValidEmail(email) ==> request.None? && error == InvalidEmail && effects == old(effects)
      ensures ValidEmail(email) ==>
        && request == Some(LoginBody(email, password, ToLower(role)))
        && match response
           case Authenticated(t, r) =>
             error == "" && effects == old(effects) + [SetItem("token", t), SetItem("role", r), Navigate(HomeFor(r))]
           case Rejected(se, _) =>
             error == FirstMessage(se, None, LoginFailed) && effects == old(effects)
    {
      error := "";
      loading := true;
      if !ValidEmail(email) {
        error := InvalidEmail;
        loading := false;
        return None;
      }
      request := Some(LoginBody(email, password, ToLower(role)));
      match response {
        case Authenticated(t, r) =>
          effects := effects + [SetItem("token", t), SetItem("role", r)];
          effects := effects + [Navigate(HomeFor(r))];
        case Rejected(se, _) =>
          error := FirstMessage(se, None, LoginFailed);
      }
      loading := false;
    }
  }

  /** The button does not trim, so an address of spaces enables it; the
      e-mail test then refuses it before any request. */
  lemma BlankAddressRefused()
    ensures !ValidEmail("   ")
  {
  }
}
