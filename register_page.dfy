/** The registration form: the password confirmation is checked first,
    then the e-mail pattern, and only then is the account requested; a
    successful answer is stored and decides where the user lands. */
module RegisterPage {
  import opened Strings
  import opened JsValues
  import opened AuthForms

  /** The JSON body of the registration request. */
  datatype RegisterBody = RegisterBody(name: string, email: string, password: string, role: string)

  const PasswordMismatch := "Passwords do not match"
  const InvalidEmail := "Please enter a valid email address"

  class Page {
    var username: string
    var email: string
    var password: string
    var confirmPassword: string
    var role: string
    var loading: bool
    var emailError: string
    var passwordError: string
    var effects: seq<Effect>

    constructor ()
      ensures username == "" && email == "" && password == "" && confirmPassword == ""
      ensures role == "user" && !loading && emailError == "" && passwordError == "" && effects == []
    {
      username, email, password, confirmPassword := "", "", "", "";
      role := "user";
      loading := false;
      emailError, passwordError := "", "";
      effects := [];
    }

    /** `canSubmit`: names are trimmed, passwords are not. */
    predicate CanSubmit()
      reads this
    {
      && Trim(username) != "" && Trim(email) != ""
      && password != "" && confirmPassword != ""
      && emailError == "" && passwordError == "" && !loading
    }

    /** `handleRegister`, with the server's answer as a parameter. */
    method Submit(response: AuthResponse) returns (request: Option<RegisterBody>)
      modifies this
      ensures username == old(username) && email == old(email) && role == old(role)
      ensures password == old(password) && confirmPassword == old(confirmPassword)
      ensures password != confirmPassword ==>
        && request.None? && passwordError == PasswordMismatch && emailError == ""
        && loading == old(loading) && effects == old(effects)
      ensures password == confirmPassword && !ValidEmail(email) ==>
        && request.None? && emailError == InvalidEmail && passwordError == ""
        && loading == old(loading) && effects == old(effects)
      ensures password == confirmPassword && ValidEmail(email) ==>
        && request == Some(RegisterBody(username, email, password, ToLower(role)))
        && emailError == "" && passwordError == "" && !loading
        && effects == old(effects) + match response
             case Authenticated(t, r) =>
               [SetItem("token", t), SetItem("role", r), Alert("Registration successful!"), Navigate(HomeFor(r))]
             case Rejected(se, m) => [Alert(FirstMessage(se, m, "Registration failed"))]
      ensures request.None? ==> !CanSubmit()
    {
      emailError := "";
      passwordError := "";
      if password != confirmPassword {
        passwordError := PasswordMismatch;
        return None;
      }
      if !ValidEmail(email) {
        emailError := InvalidEmail;
        return None;
      }
      loading := true;
      request := Some(RegisterBody(username, email, password, ToLower(role)));
      match response {
        case Authenticated(t, r) =>
          effects := effects + [SetItem("token", t), SetItem("role", r)];
          effects := effects + [Alert("Registration successful!")];
          effects := effects + [Navigate(HomeFor(r))];
        case Rejected(se, m) =>
          effects := effects + [Alert(FirstMessage(se, m, "Registration failed"))];
      }
      loading := false;
    }
  }

  /** Only an "admin" answer lands on the admin dashboard. */
  lemma AdminLandsOnAdminDashboard(r: string)
    ensures HomeFor(r) == "/admin-dashboard" <==> r == "admin"
    ensures HomeFor("Admin") == "/dashboard"
  {
  }
}
