/**
 * The login page: its password check (one message for every failure), the
 * submit with its error precedence and status-to-message mapping, and the
 * error clearing on input. The e-mail validator is the sign-up page's.
 *
 * The login request is an input: `None` when the request itself fails.
 */
module Login {
  import opened Wrappers
  import SignUp

  const BadCredentials := "Incorrect email or password"
  const BadCredentialsReply := "Incorrect email or password."
  const LoginFailed := "Login failed. Please try again."

  /** "" exactly for a password meeting all four sign-up rules; otherwise
      one message that does not say which rule failed. */
  function ValidatePassword(p: string): (r: string)
    ensures r == "" <==> SignUp.StrongPassword(p)
    ensures r != "" ==> r == BadCredentials
  {
    if |p| < 8 || !SignUp.HasUpperCase(p) || !SignUp.HasLowerCase(p) || !SignUp.HasNumber(p) then BadCredentials
    else ""
  }

  /** Login accepts exactly the passwords sign-up accepts. */
  lemma SameRulesAsSignUp(p: string)
    ensures ValidatePassword(p) == "" <==> SignUp.ValidatePassword(p) == ""
  {
  }

  /** `parsed` is false when the reply is not JSON. */
  datatype LoginReply = LoginReply(status: int, parsed: bool)

  datatype LoginOutcome = LoggedIn | FormMessage(message: string)

  /** A 2xx JSON reply logs in; a 401 asks to check the credentials; every
      other reply, and a failed request, ends in the generic message. */
  function LoginResult(reply: Option<LoginReply>): (o: LoginOutcome)
    ensures o == LoggedIn <==> reply.Some? && reply.value.parsed && SignUp.IsOk(reply.value.status)
    ensures o == FormMessage(BadCredentialsReply) <==> reply.Some? && reply.value.parsed && reply.value.status == 401
    ensures o.FormMessage? ==> o.message == BadCredentialsReply || o.message == LoginFailed
  {
    match reply
    case None => FormMessage(LoginFailed)
    case Some(LoginReply(status, parsed)) =>
      if !parsed then FormMessage(LoginFailed)
      else if SignUp.IsOk(status) then LoggedIn
      else if status == 401 then FormMessage(BadCredentialsReply)
      else FormMessage(LoginFailed)
  }

  class LoginPage {
    var email: string
    var emailError: string
    var password: string
    var passwordVisible: bool
    var formError: string
    /** Where `window.location.href` was sent, if anywhere. */
    var location: Option<string>

    constructor()
      ensures email == "" && emailError == "" && password == "" && !passwordVisible
      ensures formError == "" && location == None
    {
      email := "";
      emailError := "";
      password := "";
      passwordVisible := false;
      formError := "";
      location := None;
    }

    /** Editing the e-mail clears both errors. */
    method ChangeEmail(value: string)
      modifies this
      ensures email == value && emailError == "" && formError == ""
      ensures password == old(password) && location == old(location)
      ensures passwordVisible == old(passwordVisible)
    {
      email := value;
      if emailError != "" { emailError := ""; }
      if formError != "" { formError := ""; }
    }

    /** Editing the password clears only the form error. */
    method ChangePassword(value: string)
      modifies this
      ensures password == value && formError == ""
      ensures email == old(email) && emailError == old(emailError) && location == old(location)
      ensures passwordVisible == old(passwordVisible)
    {
      password := value;
      if formError != "" { formError := ""; }
    }

    method TogglePasswordVisible()
      modifies this
      ensures passwordVisible == !old(passwordVisible)
      ensures email == old(email) && password == old(password) && formError == old(formError)
      ensures emailError == old(emailError) && location == old(location)
    {
      passwordVisible := !passwordVisible;
    }

    /** The login submit. An e-mail error shows under the e-mail field with
        no form error; a password error shows as the form error with no
        e-mail error; only when both pass is the request made. */
    method Submit(reply: Option<LoginReply>) returns (requested: bool)
      modifies this
      ensures requested <==> SignUp.ValidateEmail(email) == "" && ValidatePassword(password) == ""
      ensures email == old(email) && password == old(password)
      ensures passwordVisible == old(passwordVisible)
      ensures SignUp.ValidateEmail(email) != "" ==>
        emailError == SignUp.ValidateEmail(email) && formError == "" && location == old(location)
      ensures SignUp.ValidateEmail(email) == "" && ValidatePassword(password) != "" ==>
        formError == BadCredentials && emailError == "" && location == old(location)
      ensures requested ==> emailError == old(emailError)
      ensures requested ==>
        match LoginResult(reply)
        case LoggedIn => location == Some("/dashboard") && formError == ""
        case FormMessage(m) => formError == m && location == old(location)
    {
      formError := "";
      var emailValidationError := SignUp.ValidateEmail(email);
      var passwordValidationError := ValidatePassword(password);
      if emailValidationError != "" {
        emailError := emailValidationError;
        formError := "";
        return false;
      }
      if passwordValidationError != "" {
        formError := passwordValidationError;
        emailError := "";
        return false;
      }
      requested := true;
      match LoginResult(reply)
      case LoggedIn =>
        location := Some("/dashboard");
      case FormMessage(m) =>
        formError := m;
    }
  }
}
