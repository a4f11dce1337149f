/**
 * The sign-up page: its e-mail and password validators, the registration
 * submit with its error precedence and server-status handling, the six-slot
 * verification code, the team step, and the colour slots and reverse flag
 * the background dot matrix derives from its props.
 *
 * The registration request is an input: `Option<RegisterReply>` is `None`
 * when the request itself fails. The `setTimeout` callbacks are pending
 * timers that a later step fires.
 */
module SignUp {
  import opened Wrappers
  import Text
  import EmailPattern

  // ---------------------------------------------------------------------
  // Validators

  const EmailRequired := "Email is required"
  const EmailInvalid := "Please enter a valid email address"

  /** "" when the address is acceptable, otherwise the message to show. */
  function ValidateEmail(email: string): (r: string)
    ensures email == "" ==> r == EmailRequired
    ensures email != "" ==> (r == "" <==> EmailPattern.MatchesEmailPattern(email))
    ensures email != "" && r != "" ==> r == EmailInvalid
  {
    EmailPattern.IsValidEmailMatchesPattern(email);
    if email == "" then EmailRequired
    else if !EmailPattern.IsValidEmail(email) then EmailInvalid
    else ""
  }

  predicate HasUpperCase(p: string) { exists c :: c in p && 'A' <= c <= 'Z' }
  predicate HasLowerCase(p: string) { exists c :: c in p && 'a' <= c <= 'z' }
  predicate HasNumber(p: string) { exists c :: c in p && '0' <= c <= '9' }

  /** The four password rules together. */
  predicate StrongPassword(p: string) {
    |p| >= 8 && HasUpperCase(p) && HasLowerCase(p) && HasNumber(p)
  }

  const TooShort := "Password must be at least 8 characters"
  const NoUpperCase := "Password must contain an uppercase letter"
  const NoLowerCase := "Password must contain a lowercase letter"
  const NoNumber := "Password must contain a number"

  /** "" exactly for a strong password; otherwise the message of the first
      rule broken, in the order length, upper case, lower case, digit. */
  function ValidatePassword(p: string): (r: string)
    ensures r == "" <==> StrongPassword(p)
    ensures |p| < 8 ==> r == TooShort
    ensures |p| >= 8 && !HasUpperCase(p) ==> r == NoUpperCase
    ensures |p| >= 8 && HasUpperCase(p) && !HasLowerCase(p) ==> r == NoLowerCase
    ensures |p| >= 8 && HasUpperCase(p) && HasLowerCase(p) && !HasNumber(p) ==> r == NoNumber
  {
    if |p| < 8 then TooShort
    else if !HasUpperCase(p) then NoUpperCase
    else if !HasLowerCase(p) then NoLowerCase
    else if !HasNumber(p) then NoNumber
    else ""
  }

  /** A strong password is at least eight characters long and so cannot be blank. */
  lemma StrongPasswordNotEmpty(p: string)
    requires ValidatePassword(p) == ""
    ensures |p| >= 8 && p != ""
  {
  }

  // ---------------------------------------------------------------------
  // Background dot matrix

  /** The six colour slots: two colours take three slots each, three take
      two each, any other count repeats the first colour. */
  function ColorSlots<C>(colors: seq<C>): (r: seq<C>)
    requires |colors| >= 1
    ensures |r| == 6
    ensures |colors| == 2 ==> forall i :: 0 <= i < 6 ==> r[i] == colors[i / 3]
    ensures |colors| == 3 ==> forall i :: 0 <= i < 6 ==> r[i] == colors[i / 2]
    ensures |colors| != 2 && |colors| != 3 ==> forall i :: 0 <= i < 6 ==> r[i] == colors[0]
  {
    if |colors| == 2 then [colors[0], colors[0], colors[0], colors[1], colors[1], colors[1]]
    else if |colors| == 3 then [colors[0], colors[0], colors[1], colors[1], colors[2], colors[2]]
    else [colors[0], colors[0], colors[0], colors[0], colors[0], colors[0]]
  }

  /** With one, two or three colours every colour gets a slot. */
  lemma EveryColorUsed<C>(colors: seq<C>, k: nat)
    requires 1 <= |colors| <= 3 && k < |colors|
    ensures colors[k] in ColorSlots(colors)
  {
    var r := ColorSlots(colors);
    if |colors| == 2 { assert r[3 * k] == colors[k]; }
    else if |colors| == 3 { assert r[2 * k] == colors[k]; }
    else { assert r[0] == colors[k]; }
  }

  const ReverseFlag := "u_reverse_active"

  /** The string the reveal effect passes as `shader`: a reverse flag and the
      animation speed written with one decimal. */
  function ShaderFlags(reverse: bool, speedText: string): string {
    "\n          " + (if reverse then ReverseFlag else "false") +
    "_;\n          animation_speed_factor_" + speedText + "_;\n        "
  }

  /** The `u_reverse` uniform: 1 iff the shader string holds the flag. */
  function ReverseUniform(shader: string): (u: nat)
    ensures u == 1 <==> Text.Contains(shader, ReverseFlag)
    ensures u <= 1
  {
    if Text.Contains(shader, ReverseFlag) then 1 else 0
  }

  /** The flag survives the trip through the shader string: `u_reverse` is 1
      exactly when `reverse` was set. The speed text is the output of
      `toFixed(1)`, which never holds the letter 'u'. */
  lemma ReverseRoundTrip(reverse: bool, speedText: string)
    requires 'u' !in speedText
    ensures ReverseUniform(ShaderFlags(reverse, speedText)) == if reverse then 1 else 0
  {
    var s := ShaderFlags(reverse, speedText);
    if reverse {
      assert Text.OccursAt(s, ReverseFlag, 11);
    } else {
      assert 'u' in ReverseFlag;
      assert 'u' !in s;
      if Text.Contains(s, ReverseFlag) {
        Text.ContainsHasChars(s, ReverseFlag, 'u');
      }
    }
  }

  // ---------------------------------------------------------------------
  // The registration request

  /** The parsed reply body: `errors` missing, or its first e-mail and
      password messages (`None` when that field is absent). */
  datatype ReplyBody = NoErrors | Errors(email: Option<string>, password: Option<string>)

  /** `body` is `None` when the reply is not JSON. */
  datatype RegisterReply = RegisterReply(status: int, body: Option<ReplyBody>)

  datatype RegisterOutcome =
    | Registered
    | FieldErrors(email: Option<string>, password: Option<string>)
    | RegistrationFailed

  const RegistrationFailedMessage := "Registration failed. Please try again."

  predicate IsOk(status: int) { 200 <= status <= 299 }

  /** What a reply amounts to. A failed request, a body that is not JSON, a
      400/422 reply without `errors`, a 500 and any other non-2xx status all
      end in the catch block. */
  function RegisterResult(reply: Option<RegisterReply>): (o: RegisterOutcome)
    ensures o == Registered <==> reply.Some? && reply.value.body.Some? && IsOk(reply.value.status)
    ensures o.FieldErrors? <==>
      (reply.Some? && reply.value.body.Some? && reply.value.body.value.Errors? &&
       (reply.value.status == 422 || reply.value.status == 400))
    ensures o.FieldErrors? ==> o.email == reply.value.body.value.email && o.password == reply.value.body.value.password
  {
    match reply
    case None => RegistrationFailed
    case Some(RegisterReply(status, body)) =>
      if body.None? then RegistrationFailed
      else if IsOk(status) then Registered
      else if status == 422 || status == 400 then
        (match body.value
         case NoErrors => RegistrationFailed
         case Errors(e, p) => FieldErrors(e, p))
      else RegistrationFailed
  }

  /** A field message the server sent replaces the shown one, even an empty
      message; a field it did not mention keeps its message. */
  function ErrorOr(message: Option<string>, current: string): string {
    if message.Some? then message.value else current
  }

  // ---------------------------------------------------------------------
  // The page's state

  datatype Step = EmailStep | CodeStep | TeamStep | SuccessStep

  /** The `setTimeout` callbacks: to the team step, to the success step, and
      the final redirect. */
  datatype Timer = ToTeam | ToSuccess | FinishSignup

  predicate CodeComplete(code: seq<string>) {
    forall i :: 0 <= i < |code| ==> |code[i]| == 1
  }

  class SignUpPage {
    var email: string
    var emailError: string
    var password: string
    var passwordError: string
    var passwordVisible: bool
    var step: Step
    var code: seq<string>
    var pixelCanvasVisible: bool
    var teamName: string
    var pending: seq<Timer>
    /** Where `window.location.href` was sent, if anywhere. */
    var location: Option<string>

    predicate Valid()
      reads this
    {
      |code| == 6
    }

    constructor()
      ensures Valid()
      ensures email == "" && emailError == "" && password == "" && passwordError == ""
      ensures !passwordVisible && step == EmailStep && code == ["", "", "", "", "", ""]
      ensures pixelCanvasVisible && teamName == "" && pending == [] && location == None
    {
      email := "";
      emailError := "";
      password := "";
      passwordError := "";
      passwordVisible := false;
      step := EmailStep;
      code := ["", "", "", "", "", ""];
      pixelCanvasVisible := true;
      teamName := "";
      pending := [];
      location := None;
    }

    /** Typing in the e-mail field clears its error. */
    method ChangeEmail(value: string)
      modifies this
      ensures email == value && emailError == ""
      ensures password == old(password) && passwordError == old(passwordError)
      ensures step == old(step) && code == old(code) && pending == old(pending)
      ensures passwordVisible == old(passwordVisible) && pixelCanvasVisible == old(pixelCanvasVisible)
      ensures teamName == old(teamName) && location == old(location)
    {
      email := value;
      if emailError != "" {
        emailError := "";
      }
    }

    /** Typing in the password field clears its error. */
    method ChangePassword(value: string)
      modifies this
      ensures password == value && passwordError == ""
      ensures email == old(email) && emailError == old(emailError)
      ensures step == old(step) && code == old(code) && pending == old(pending)
      ensures passwordVisible == old(passwordVisible) && pixelCanvasVisible == old(pixelCanvasVisible)
      ensures teamName == old(teamName) && location == old(location)
    {
      password := value;
      if passwordError != "" {
        passwordError := "";
      }
    }

    method TogglePasswordVisible()
      modifies this
      ensures passwordVisible == !old(passwordVisible)
      ensures email == old(email) && password == old(password) && step == old(step)
      ensures emailError == old(emailError) && passwordError == old(passwordError)
      ensures code == old(code) && pending == old(pending) && pixelCanvasVisible == old(pixelCanvasVisible)
      ensures teamName == old(teamName) && location == old(location)
    {
      passwordVisible := !passwordVisible;
    }

    /** The e-mail form's submit. An e-mail error is reported alone (the
        password is not looked at and the other error is left as it was);
        then a password error; only when both pass is the request made, and
        `requested` says so. The reply then moves to the code step, shows
        the server's field messages, or shows the generic failure. */
    method SubmitEmail(reply: Option<RegisterReply>) returns (requested: bool)
      modifies this
      ensures requested <==> ValidateEmail(email) == "" && ValidatePassword(password) == ""
      ensures email == old(email) && password == old(password)
      ensures code == old(code) && pending == old(pending) && teamName == old(teamName)
      ensures passwordVisible == old(passwordVisible) && pixelCanvasVisible == old(pixelCanvasVisible)
      ensures location == old(location)
      ensures ValidateEmail(email) != "" ==>
        emailError == ValidateEmail(email) && passwordError == old(passwordError) && step == old(step)
      ensures ValidateEmail(email) == "" && ValidatePassword(password) != "" ==>
        passwordError == ValidatePassword(password) && emailError == old(emailError) && step == old(step)
      ensures requested ==>
        match RegisterResult(reply)
        case Registered =>
          step == CodeStep && emailError == old(emailError) && passwordError == old(passwordError)
        case FieldErrors(e, p) =>
          step == old(step) && emailError == ErrorOr(e, old(emailError)) && passwordError == ErrorOr(p, old(passwordError))
        case RegistrationFailed =>
          step == old(step) && emailError == RegistrationFailedMessage && passwordError == old(passwordError)
    {
      var emailValidationError := ValidateEmail(email);
      var passwordValidationError := ValidatePassword(password);
      if emailValidationError != "" {
        emailError := emailValidationError;
        return false;
      }
      if passwordValidationError != "" {
        passwordError := passwordValidationError;
        return false;
      }
      requested := true;
      match RegisterResult(reply)
      case Registered =>
        step := CodeStep;
      case FieldErrors(e, p) =>
        emailError := ErrorOr(e, emailError);
        passwordError := ErrorOr(p, passwordError);
      case RegistrationFailed =>
        emailError := RegistrationFailedMessage;
    }

    /** Typing into code slot `index`: a value of more than one character is
        ignored; otherwise only that slot changes, and when the last slot
        gets a character and every slot then holds exactly one, the move to
        the team step is scheduled. */
    method ChangeCode(index: nat, value: string)
      requires Valid() && index < 6
      modifies this
      ensures Valid()
      ensures |value| > 1 ==> code == old(code) && pending == old(pending)
      ensures |value| <= 1 ==> code == old(code)[index := value]
      ensures |value| <= 1 && index == 5 && value != "" && CodeComplete(code) ==> pending == old(pending) + [ToTeam]
      ensures !(|value| <= 1 && index == 5 && value != "" && CodeComplete(code)) ==> pending == old(pending)
      ensures step == old(step) && email == old(email) && teamName == old(teamName)
      ensures password == old(password) && emailError == old(emailError) && passwordError == old(passwordError)
      ensures passwordVisible == old(passwordVisible) && pixelCanvasVisible == old(pixelCanvasVisible)
      ensures location == old(location)
    {
      if |value| <= 1 {
        var newCode := code[index := value];
        code := newCode;
        if index == 5 && value != "" {
          if CodeComplete(newCode) {
            pending := pending + [ToTeam];
          }
        }
      }
    }

    /** Back to the e-mail step with an empty code; the canvas stays shown. */
    method Back()
      modifies this
      ensures Valid()
      ensures step == EmailStep && code == ["", "", "", "", "", ""] && pixelCanvasVisible
      ensures email == old(email) && password == old(password) && teamName == old(teamName)
      ensures pending == old(pending) && emailError == old(emailError) && passwordError == old(passwordError)
      ensures passwordVisible == old(passwordVisible) && location == old(location)
    {
      step := EmailStep;
      code := ["", "", "", "", "", ""];
      pixelCanvasVisible := true;
    }

    method ChangeTeamName(value: string)
      modifies this
      ensures teamName == value
      ensures step == old(step) && code == old(code) && pending == old(pending)
      ensures email == old(email) && password == old(password)
      ensures emailError == old(emailError) && passwordError == old(passwordError)
      ensures passwordVisible == old(passwordVisible) && pixelCanvasVisible == old(pixelCanvasVisible)
      ensures location == old(location)
    {
      teamName := value;
    }

    /** The team form's submit schedules the success step only for a
        non-empty team name. */
    method SubmitTeam()
      modifies this
      ensures teamName != "" ==> pending == old(pending) + [ToSuccess]
      ensures teamName == "" ==> pending == old(pending)
      ensures step == old(step) && teamName == old(teamName) && code == old(code)
      ensures email == old(email) && password == old(password)
      ensures emailError == old(emailError) && passwordError == old(passwordError)
      ensures passwordVisible == old(passwordVisible) && pixelCanvasVisible == old(pixelCanvasVisible)
      ensures location == old(location)
    {
      if teamName != "" {
        pending := pending + [ToSuccess];
      }
    }

    /** A timer fires: the team step, the success step (which schedules the
        redirect), or the redirect home with the canvas hidden. */
    method FireTimer(i: nat)
      requires Valid() && i < |pending|
      modifies this
      ensures Valid()
      ensures old(pending[i]) == ToTeam ==>
        step == TeamStep && pending == old(pending[..i] + pending[i + 1..]) && location == old(location) &&
        pixelCanvasVisible == old(pixelCanvasVisible)
      ensures old(pending[i]) == ToSuccess ==>
        step == SuccessStep && pending == old(pending[..i] + pending[i + 1..]) + [FinishSignup] && location == old(location) &&
        pixelCanvasVisible == old(pixelCanvasVisible)
      ensures old(pending[i]) == FinishSignup ==>
        step == old(step) && !pixelCanvasVisible && location == Some("/") && pending == old(pending[..i] + pending[i + 1..])
      ensures code == old(code) && teamName == old(teamName) && email == old(email)
      ensures password == old(password) && emailError == old(emailError) && passwordError == old(passwordError)
      ensures passwordVisible == old(passwordVisible)
    {
      var t := pending[i];
      pending := pending[..i] + pending[i + 1..];
      match t
      case ToTeam =>
        step := TeamStep;
      case ToSuccess =>
        step := SuccessStep;
        pending := pending + [FinishSignup];
      case FinishSignup =>
        pixelCanvasVisible := false;
        location := Some("/");
    }
  }
}
