/** The login screen: the request it sends, how it classifies a rejected
    login, and how editing a field clears the error display. */
module Login {
  import opened Wrappers
  import opened Text

  /** Why a login request failed: an HTTP error whose body may carry
      `message`, `msg`, `requiresVerification` and `email`, or any other
      failure. */
  datatype LoginError =
    | ServerError(message: Option<string>, msg: Option<string>, requiresVerification: bool, email: Option<string>)
    | UnexpectedError

  datatype LoginResponse = LoggedIn(token: string) | Rejected(error: LoginError)

  /** The body of the login request. */
  datatype Credentials = Credentials(email: string, password: string)

  /** What the screen does with the response. */
  datatype Outcome =
    | Enter(token: string)            // token stored, main screen shown
    | VerifyPrompt(email: string)     // "Email Not Verified" alert leading to verification of `email`
    | DeactivatedAlert                // "Account Deactivated" alert
    | ShowErrors(emailError: bool, passwordError: bool, errorMsg: string)

  const InvalidCredentialsText := "Invalid email or password"
  const UnexpectedErrorText := "An unexpected error occurred"

  /** The error text of a server error: `message`, else `msg`, else a
      generic text. */
  function ErrorText(e: LoginError): (t: string)
    requires e.ServerError?
    ensures t != []
    ensures e.message.Some? && e.message.value != [] ==> t == e.message.value
    ensures (e.message.None? || e.message.value == []) && e.msg.Some? && e.msg.value != [] ==> t == e.msg.value
    ensures (e.message.None? || e.message.value == []) && (e.msg.None? || e.msg.value == []) ==>
      t == "An error occurred"
  {
    Or(e.message, Or(e.msg, "An error occurred"))
  }

  /** The email as sent: `email.toLowerCase().trim()`. It is trimmed and is
      also the lower-cased form of the trimmed input. */
  function NormalizedEmail(email: string): (r: string)
    ensures Trimmed(r)
    ensures r == ToLower(Trim(email))
  {
    ToLowerTrimCommute(email);
    Trim(ToLower(email))
  }

  /** Case-insensitive test that `text` mentions `word` (a lower-case word). */
  predicate Mentions(text: string, word: string) {
    Contains(ToLower(text), word)
  }

  /** A text that mentions "invalid credentials" mentions "invalid", so the
      first of the two tests the screen makes adds nothing. */
  lemma MentionsInvalidCredentials(text: string)
    ensures Mentions(text, "invalid credentials") ==> Mentions(text, "invalid")
  {
    if Mentions(text, "invalid credentials") {
      assert "invalid credentials" == "invalid" + " credentials";
      ContainsPrefix(ToLower(text), "invalid", " credentials");
    }
  }

  predicate NeedsVerification(e: LoginError) {
    e.ServerError? && e.requiresVerification && e.email.Some? && e.email.value != []
  }

  /** The words the screen looks for in an error text, ignoring case. */
  datatype Cues = Cues(deactivated: bool, suspended: bool, invalidCredentials: bool, invalid: bool,
                       email: bool, password: bool)

  function CuesOf(message: string): (c: Cues)
    ensures c.invalidCredentials ==> c.invalid
  {
    MentionsInvalidCredentials(message);
    Cues(Mentions(message, "deactivated"), Mentions(message, "suspended"),
         Mentions(message, "invalid credentials"), Mentions(message, "invalid"),
         Mentions(message, "email"), Mentions(message, "password"))
  }

  /** The screen's reaction to a login response: the branches of the
      handler, in the order it tests them. */
  function Classify(response: LoginResponse): (o: Outcome)
    ensures o.Enter? <==> response.LoggedIn?
    ensures o.Enter? ==> o.token == response.token
  {
    match response
    case LoggedIn(token) => Enter(token)
    case Rejected(e) =>
      if e.UnexpectedError? then ShowErrors(false, false, UnexpectedErrorText)
      else
        var message := ErrorText(e);
        var c := CuesOf(message);
        if e.requiresVerification && Or(e.email, "") != [] then VerifyPrompt(e.email.value)
        else if c.deactivated || c.suspended then DeactivatedAlert
        else FieldErrors(message, c)
  }

  /** The field flags and text for an error that is neither a verification
      request nor a deactivation. */
  function FieldErrors(message: string, c: Cues): (o: Outcome)
    ensures o.ShowErrors?
    ensures o.emailError <==> c.invalidCredentials || c.invalid || c.email
    ensures o.passwordError <==> c.invalidCredentials || c.invalid || (!c.email && c.password)
    ensures o.emailError && o.passwordError ==> o.errorMsg == InvalidCredentialsText
    ensures !(o.emailError && o.passwordError) ==> o.errorMsg == message
  {
    if c.invalidCredentials || c.invalid then ShowErrors(true, true, InvalidCredentialsText)
    else if c.email then ShowErrors(true, false, message)
    else if c.password then ShowErrors(false, true, message)
    else ShowErrors(false, false, message)
  }

  /** What each response leads to, stated per outcome: a token enters the
      app; a flagged unverified account with an email prompts verification
      of that email; a message mentioning deactivation or suspension shows
      that alert; otherwise "invalid" flags both fields with a fixed text,
      "email" flags the email field and "password" the password field, each
      with the server's text. */
  lemma ClassifySpec(response: LoginResponse)
    ensures var o := Classify(response);
      (o.Enter? <==> response.LoggedIn?) &&
      (o.VerifyPrompt? <==> response.Rejected? && NeedsVerification(response.error)) &&
      (o.VerifyPrompt? ==> Some(o.email) == response.error.email)
    ensures var o := Classify(response);
      o.DeactivatedAlert? <==>
        response.Rejected? && response.error.ServerError? && !NeedsVerification(response.error) &&
        (Mentions(ErrorText(response.error), "deactivated") || Mentions(ErrorText(response.error), "suspended"))
    ensures var o := Classify(response);
      o.ShowErrors? ==>
        o.errorMsg != [] && (o.emailError && o.passwordError ==> o.errorMsg == InvalidCredentialsText)
    ensures var o := Classify(response);
      o.ShowErrors? && response.error.UnexpectedError? ==> o == ShowErrors(false, false, UnexpectedErrorText)
    ensures var o := Classify(response);
      o.ShowErrors? && response.error.ServerError? ==>
        var t := ErrorText(response.error);
        !Mentions(t, "deactivated") && !Mentions(t, "suspended") &&
        (o.emailError <==> Mentions(t, "invalid") || Mentions(t, "email")) &&
        (o.passwordError <==> Mentions(t, "invalid") || (!Mentions(t, "email") && Mentions(t, "password"))) &&
        (!(o.emailError && o.passwordError) ==> o.errorMsg == t)
  {
  }

  /** The error display (`emailError`, `passwordError`, `errorMsg`) an
      outcome leaves behind; outcomes other than field errors leave it as
      cleared at the start of the attempt. */
  function ErrorDisplay(o: Outcome): (d: (bool, bool, string))
    ensures !o.ShowErrors? ==> d == (false, false, "")
    ensures o.ShowErrors? ==> d.0 == o.emailError && d.1 == o.passwordError && d.2 == o.errorMsg
  {
    if o.ShowErrors? then (o.emailError, o.passwordError, o.errorMsg) else (false, false, "")
  }

  /** A verification request or a deactivation notice leaves no field
      flagged and no text shown, whatever the server's text says. */
  lemma PromptsLeaveDisplayClear(response: LoginResponse)
    requires response.Rejected? && response.error.ServerError?
    requires NeedsVerification(response.error) ||
      Mentions(ErrorText(response.error), "deactivated") || Mentions(ErrorText(response.error), "suspended")
    ensures ErrorDisplay(Classify(response)) == (false, false, "")
  {
    ClassifySpec(response);
  }

  class LoginForm {
    var email: string
    var password: string
    var loading: bool
    var emailError: bool
    var passwordError: bool
    var errorMsg: string

    constructor ()
      ensures email == "" && password == "" && !loading
      ensures !emailError && !passwordError && errorMsg == ""
    {
      email, password, loading := "", "", false;
      emailError, passwordError, errorMsg := false, false, "";
    }

    /** Typing in the email field clears its flag and the error text, and
        keeps the password flag. */
    method EditEmail(text: string)
      modifies this`email, this`emailError, this`errorMsg
      ensures email == text && !emailError && errorMsg == ""
    {
      email := text;
      emailError := false;
      errorMsg := "";
    }

    /** Typing in the password field clears its flag and the error text,
        and keeps the email flag. */
    method EditPassword(text: string)
      modifies this`password, this`passwordError, this`errorMsg
      ensures password == text && !passwordError && errorMsg == ""
    {
      password := text;
      passwordError := false;
      errorMsg := "";
    }

    /** One login attempt. The error display is cleared first; the request
        carries the normalised email and the password as typed; `response`
        is what the server answered. */
    method HandleLogin(response: LoginResponse) returns (request: Credentials, outcome: Outcome)
      modifies this`loading, this`emailError, this`passwordError, this`errorMsg
      ensures request == Credentials(NormalizedEmail(email), password)
      ensures outcome == Classify(response)
      ensures (emailError, passwordError, errorMsg) == ErrorDisplay(outcome)
      ensures !loading
    {
      loading := true;
      emailError := false;
      passwordError := false;
      errorMsg := "";
      request := Credentials(Trim(ToLower(email)), password);
      match response {
        case LoggedIn(token) =>
          outcome := Enter(token);
        case Rejected(e) =>
          outcome := ShowRejection(e);
      }
      loading := false;
    }

    /** The error branch of a login attempt, starting from a cleared error
        display: the verification prompt, the deactivation alert, or the
        field flags and text. */
    method ShowRejection(e: LoginError) returns (outcome: Outcome)
      requires !emailError && !passwordError && errorMsg == ""
      modifies this`emailError, this`passwordError, this`errorMsg
      ensures outcome == Classify(Rejected(e))
      ensures (emailError, passwordError, errorMsg) == ErrorDisplay(outcome)
    {
      if e.ServerError? {
        var message := ErrorText(e);
        var c := CuesOf(message);
        if e.requiresVerification && Or(e.email, "") != [] {
          outcome := VerifyPrompt(e.email.value);
        } else if c.deactivated || c.suspended {
          outcome := DeactivatedAlert;
        } else {
          outcome := ShowFieldErrors(message, c);
        }
      } else {
        errorMsg := UnexpectedErrorText;
        outcome := ShowErrors(false, false, errorMsg);
      }
    }

    /** The field-error branch, starting from a cleared error display:
        "invalid" flags both fields, "email" the email field and "password"
        the password field. */
    method ShowFieldErrors(message: string, c: Cues) returns (outcome: Outcome)
      requires !emailError && !passwordError && errorMsg == ""
      modifies this`emailError, this`passwordError, this`errorMsg
      ensures outcome == FieldErrors(message, c)
      ensures outcome == ShowErrors(emailError, passwordError, errorMsg)
    {
      if c.invalidCredentials || c.invalid {
        emailError := true;
        passwordError := true;
        errorMsg := InvalidCredentialsText;
      } else if c.email {
        emailError := true;
        errorMsg := message;
      } else if c.password {
        passwordError := true;
        errorMsg := message;
      } else {
        errorMsg := message;
      }
      outcome := ShowErrors(emailError, passwordError, errorMsg);
    }
  }
}
