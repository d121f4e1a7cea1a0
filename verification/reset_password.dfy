/** The reset-password form: its guards, checked in order, and the request
    it sends once they all pass. */
module ResetPassword {
  import opened Wrappers
  import opened Text

  const MinPasswordLength := 6

  /** The first guard that failed. */
  datatype ResetIssue = MissingCode | MissingPassword | PasswordTooShort | PasswordMismatch

  /** The body of the reset request. */
  datatype ResetRequest = ResetRequest(email: string, resetCode: string, newPassword: string)

  /** The reset handler up to the request. Blank tests are made on the
      trimmed code and password; the length and match tests on the password
      as typed; the request carries the trimmed code and password. `email`
      comes from the screen's route. */
  function ValidateReset(email: string, code: string, newPassword: string, confirmPassword: string)
    : (r: Result<ResetRequest, ResetIssue>)
    ensures r == Failure(MissingCode) <==> AllSpace(code)
    ensures r == Failure(MissingPassword) <==> !AllSpace(code) && AllSpace(newPassword)
    ensures r == Failure(PasswordTooShort) <==>
      !AllSpace(code) && !AllSpace(newPassword) && |newPassword| < MinPasswordLength
    ensures r == Failure(PasswordMismatch) <==>
      !AllSpace(code) && !AllSpace(newPassword) && |newPassword| >= MinPasswordLength &&
      newPassword != confirmPassword
    ensures r.Success? <==>
      !AllSpace(code) && !AllSpace(newPassword) && |newPassword| >= MinPasswordLength &&
      newPassword == confirmPassword
    ensures r.Success? ==> r.value == ResetRequest(email, Trim(code), Trim(newPassword))
  {
    TrimEmptyIff(code);
    TrimEmptyIff(newPassword);
    if Trim(code) == [] then Failure(MissingCode)
    else if Trim(newPassword) == [] then Failure(MissingPassword)
    else if |newPassword| < MinPasswordLength then Failure(PasswordTooShort)
    else if newPassword != confirmPassword then Failure(PasswordMismatch)
    else Success(ResetRequest(email, Trim(code), Trim(newPassword)))
  }

  /** The alert text after a failed reset: the server's `message`, else a
      generic text. */
  function ResetErrorText(message: Option<string>): (t: string)
    ensures t != []
    ensures message.Some? && message.value != [] ==> t == message.value
    ensures message.None? || message.value == [] ==> t == "Unable to reset password. Please try again."
  {
    Or(message, "Unable to reset password. Please try again.")
  }

  /** Since the length test looks at the password as typed, a password
      padded with white space to six characters is accepted and sent
      shorter than six characters. */
  lemma ShortTrimmedPasswordAccepted()
    ensures var r := ValidateReset("a@b.co", "123456", " abcde", " abcde");
      r.Success? && r.value.newPassword == "abcde" && |r.value.newPassword| < MinPasswordLength
  {
    var p := " abcde";
    TrimUnique(" ", "abcde", "");
    assert " " + "abcde" + "" == p;
    assert !AllSpace(p) by { assert !IsSpace(p[1]); }
    var c := "123456";
    TrimUnique("", c, "");
    assert "" + c + "" == c;
    assert !AllSpace(c) by { assert !IsSpace(c[0]); }
  }
}
