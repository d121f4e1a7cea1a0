/** The email-verification form: the code guard and the request. */
module VerifyEmail {
  import opened Wrappers
  import opened Text

  const CodeLength := 6

  datatype VerifyIssue = BadCodeLength

  /** The body of the verification request. */
  datatype VerifyEmailRequest = VerifyEmailRequest(email: string, code: string)

  /** The verify handler up to the request: any code of exactly six
      characters is sent, untrimmed and unchecked, with the email the
      screen was opened for. */
  function SubmitCode(email: string, code: string): (r: Result<VerifyEmailRequest, VerifyIssue>)
    ensures r.Success? <==> |code| == CodeLength
    ensures code == [] ==> r.Failure?
    ensures r.Success? ==> r.value.email == email && r.value.code == code
  {
    if code == [] || |code| != CodeLength then Failure(BadCodeLength)
    else Success(VerifyEmailRequest(email, code))
  }

  /** The alert text after a failed verification: the server's `message`,
      else a generic text. */
  function VerifyErrorText(message: Option<string>): (t: string)
    ensures t != []
    ensures message.Some? && message.value != [] ==> t == message.value
    ensures message.None? || message.value == [] ==> t == "Verification failed"
  {
    Or(message, "Verification failed")
  }

  /** The guard does not look at what the characters are. */
  lemma NonDigitCodeSent()
    ensures SubmitCode("user@example.com", "ab c!?").Success?
  {
  }
}
