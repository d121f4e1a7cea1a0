/** The registration form: the required-field guard, the request, and the
    error text shown when registration fails. */
module Signup {
  import opened Wrappers
  import opened Text

  datatype SignupIssue = MissingField

  /** The body of the registration request. */
  datatype RegisterRequest = RegisterRequest(name: string, email: string, password: string)

  /** Why a registration request failed: an HTTP error whose body may carry
      `msg` and `error`, or any other failure. */
  datatype RegisterFailure = ServerError(msg: Option<string>, error: Option<string>) | UnexpectedError

  /** The register handler up to the request: every field must be
      non-empty, as typed (a field of spaces passes), and is sent as typed. */
  function SubmitRegistration(name: string, email: string, password: string)
    : (r: Result<RegisterRequest, SignupIssue>)
    ensures r.Success? <==> name != [] && email != [] && password != []
    ensures r.Success? ==> r.value.name == name && r.value.email == email && r.value.password == password
  {
    if name == [] || email == [] || password == [] then Failure(MissingField)
    else Success(RegisterRequest(name, email, password))
  }

  /** The alert text after a failed registration: the server's `msg`, else
      its `error`, else a generic text. */
  function RegisterErrorText(f: RegisterFailure): (t: string)
    ensures t != []
    ensures f.ServerError? && f.msg.Some? && f.msg.value != [] ==> t == f.msg.value
    ensures f.ServerError? && (f.msg.None? || f.msg.value == []) && f.error.Some? && f.error.value != [] ==>
      t == f.error.value
    ensures f.ServerError? && (f.msg.None? || f.msg.value == []) && (f.error.None? || f.error.value == []) ==>
      t == "An error occurred during registration."
    ensures f.UnexpectedError? ==> t == "An unexpected error occurred"
  {
    match f
    case ServerError(msg, error) => Or(msg, Or(error, "An error occurred during registration."))
    case UnexpectedError => "An unexpected error occurred"
  }
}
