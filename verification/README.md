# EcoCheck screens: input handling

A Dafny model of the client-side input handling in the EcoCheck mobile
app's screens. It covers:

- the report form's contact-number field, profile pre-fill and submission;
- the login screen's request and its reaction to a rejected login;
- the guards of the reset-password, forgot-password, email-verification
  and registration forms.

The app has no computational engine. Each screen handler checks what the
user typed, builds a request and reacts to the answer. The model states
those rules exactly and proves the properties the screens rely on.

Layout, one module per file:

- `wrappers.dfy`: `Option` and `Result`.
- `text.dfy`: the JavaScript string operations the handlers use.
  - `trim`: white space is ECMAScript WhiteSpace and LineTerminator, which is
    also what the regular-expression class `\s` matches.
  - `toLowerCase`.
  - `includes`.
  - The `a || b` fallback on optional strings: an absent or empty string is
    falsy.
- `contact.dfy`: the contact-number rules.
  - Only the digits of the typed text are kept.
  - Digits are shown grouped 3-3-rest.
  - A stored eleven-character profile number that starts with `0` is
    pre-filled without that zero.
  - `+63` is put in front of the number when it is sent.
- `create_report.dfy`: the report form as a class whose fields are the
  screen's state variables. It has the contact handler, the profile
  pre-fill, the submit guard, the multipart body built part by part, and the
  reset after a successful submission.
- `login.dfy`: the login form as a class over `email`, `password`,
  `loading`, `emailError`, `passwordError` and `errorMsg`.
  - A login attempt clears the error display, sends the lower-cased and
    trimmed email, and classifies a rejection.
  - The rejection classes, in priority order: verification prompt,
    deactivation alert, both fields flagged, email flagged, password
    flagged, text only.
  - Editing a field clears that field's flag and the error text.
- `reset_password.dfy`, `forgot_password.dfy`, `verify_email.dfy`,
  `signup.dfy`: the remaining forms as pure "first failing guard"
  functions that return either the request body or the failed guard.
  - The email pattern `^[^\s@]+@[^\s@]+\.[^\s@]+$` is a ghost predicate.
  - An executable check is proved to accept exactly the strings that
    predicate describes.

Server responses, camera results and position fixes are parameters of the
handlers. The server's answer to a request is an input datatype: a success,
an HTTP error with optional `message`/`msg`/`error`/`requiresVerification`/
`email` fields, or any other failure.

## Model

| member | source | states |
|---|---|---|
| Text.Trim | src/screens/ForgotPasswordScreen.tsx:30 | `trim` leaves no white space at either end and never lengthens the text |
| Text.TrimSplit | src/screens/ForgotPasswordScreen.tsx:37 | the input is exactly white space, then the trimmed text, then white space |
| Text.TrimUnique | src/screens/ForgotPasswordScreen.tsx:37 | whatever white space surrounds a text without edge white space, `trim` returns exactly that text |
| Text.TrimEmptyIff | src/screens/ResetPasswordScreen.tsx:38 | `!s.trim()` holds exactly when `s` is all white space (empty included) |
| Text.TrimIdempotent | src/screens/ForgotPasswordScreen.tsx:37 | trimming twice is trimming once |
| Text.ToLower | src/screens/LoginScreen.tsx:41 | lower-casing keeps the length |
| Text.ToLowerTrimCommute | src/screens/LoginScreen.tsx:41 | `s.toLowerCase().trim()` equals the lower-cased trimmed `s` |
| Text.ContainsPrefix | src/screens/LoginScreen.tsx:81 | a text that includes `w + more` includes `w` |
| Text.Or | src/screens/CreateReportScreen.tsx:47-53 | the or-fallback on an optional string gives that string when it is present and non-empty, and the fallback otherwise |
| ContactNumber.KeepDigits | src/screens/CreateReportScreen.tsx:212 | the result has only digits, is no longer than the input, and equals an all-digit input |
| ContactNumber.KeepDigitsAppend | src/screens/CreateReportScreen.tsx:212 | the filter works character by character, so it distributes over concatenation |
| ContactNumber.KeepDigitsOne | src/screens/CreateReportScreen.tsx:212 | a single digit is kept and any other single character is dropped; with the previous row this fixes the result as the text's digits in order |
| ContactNumber.KeepDigitsNoDigits | src/screens/CreateReportScreen.tsx:212 | a text without digits is reduced to nothing |
| ContactNumber.Grouped | src/screens/CreateReportScreen.tsx:215-217 | the display adds no space for up to 3 characters, 1 for 4 to 6, and 2 beyond; the first group is unchanged |
| ContactNumber.GroupedRoundTrip | src/screens/CreateReportScreen.tsx:214-218 | removing the spaces from the display gives back the stored number |
| ContactNumber.GroupedSpaces | src/screens/CreateReportScreen.tsx:215-217 | the display's spaces are at no index, at index 3, or at indices 3 and 7, by length class |
| ContactNumber.PrefillDigits | src/screens/CreateReportScreen.tsx:53-56 | a number is used exactly when it has 11 characters and starts with `0`; then the 10 characters after the zero are kept and shown as 3-3-4 |
| ContactNumber.WithCountryCode | src/screens/CreateReportScreen.tsx:130 | the sent contact is `+63` followed by the stored number |
| ContactNumber.PrefillThenSend | src/screens/CreateReportScreen.tsx:53-56 | a pre-filled number sent unedited goes out with its leading `0` replaced by `+63`, 13 characters long |
| CreateReport.ReportPayload | src/screens/CreateReportScreen.tsx:126-141 | the body has the eleven parts in the order appended, the contact with `+63`, the registered location, and the photo as a JPEG file part; every other part is text |
| CreateReport.Submittable | src/screens/CreateReportScreen.tsx:119-122 | a draft can be sent only with a non-empty photo URI and a position fix (used as the guard of `Submit` and the precondition of the payload) |
| CreateReport.ClearedNotSubmittable | src/screens/CreateReportScreen.tsx:146-149 | a form cleared after success cannot be sent again without a new photo and fix |
| CreateReport.ResultAlert | src/screens/CreateReportScreen.tsx:145-155 | a created report gives "Success" / "Report submitted!"; an HTTP error gives "Error" with its `error` text or "An error occurred"; any other failure gives "Error" / "Unexpected error occurred" |
| CreateReport.FormatDisplay | src/screens/CreateReportScreen.tsx:58-65 | the step-by-step display builder yields the 3-3-rest grouping |
| CreateReport.BuildForm | src/screens/CreateReportScreen.tsx:126-141 | appending the parts one by one builds the report body |
| CreateReport.ReportForm.constructor | src/screens/CreateReportScreen.tsx:13-28 | the form starts blank and consistent, not loading |
| CreateReport.ReportForm.EditContact | src/screens/CreateReportScreen.tsx:211-219 | up to 10 kept digits are stored and shown grouped (the display minus spaces is the stored number); more digits change neither field; the display always matches the stored number |
| CreateReport.ReportForm.ApplyProfile | src/screens/CreateReportScreen.tsx:44-66 | names and registered location are copied (missing as empty); the contact fields change only as pre-fill allows; without a profile nothing changes |
| CreateReport.ReportForm.PhotoTaken | src/screens/CreateReportScreen.tsx:92-94 | the photo URI is recorded |
| CreateReport.ReportForm.PositionFixed | src/screens/CreateReportScreen.tsx:103-112 | the fix is recorded, and the location text is replaced only when an address was found |
| CreateReport.ReportForm.ClearFields | src/screens/CreateReportScreen.tsx:146-149 | every field is blanked except the registered location |
| CreateReport.ReportForm.Submit | src/screens/CreateReportScreen.tsx:118-159 | a request is sent exactly when there is a photo and a fix; otherwise "Missing Info" and nothing changes; a sent body is the report payload; on success the form is cleared except the registered location; on failure it is kept; `loading` ends false |
| Login.ErrorText | src/screens/LoginScreen.tsx:52 | the error text is `message` when non-empty, else `msg` when non-empty, else "An error occurred"; never empty |
| Login.NormalizedEmail | src/screens/LoginScreen.tsx:41 | the sent email is trimmed and is the lower-cased trimmed input |
| Login.MentionsInvalidCredentials | src/screens/LoginScreen.tsx:81 | a text that mentions "invalid credentials" mentions "invalid", so the first test adds nothing |
| Login.CuesOf | src/screens/LoginScreen.tsx:72-88 | the "invalid credentials" cue implies the "invalid" cue |
| Login.Classify | src/screens/LoginScreen.tsx:44-96 | the handler's branches in order; a login is entered exactly for a token response, with that token (the per-outcome characterisation is the next row) |
| Login.ClassifySpec | src/screens/LoginScreen.tsx:44-96 | a token enters the app; a verification flag with an email prompts verification of that email, whatever the text; a deactivated or suspended text gives the deactivation alert; then "invalid" flags both fields with the fixed text, "email" only the email field, "password" only the password field, each keeping the server text; non-HTTP failures show the generic text |
| Login.FieldErrors | src/screens/LoginScreen.tsx:81-93 | the email flag is set exactly when "invalid" or "email" is mentioned, the password flag exactly when "invalid" is, or "password" without "email"; both flags show the fixed text, otherwise the server text is kept |
| Login.ErrorDisplay | src/screens/LoginScreen.tsx:34-37 | the display after an attempt: cleared for every outcome except field errors, which show their flags and text |
| Login.PromptsLeaveDisplayClear | src/screens/LoginScreen.tsx:57-79 | a verification prompt or deactivation alert leaves no flag and no text, whatever the server text says |
| Login.LoginForm.constructor | src/screens/LoginScreen.tsx:22-28 | the form starts empty, with no error shown |
| Login.LoginForm.EditEmail | src/screens/LoginScreen.tsx:136-140 | editing the email clears its flag and the text, leaving the password flag |
| Login.LoginForm.EditPassword | src/screens/LoginScreen.tsx:154-158 | editing the password clears its flag and the text, leaving the email flag |
| Login.LoginForm.HandleLogin | src/screens/LoginScreen.tsx:33-99 | the request carries the normalised email and the password as typed; the outcome is the classification of the response; the flags and text are those of the outcome (cleared for a prompt or alert); `loading` ends false |
| Login.LoginForm.ShowRejection | src/screens/LoginScreen.tsx:51-96 | from a cleared display, the error branch yields the classified outcome and its display |
| Login.LoginForm.ShowFieldErrors | src/screens/LoginScreen.tsx:81-93 | from a cleared display, the flag chain sets exactly the flags and text of the field-error outcome |
| ResetPassword.ValidateReset | src/screens/ResetPasswordScreen.tsx:36-64 | only the first failing guard is reported: all-space code, all-space password, password shorter than 6 as typed, mismatch; once all pass, the request carries the route email and the trimmed code and password |
| ResetPassword.ResetErrorText | src/screens/ResetPasswordScreen.tsx:79 | the failure alert shows the server `message`, else the fallback |
| ResetPassword.ShortTrimmedPasswordAccepted | src/screens/ResetPasswordScreen.tsx:48-64 | a password padded to six characters with white space passes and is sent with five |
| ForgotPassword.MatchesEmailPattern | src/screens/ForgotPasswordScreen.tsx:36 | the language of the pattern: a matching string has at least five characters and neither starts nor ends with `@` |
| ForgotPassword.ValidEmail | src/screens/ForgotPasswordScreen.tsx:36-37 | the executable test; an accepted string has an `@`, not at the start, and at least five characters (the next row proves it accepts exactly the pattern's language) |
| ForgotPassword.EmailPatternIff | src/screens/ForgotPasswordScreen.tsx:36 | the executable check accepts exactly the strings the pattern matches |
| ForgotPassword.RequestResetCode | src/screens/ForgotPasswordScreen.tsx:29-56 | an all-space email is reported blank; otherwise the trimmed email must match the pattern; the trimmed email is sent and passed to the reset screen |
| ForgotPassword.AcceptedEmailShape | src/screens/ForgotPasswordScreen.tsx:36-37 | an accepted email has no white space and exactly one `@`, not at the start |
| ForgotPassword.PaddedEmailAccepted | src/screens/ForgotPasswordScreen.tsx:37-46 | surrounding white space is forgiven and removed before sending |
| VerifyEmail.SubmitCode | src/screens/VerifyEmailScreen.tsx:23-34 | a code is sent exactly when it has six characters (an empty one never is), with the route email, both unchanged |
| VerifyEmail.VerifyErrorText | src/screens/VerifyEmailScreen.tsx:47 | the failure alert shows the server `message`, else the fallback |
| VerifyEmail.NonDigitCodeSent | src/screens/VerifyEmailScreen.tsx:24 | the guard does not require digits |
| Signup.SubmitRegistration | src/screens/SignupScreen.tsx:31-39 | the request is sent exactly when no field is empty (white space passes), with the fields as typed |
| Signup.RegisterErrorText | src/screens/SignupScreen.tsx:46-55 | the failure text is `msg`, else `error`, else the registration fallback; non-HTTP failures show the generic text |

## Left out

- Badge tiers, challenge cycles and resolved-report counting: the home and profile screens contain no such logic (a static list of tips, and a logout), so there is nothing to model.
- HTTP transport and the API client: each request is returned as a value, and each answer is a parameter of the handler.
- Token storage and JWT decoding: the pre-fill receives the fetched profile, or `None` when there is no token or the fetch fails.
- Camera, location permissions, position capture and reverse geocoding: the photo URI, the position (coordinates already rendered as text) and the address text are parameters.
- Navigation, `Alert` dialogs, animations, styling and rendering: outcomes and alert texts are returned as values.
- The success branches after the reset, forgot-password and verification requests (alerts and navigation only).
- Asynchrony: each handler is one sequential step. Overlapping taps while `loading` is true are not modelled.
- The contact input's `maxLength` of 12 characters: the handler is modelled for text of any length.
- Text.ToLower: lower-cases ASCII letters only, whereas JavaScript's `toLowerCase` also folds other scripts. The keywords the login screen looks for are ASCII.
- String lengths and slice positions count Unicode scalar values, whereas JavaScript counts UTF-16 code units. The two differ only for text with characters outside the Basic Multilingual Plane. That affects the pre-fill's eleven-character test and its slices (CreateReportScreen.tsx lines 54-63), the length guards of the reset and verification forms, and the grouping slices of the contact display (whose input is digits only).
- Response fields are typed: `requiresVerification` is a boolean, and `message`, `msg`, `error` and `email` are optional strings. Other JSON types in those fields are not modelled.
