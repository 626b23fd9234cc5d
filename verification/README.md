# Auth forms: validation and submission, in Dafny

This project models the form-validation and submission logic of a small
React authentication UI. It has four parts:

- **Validation rules** (`validation.dfy`, with `jsstring.dfy`). These are the
  login and signup schemas:
  - required and minimum-length tests
  - the trimmed login username
  - the anchored phone pattern `^\+\d{10,15}$`
  - the cross-field rules password ≠ username and confirmPassword = password

  Validation is exhaustive. Every failing rule of every field yields one
  `(field, message)` violation, in declared order.
- **Error-record folding** (`violations.dfy`). A list of violations becomes a
  record with one entry per path, and a later entry for a path overwrites an
  earlier one. Both forms and the auth service use this one fold.
- **Auth service** (`authservice.dfy`). `register` and `login` turn the
  outcome of the remote call into `Succeeded`, `Failed(message)` or
  `FieldErrors(record)`. `login`, `logout`, `isAuthenticated`,
  `getCurrentUser` and `getToken` work over the browser's key/value storage,
  a `map<string, string>` with keys `token` and `user`. The remote call's
  outcome is an input value, not a call.
- **Form controllers** (`loginform.dfy`, `signupform.dfy`). Each controller is
  a state machine over its field values, error record and current screen.
  SignUp also has the busy flag `isLoading` and a flag for its pending timer.

Two behaviours of the code are easy to miss:

- The login form never calls the auth service. It navigates to `/hero` as soon
  as local validation passes.
- The signup form never calls the service. It arms a timer, and the timer's
  callback navigates to `/`.
- Neither form has a `general` error key. Editing a field blanks only that
  field's error. The error is set to `""`; the key stays.

Some consequences of the code that the proofs make explicit:

- A field's displayed message is the message of the **last** rule it fails.
  The length and pattern tests also fail on the empty string. So "Name is
  required", "Username is required", "Phone is required" and "Password is
  required" can never be displayed. An empty login username shows "Must be at
  least 3 characters".
- A login reply with `success` but no `data` makes the destructuring throw.
  The `catch` then returns the fallback message and the store is unchanged.
- A login payload without `user` stores the text `"undefined"`. A later
  `getCurrentUser` then throws.

The validation library checks `oneOf`/`notOneOf` before a field's other tests,
and reports them alone when they fail. The model states the rules in declared
order. `SignupEvaluationOrderIrrelevant` proves that both orders give the same
error record.

## Model

| member | source | states |
|---|---|---|
| Violations.ErrorMapIsLastWins | src/components/SignUp.jsx:45-48 | the folded record has an entry exactly for the violated paths, and each entry holds the message of that path's last violation |
| Violations.ErrorMapKeys | src/services/auth/authService.js:20-23 | a path has an entry in the folded record iff some violation carries it |
| Violations.ErrorMapLastWins | src/services/auth/authService.js:53-56 | a later entry for a path overwrites an earlier one: the entry is the message of the last violation with that path |
| Violations.ErrorMapAppend | src/components/Login.jsx:32-35 | folding a concatenation is folding the first part, then letting the second part's entries win |
| Violations.ErrorMapEmpty | src/components/Login.jsx:26-36 | the error record is empty iff there are no violations, i.e. iff validation resolves |
| JsString.Trim | src/utils/validationSchemas.js:8 | the trimmed value is the input with only JavaScript whitespace removed before and after it, and it neither starts nor ends with whitespace |
| JsString.TrimPadded | src/utils/validationSchemas.js:8 | trimming a string that neither starts nor ends with whitespace, padded on both sides with whitespace, gives the string back: exactly the padding is removed |
| JsString.TrimIdempotent | src/utils/validationSchemas.js:8 | trimming a trimmed value changes nothing, so the `trim` test passes once the transform has run |
| ValidationSchemas.ErrorMapRequiredMin | src/utils/validationSchemas.js:6-7 | a required field with a minimum length shows the length message whenever it is too short, including when it is empty, and nothing otherwise |
| ValidationSchemas.ValidateLogin | src/utils/validationSchemas.js:3-14 | username has an entry iff its trimmed length is under 3, password iff its length is under 6, each with the length message; no other key appears; the record is empty iff every rule holds |
| ValidationSchemas.LoginValidIffNoViolations | src/utils/validationSchemas.js:3-14 | the login schema yields no violation exactly when the trimmed username has at least 3 characters and the password at least 6 |
| ValidationSchemas.LoginPaddingIgnored | src/utils/validationSchemas.js:4-8 | whitespace around the login username changes neither the violations nor the record: the username is judged by its trimmed value |
| ValidationSchemas.LoginPaddedUsernameRejected | src/utils/validationSchemas.js:4-8 | the whitespace-padded username `"  ab  "` is rejected, because it is trimmed before the length check |
| ValidationSchemas.LoginEmptyUsernameMessage | src/utils/validationSchemas.js:4-8 | an empty login username is reported with "Must be at least 3 characters" |
| ValidationSchemas.DigitsToEndSpec | src/utils/validationSchemas.js:35 | the digit matcher accepts the rest of the input iff it is all ASCII digits and brings the count to between 10 and 15 |
| ValidationSchemas.PhoneMatchesSpec | src/utils/validationSchemas.js:35 | the phone pattern accepts a string iff it is `+` followed by 10 to 15 ASCII digits and nothing else |
| ValidationSchemas.PhoneExamples | src/utils/validationSchemas.js:32-35 | `+919876543210` passes the phone rules; `9876543210` and `+1234` are reported with the country-code message |
| ValidationSchemas.EmailFieldErrors | src/utils/validationSchemas.js:27-30 | an empty email is reported as required; a non-empty one is reported as invalid iff it fails the email grammar |
| ValidationSchemas.PhoneFieldErrors | src/utils/validationSchemas.js:32-35 | the phone is reported with the country-code message iff it does not match the pattern, the empty string included |
| ValidationSchemas.PasswordFieldErrors | src/utils/validationSchemas.js:37-41 | a password equal to the username is reported as such; otherwise one shorter than 6 gets the length message |
| ValidationSchemas.ConfirmFieldErrors | src/utils/validationSchemas.js:43-46 | a confirmation that differs from the password is reported as a mismatch, whether or not the password is valid; an empty matching one as required |
| ValidationSchemas.SignupFieldsMatch | src/utils/validationSchemas.js:17-46 | each field's rules, folded, give that field's reference record: the length message for a short name or username, required-or-invalid for email, the country-code message for phone, same-as-username before length for password, mismatch before required for confirmPassword |
| ValidationSchemas.SignupMatchesReference | src/utils/validationSchemas.js:16-47 | the fold of the exhaustive signup violations equals the field-by-field reference record |
| ValidationSchemas.ValidateSignup | src/utils/validationSchemas.js:16-47 | for each of the six fields: whether it has an entry (both directions) and which message it holds; the record is empty iff every rule holds |
| ValidationSchemas.SignupValidIffNoViolations | src/utils/validationSchemas.js:16-47 | the signup schema yields no violation exactly when every signup rule holds |
| ValidationSchemas.RequiredMessagesShadowed | src/utils/validationSchemas.js:17-46 | the required messages of name, username, phone and password never reach the record; those of email and confirmPassword do |
| ValidationSchemas.SignupEvaluationOrderIrrelevant | src/utils/validationSchemas.js:37-46 | checking the cross-field rules first and alone when they fail gives the same record as checking every rule in declared order |
| AuthService.FromRejection | src/services/auth/authService.js:15-31 | a present `errors` list gives the last-wins path-to-message record; otherwise the server's non-empty message, or else the fallback; never a success |
| AuthService.Register | src/services/auth/authService.js:5-32 | success iff the reply's flag is set, carrying its data; a non-success reply carries the server message; a rejection is normalised with the registration fallback; no store is involved |
| AuthService.Login | src/services/auth/authService.js:35-64 | on success, `token` and `user` hold the reply's token and serialised user and no other key changes; every failure leaves the store unchanged; a success reply without data gives the login fallback |
| AuthService.GetToken | src/services/auth/authService.js:100-102 | the result is present iff a token is stored, and is exactly the stored text |
| AuthService.IsAuthenticated | src/services/auth/authService.js:89-91 | true iff `getToken` returns a non-empty token |
| AuthService.GetCurrentUser | src/services/auth/authService.js:94-97 | null iff no non-empty user text is stored; otherwise the stored profile, or a parse error for text that is not an object |
| AuthService.Logout | src/services/auth/authService.js:82-86 | both session keys are gone and every other key is unchanged, so the user is not authenticated, the token is null and the current user is null |
| AuthService.LoginSessionRoundTrip | src/services/auth/authService.js:39-44 | after a successful login, `getToken` returns the reply's token, `isAuthenticated` holds iff that token is non-empty, and `getCurrentUser` returns the reply's user |
| AuthService.LoginWithoutUserBreaksCurrentUser | src/services/auth/authService.js:41-43 | a successful login whose payload lacks `user` makes a later `getCurrentUser` throw |
| AuthService.LoginThenLogout | src/services/auth/authService.js:82-85 | login followed by logout leaves no session, and the store is what logout alone would leave |
| LoginForm.HandleChange | src/components/Login.jsx:13-20 | only the edited field's value changes; a truthy error on it becomes `""`; every other error entry stays; with no truthy error the record is unchanged |
| LoginForm.HandleSubmit | src/components/Login.jsx:22-38 | a valid record navigates to `/hero`; an invalid one stays put and replaces the whole error record with the validation record, so stale entries do not survive |
| LoginForm.EditAfterFailedSubmit | src/components/Login.jsx:13-36 | after a failed submit, editing one field leaves the other field's reported message as the submit set it |
| SignUpForm.HandleChange | src/components/SignUp.jsx:20-27 | exactly one field changes; only that field's truthy error is blanked; the busy flag, timer and screen stay |
| SignUpForm.BeginSubmit | src/components/SignUp.jsx:29-32 | submission starts busy with every earlier error discarded |
| SignUpForm.HandleSubmit | src/components/SignUp.jsx:29-52 | while busy, nothing happens; a valid record stays busy with an armed timer and no errors; an invalid one ends not busy with the validation record as its errors |
| SignUpForm.TimerFires | src/components/SignUp.jsx:38-42 | the pending timer navigates to `/` and clears the busy flag |
| SignUpForm.RunKeepsConsistent | src/components/SignUp.jsx:134 | over any sequence of edits, submits and timer events the form is busy exactly while a timer is pending, so the disabled button keeps a second submission from starting |
| SignUpForm.RunFromInitKeepsConsistent | src/components/SignUp.jsx:10-18 | the form as first shown is idle with no timer pending, and stays busy exactly while a timer is pending over any sequence of events |
| SignUpForm.ValidSubmitNavigates | src/components/SignUp.jsx:35-42 | a valid submit from an idle form, followed by the timer, ends on `/`, idle and with no errors |

## Left out

- Rendering, styling, the password-visibility toggle and `TextField`'s `error={!!error}` are left out. They are presentation.
- The routing table and the landing page are left out. Routes are an abstract `Route` value.
- The HTTP transport and `getProfile` are left out. So are `console.error`, `alert` and the `window.location` redirect in `logout`. These are I/O and side effects. The outcome of a remote call is an input datatype.
- The validation library's email grammar is not modelled. It is the parameter `isEmail`, because its regular expression is not part of this model.
- Validation's `string()` type test and the `trim` test are not modelled. Every field value is already a string, and the `trim` test passes once the transform has run (`JsString.TrimIdempotent`).
- Strings are modelled as sequences of characters, and lengths count characters. JavaScript counts UTF-16 code units, so the two differ for characters outside the Basic Multilingual Plane.
- Records have fixed fields, so a missing field cannot occur. The forms always hold every key, and `handleChange` is only raised by the form's own inputs. `LoginForm.HandleChange` therefore requires one of the login fields.
- `JSON.stringify`/`JSON.parse` are modelled narrowly. A user profile is represented by the JSON text of its object.
- AuthService.GetCurrentUser: whether stored text parses is decided by its braces alone (it starts with `{` and ends with `}`). This differs from `JSON.parse` on text that login never writes: `"{x}"` reads as a profile where `JSON.parse` throws, and `" {}"` reads as a parse error where `JSON.parse` returns `{}`. JSON values such as `null` or numbers are not distinguished.
- Non-string tokens and a non-array `errors` value are not modelled. The latter would make `forEach` throw inside the `catch`.
- AuthService.FromRejection: every server error entry is a pair of a string path and a string message. Three cases of `authService.js` lines 21-23 and 54-56 are therefore not represented. An entry without `path` is stored under the key `"undefined"`. An entry without `msg` stores `undefined`. A `null` entry makes `err.path` throw inside the `catch`, so `register`/`login` reject instead of returning a result.
- The `setTimeout` delay is not modelled: the callback is one later event. Navigating away by link while the timer is pending is not modelled either.
- The signup form's `isLoading` reset after navigation is modelled as a plain state change. React ignores updates to an unmounted component, which this model does not represent.
