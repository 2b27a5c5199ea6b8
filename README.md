# Attendo decision logic in Dafny

Attendo is a campus attendance web application. Teachers mint short-lived
attendance codes. Students type or scan a code, and the attendance is written
to a relational database. src/utils/contractUtils.js provides functions that
write codes and attendance to a smart contract, but none of the pages and
components modelled here calls them.
Almost all of the application is React views. This project models the small,
deterministic routines that decide what happens:

- `AttendanceUtils` (src/utils/attendanceUtils.js): the countdown split of a
  millisecond difference into minutes and seconds, a code of at most six
  characters taken from `Math.random().toString(36)`, and the attendance row constructor.
- `ContractUtils` (src/utils/contractUtils.js): the first-match error
  classifier, the single/batch dispatch of code updates with its fallback to
  the first code, the simulated result when no contract address is
  configured, the "already marked" mapping of `markAttendance`, and the
  case-insensitive `isTeacher` comparison. The deployed ABI
  (src/utils/contractUtils.js:7) declares `updateBatchAttendanceCodes`, so an
  ethers contract object built from it always exposes that function and the
  fallback to the first code (lines 153-158) cannot happen with this
  configuration. The model still covers the fallback, as a `Ledger` without
  the batch function.
- `SignUp` (src/pages/SignUp.jsx): the ordered validation chain, the profile
  it builds, and the handler's updates of `error` and `isLoading`.
- `AppRoutes` (src/App.jsx): the `ProtectedRoute` decision and the route
  table, with the proof that no redirect leads to another redirect.
- `AttendanceFormModel` (src/components/AttendanceForm.jsx): the form as a
  class with the fields `attendanceCode`, `isSubmitting`, `error` and
  `success`, and its submit handler. Two scenario methods,
  `SuccessThenBlankSubmission` and `ThrowingCallbackShowsBothMessages`, show
  that a blank submission after a successful one leaves the success message
  beside the blank-code error, and that a throwing callback leaves both the
  success and the failure message shown.
- `JsValues`: an `Option` type and the JavaScript string built-ins these
  routines use (`startsWith`, `includes`, `substring`, case mapping,
  `trim`-blankness, number-to-string).

Everything that talks to the outside world is a parameter. This covers the
clock, `Math.random`, `uuidv4`, the ledger calls together with `tx.wait()`,
`JSON.parse`, `contract.teacher()`, the Supabase lookup and insert, the auth
provider's `signUp`, the signed-in user, and the parent's
`onAttendanceMarked` callback. Each ledger function sends at most one
transaction. Its model returns that transaction (`LedgerCall`) together with
the returned object (`TxResult`). The single oracle outcome is the answer to
that one transaction.

## Model

| member | source | states |
|---|---|---|
| `AttendanceUtils.CalculateTimeRemaining` | src/utils/attendanceUtils.js:27-41 | expired exactly when diffMs <= 0, and then the result is (0, 0, expired); otherwise minutes >= 0, 0 <= seconds <= 59, and minutes*60000 + seconds*1000 <= diffMs < minutes*60000 + (seconds+1)*1000 |
| `AttendanceUtils.ShownSecondsIsTruncation` | src/utils/attendanceUtils.js:37-38 | for a positive difference, minutes*60 + seconds is the remaining time truncated to whole seconds |
| `AttendanceUtils.CountdownDetermined` | src/utils/attendanceUtils.js:37-38 | any (m, s) with 0 <= s <= 59 that brackets diffMs as above is exactly the countdown returned, so the bounds determine the result |
| `AttendanceUtils.ZeroShownButNotExpired` | src/utils/attendanceUtils.js:33-40 | for 0 < diffMs < 1000 the countdown shows 0:00 but is not expired |
| `AttendanceUtils.CountdownMonotonic` | src/utils/attendanceUtils.js:30-40 | a larger difference never yields a lexicographically smaller (minutes, seconds) |
| `AttendanceUtils.GenerateUniqueCode` | src/utils/attendanceUtils.js:5-9 | the code is the first min(6, n) base-36 digits of the random fraction (positions 2..7 of its rendering), upper-cased; it has that length and every character is 0-9 or A-Z |
| `AttendanceUtils.CreateAttendanceRecord` | src/utils/attendanceUtils.js:44-53 | student, course, code and session ids are copied unchanged into student_id, course_id, code and session_id; id and created_at are the supplied uuid and time |
| `ContractUtils.Classify` | src/utils/contractUtils.js:24-67 | the category returned is the first check that accepts the error, in the order RPC code containing "32", network, call exception, user rejection (4001 or "user rejected"), gas or fee, default; no earlier check accepts it |
| `ContractUtils.HandleProviderError` | src/utils/contractUtils.js:21-69 | always a failure with a non-empty message; the message names the category of the first matching check (it can be decoded back); the default message is "Error: " followed by the message, or by "Unknown error occurred" when the message is absent or empty; it is never the "already marked" message |
| `ContractUtils.JsonRpcCodeIsRpc` | src/utils/contractUtils.js:25-30 | a numeric code -32603 is classified as an RPC error whatever the message |
| `ContractUtils.RejectionCodeIsUserRejected` | src/utils/contractUtils.js:25-54 | a numeric code 4001 passes the RPC check (its text has no "32") and is classified as user rejection for every message that fires neither the network nor the call-exception check |
| `ContractUtils.SimulatedHash` | src/utils/contractUtils.js:104 | the simulated hash is 66 characters: "0x" followed by 64 '0' characters |
| `ContractUtils.Settle` | src/utils/contractUtils.js:117-127 | a confirmed receipt gives success with its hash and no simulated flag; a thrown error gives the classifier's failure |
| `ContractUtils.UpdateAttendanceCode` | src/utils/contractUtils.js:88-128 | a code starting with `[` or `{` is handled exactly as the batch function handles it; any other code is simulated without an address and otherwise sent to the single-code function; in every case a transaction is sent only with an address, the single-code function never receives a batch payload, a real hash comes from the ledger's receipt and a simulated result means no address |
| `ContractUtils.UpdateBatchAttendanceCodes` | src/utils/contractUtils.js:131-177 | an unparseable batch fails through the classifier before the address is consulted; a parsed batch is simulated without an address, sent whole to the batch function when it exists, and otherwise handled through element [0]; a non-string element [0] fails with the engine's TypeError message; routing guarantees as for the single path |
| `ContractUtils.BatchFallsBackToFirstCode` | src/utils/contractUtils.js:153-158 | without the batch function, a batch whose element [0] is a string gives exactly what updateAttendanceCode gives for that string |
| `ContractUtils.MarkAttendance` | src/utils/contractUtils.js:179-213 | simulated without an address; otherwise the mark transaction is sent; a receipt gives success with its hash; a thrown error is a failure whose message is the "already marked" message exactly when the error's message contains "already marked", and otherwise the classifier's |
| `ContractUtils.IsTeacher` | src/utils/contractUtils.js:242-259 | true without an address; otherwise whether the contract's teacher and the address are equal character by character up to case; a failed read returns the classifier's failure |
| `ContractUtils.IsTeacherIgnoresCase` | src/utils/contractUtils.js:254 | asking with the address upper-cased gives the same answer |
| `SignUp.ValidationError` | src/pages/SignUp.jsx:38-57 | no error exactly when all five required fields are non-empty, the passwords agree, the password has at least 6 characters and a student gives a roll number; any error is one of the four messages |
| `SignUp.RequiredFieldsFirst` | src/pages/SignUp.jsx:39-42 | an empty first name, last name, email, password or confirmation always yields "Please fill in all required fields" |
| `SignUp.MismatchBeforeLength` | src/pages/SignUp.jsx:44-52 | with the fields filled, mismatched passwords always yield "Passwords do not match", whatever their length |
| `SignUp.PasswordLengthBoundary` | src/pages/SignUp.jsx:49-52 | with filled, matching passwords, the length error appears exactly when the password is shorter than 6, so length 6 passes |
| `SignUp.RollNumberOnlyForStudents` | src/pages/SignUp.jsx:54-57 | with an empty roll number and the earlier checks passed, a student is rejected and any other role passes |
| `SignUp.BuildProfile` | src/pages/SignUp.jsx:63-68 | first name, last name and role are copied; roll_number is present exactly for students and is then the entered roll number |
| `SignUp.AcceptedStudentHasRollNumber` | src/pages/SignUp.jsx:54-68 | an accepted student's profile carries a non-empty roll number |
| `SignUp.SignUpPage.constructor` | src/pages/SignUp.jsx:13-14 | the page starts with no error and not loading |
| `SignUp.SignUpPage.HandleSubmit` | src/pages/SignUp.jsx:32-83 | the error is cleared; a failing check sets its message, sends nothing and leaves isLoading unchanged; an accepted form sends email, password and the built profile; success leaves error empty and isLoading set and navigates to /login; failure shows the thrown message (or "Failed to create account") and clears isLoading |
| `AppRoutes.ProtectedRoute` | src/App.jsx:17-37 | children render exactly for a signed-in user when no role is required or the role matches; with no user the redirect is /login; a mismatched student goes to /student/dashboard, a teacher to /teacher/dashboard, any other role to /login |
| `AppRoutes.Resolve` | src/App.jsx:47-98 | a path that some route declares selects a route with exactly that path; a path no route declares selects the catch-all `*` |
| `AppRoutes.RedirectsLandOnRenderedPages` | src/App.jsx:17-98 | for every declared route and every user, a redirect leads to a page that renders for that user, so no redirect sends a user to a route that redirects them again |
| `AppRoutes.MockUserKeptOffTeacherPages` | src/App.jsx:19-34 | with the hard-coded student user, every teacher route redirects to /student/dashboard |
| `AttendanceFormModel.AttendanceForm.constructor` | src/components/AttendanceForm.jsx:8-11 | the form starts with an empty code, not submitting, no error and no success |
| `AttendanceFormModel.AttendanceForm.OnCodeChange` | src/components/AttendanceForm.jsx:76 | the input sets the code and nothing else |
| `AttendanceFormModel.AttendanceForm.HandleSubmit` | src/components/AttendanceForm.jsx:13-61 | a blank or whitespace code sets only the error and looks nothing up; otherwise the code as typed is looked up and the form ends not submitting; a lookup error or missing row gives "Invalid or expired attendance code" and no insert; with no signed-in user nothing is inserted and the error is "Failed to mark attendance"; the inserted record takes course and session from the row; a failed insert keeps the code; a successful insert sets the success message, clears the code and passes the rows to the callback, and a throwing callback also sets the failure message |

## Left out

- Views and rendering: JSX, styling and the pages with no decision logic are not modelled.
- src/utils/locationUtils.js is not part of this model. It uses floating-point trigonometry.
- src/utils/supabaseClient.js, src/utils/web3Utils.js and src/context/AuthContext.jsx are not part of this model. They wrap libraries. Their results are oracle parameters.
- src/components/QRScanner.jsx and src/components/QRCodeGenerator.jsx are not part of this model. They cover camera access and a timer effect. The generator mints one code per click with a fixed five-minute expiry. They contain no code rotation and no batching.
- `formatDate`, `formatTime` and `formatDateTime` are not modelled. They are date-fns formatting wrappers.
- `checkAttendanceStatus` is not modelled. It passes two contract reads through.
- `getContract` is not modelled. Its throw on a missing address cannot be reached, because every caller checks the address first.
- Console output is not modelled. The arguments of the logs at src/utils/contractUtils.js:92 and 137 are still evaluated, and their throws are modelled (`NonStringElement`, `Unreadable`).
- AttendanceUtils.CalculateTimeRemaining: takes the difference in whole milliseconds. The NaN produced by an unparseable expiry date is not modelled.
- AttendanceUtils.GenerateUniqueCode: the random fraction's digits are an input. The model follows the code, which returns fewer than six characters when the fraction has fewer digits, and the empty string for zero. No timestamp is appended.
- ContractUtils.UpdateBatchAttendanceCodes: takes the codes as a string. The `JSON.stringify` branch for non-string arguments is not modelled. `JSON.parse` is an oracle function. Its only assumed property is that a string found at element [0] is shorter than the text it came from.
- ContractUtils.IsTeacher: case mapping covers ASCII letters only. Contract addresses are hexadecimal, so this does not affect them. Full Unicode `toLowerCase` is not modelled.
- ContractUtils.HandleProviderError: numeric error codes are integers below 10^21 in magnitude, since larger numbers are written in exponent form (3.2e22 as "3.2e+22", which contains no "32"). Non-integer numeric codes, and codes of other types, are not modelled.
- AppRoutes.Resolve: path matching is exact. The router's matching without regard to case and to trailing slashes ("/Login" and "/login/" both select the login route) is not modelled.
- AttendanceFormModel.AttendanceForm.HandleSubmit: states the fields after the handler completes. It does not model the intermediate render while the lookup and insert are awaited, or React's batching of setters. A lookup that throws instead of returning an error value is not modelled. The browser's `maxLength={6}` on the input is not modelled.
- String lengths count characters, not UTF-16 code units.
