# PresenX front end, modelled in Dafny

PresenX is an attendance tracker. Its React front end has four pages with
behaviour worth stating:
- **Login page:** checks the form, posts the credentials to the
  authentication service, stores the returned token and e-mail in local
  storage, and routes the user to the dashboard of their role.
- **Register page:** checks the form and posts the new account with a
  lower-cased, trimmed e-mail. On success it sends the user to the login page.
- **Student dashboard:** colours attendance figures red, yellow or green, and
  logs out by clearing local storage.
- **Teacher dashboard:** keeps a per-class table of present/absent marks. A
  class's marks are filled in from a fixed roster the first time it is looked
  at. The Toggle button flips one student's mark, and the page shows present,
  absent and percentage figures for the class on screen.

This project models those four pages and proves what they promise.

Modules:
- `Browser` holds the state a form page reads and writes: its error line, its
  loading flag, local storage, the current route and the requests sent so far.
  It also writes the side effects of an event handler out as data (`Effect`),
  with `Replay` applying a list of effects to a page.
- `Login` and `Register` are page classes. Each handler method changes the
  page's fields step by step. Its contract says the new state is the old state
  replayed through a pure list of effects (`LoginEffects`, `RegisterEffects`).
  The lemmas about those lists state the request, storage and route logs, the
  order of the effects, and the final page on every path.
  - The exchange with the server is an input: `LoginReply` or `RegisterReply`
    says whether a reply came, its `ok` status and the fields of its JSON body.
- `JsText` models the two string methods the register page applies to the
  e-mail: `toLowerCase` and ECMAScript `trim`.
- `StudentDashboard` holds `getColor` and the logout button.
- `TeacherDashboard` holds:
  - the attendance table, a `map<int, map<int, bool>>` field of the
    `Dashboard` class, with methods for `initAttendance`, `toggleAttendance`
    and selecting a class;
  - the pure table updates those methods are proved against (`Init`,
    `Toggle`);
  - the `stats` derivation.

## Behaviour worth noting

- The teacher dashboard's stats have a side effect: the `useMemo` that
  computes them first initialises the class on screen, then counts.
  `RefreshStats` does both.
- The login page stores the e-mail under the key `user_email`. A field missing
  from an ok reply is stored as the text `undefined`, since `setItem` converts
  its argument to a string.
- The register page parses the reply body before it looks at the status. So an
  ok reply whose body is not JSON lands in the `catch` block and shows
  "Backend server not reachable.". `NoAnswer` covers that case.
- A white-space-only e-mail passes the register page's non-empty check and is
  then sent as the empty string (`NormalizeEmailBlank`). Validation runs on the
  e-mail as typed, not as sent.

## Model

| member | source | states |
|---|---|---|
| Browser.ReplayLogs | src/pages/Login.jsx:19-61 | replaying a handler's effects grows the request log by exactly the requests among them and leaves the route at the last one navigated to, or unchanged when there is none |
| Browser.Truthy | src/pages/Login.jsx:39 | a `detail` is used only when it is present and not the empty string; otherwise the logical-or falls back to the generic text (the same test at Register.jsx:44) |
| Browser.SubmitEffects | src/pages/Login.jsx:19-61 | the shared handler shape: the error is cleared first; a valid form then turns loading on and off around the request and the reply's effects (properties in the SubmitLogs, SubmitLoading and SubmitOutcome rows) |
| Browser.SubmitLogs | src/pages/Login.jsx:19-34 | a form handler sends, stores and navigates nothing when validation fails; otherwise it sends its one request and then whatever the reply calls for |
| Browser.SubmitLoading | src/pages/Login.jsx:19-61 | when the reply's effects leave the loading flag alone, a form handler turns it on exactly when the form is valid, right after clearing the error, and off only as its last step |
| Browser.SubmitOutcome | src/pages/Login.jsx:19-61 | a rejected form changes only the error line, to the validation message; a valid one acts on the page with the error cleared, loading on and the request logged, and ends with loading off |
| JsText.IsSpace | src/pages/Register.jsx:32 | the code points `trim` strips: the ECMAScript WhiteSpace code points (tab, vertical tab, form feed, space, no-break space, the byte-order mark and every space separator) and its LineTerminator code points |
| JsText.LowerChar | src/pages/Register.jsx:32 | one character lower-cased: a capital ASCII letter becomes its small letter (code point plus 32), every other character is kept |
| JsText.ToLower | src/pages/Register.jsx:32 | lower-casing keeps the length and maps each character on its own: a capital letter becomes its small letter, and every other character is kept |
| JsText.TrimStart | src/pages/Register.jsx:32 | the result is a suffix of the input that does not start with white space |
| JsText.TrimStartCut | src/pages/Register.jsx:32 | everything cut off the front is white space |
| JsText.TrimEnd | src/pages/Register.jsx:32 | the result is a prefix of the input that does not end with white space |
| JsText.TrimEndCut | src/pages/Register.jsx:32 | everything cut off the end is white space |
| JsText.Trim | src/pages/Register.jsx:32 | `trim` never lengthens a string, and its result neither starts nor ends with white space |
| JsText.TrimSlice | src/pages/Register.jsx:32 | what `trim` keeps is one contiguous slice of the input, starting after the leading white space |
| JsText.TrimCut | src/pages/Register.jsx:32 | everything `trim` cuts off on either side of the kept slice is white space |
| JsText.TrimNoUpper | src/pages/Register.jsx:32 | trimming a string without capital letters leaves none, since it only keeps characters of its input |
| JsText.TrimIdempotent | src/pages/Register.jsx:32 | trimming twice is trimming once |
| JsText.TrimEmpty | src/pages/Register.jsx:32 | a string trims to the empty string exactly when it is white space throughout |
| JsText.ToLowerFacts | src/pages/Register.jsx:32 | lower-casing keeps white space where it is, fixes strings without capitals, and is idempotent |
| Register.NormalizeEmail | src/pages/Register.jsx:32 | the e-mail as sent holds no capital letter, neither starts nor ends with white space, and is no longer than the e-mail typed |
| Register.NormalizeEmailIdempotent | src/pages/Register.jsx:32 | normalising an already normalised e-mail changes nothing |
| Register.NormalizeEmailBlank | src/pages/Register.jsx:19-32 | the e-mail sent is empty exactly when the e-mail typed is white space throughout |
| Register.ErrorMessage | src/pages/Register.jsx:41-45 | a string `detail` is shown as it is; otherwise the first entry's `msg` when it is a non-empty string; otherwise "Registration failed"; the message is blank only for an empty string detail |
| Register.Body | src/pages/Register.jsx:30-35 | the JSON body sent: the username, password and role as typed and the e-mail lower-cased and trimmed (stated by the RegisterRequestLog row) |
| Register.Complete | src/pages/Register.jsx:19 | the form is sent only when all four fields are non-empty (used by the RegisterRequestLog and RegisterOutcome rows) |
| Register.AnswerEffects | src/pages/Register.jsx:38-52 | the effects of a reply, stated by the AnswerLogs and AnswerOutcome rows |
| Register.RegisterEffects | src/pages/Register.jsx:16-56 | the effects of one `handleRegister` call, stated by the RegisterRequestLog, RegisterRoleSent, RegisterRouteLog, RegisterLoading and RegisterOutcome rows |
| Register.AnswerLogs | src/pages/Register.jsx:38-52 | the reply adds no request and no storage write, and a navigation to `/login` only when it is ok |
| Register.AnswerOutcome | src/pages/Register.jsx:38-52 | after the request, no reply shows the unreachable text, a non-ok reply shows `ErrorMessage(detail)`, and an ok reply goes to `/login` |
| Register.RegisterRequestLog | src/pages/Register.jsx:19-36 | exactly one request is sent when all four fields are filled, carrying the normalised e-mail and the username, password and role as typed; none otherwise |
| Register.RegisterRoleSent | src/pages/Register.jsx:120-122 | with the role taken from the select's options, every request sent carries the role "student" or "teacher" |
| Register.SentRoles | src/pages/Register.jsx:16-36 | with the role taken from the select, every request an attempt adds to the page's log names the role "student" or "teacher" |
| Register.RegisterRouteLog | src/pages/Register.jsx:40-52 | registration never writes local storage, and its only navigation is to `/login` after an ok reply to a filled-in form |
| Register.RegisterLoading | src/pages/Register.jsx:16-56 | the loading flag is turned on exactly when a request is sent, then right after the error is cleared and off as the last step, and at no other step; a rejected form never touches it |
| Register.RegisterOutcome | src/pages/Register.jsx:16-56 | the page after one attempt, per path: the validation message alone; or the request logged, loading off, and the unreachable text, the reply's message, or a cleared error plus the `/login` route; storage is never touched |
| Register.RegisterPage.constructor | src/pages/Register.jsx:8-14 | the form starts with empty fields, the placeholder role, no error, not loading |
| Register.RegisterPage.SetUsername | src/pages/Register.jsx:89 | the username field takes the typed value |
| Register.RegisterPage.SetEmail | src/pages/Register.jsx:105 | the e-mail field takes the typed value |
| Register.RegisterPage.SelectRole | src/pages/Register.jsx:114-123 | the role takes one of the select's options, so the role stays one of them |
| Register.RegisterPage.SetPassword | src/pages/Register.jsx:136 | the password field takes the typed value |
| Register.RegisterPage.HandleAnswer | src/pages/Register.jsx:38-52 | the page after the reply is the page replayed through the reply's effects |
| Register.RegisterPage.HandleRegister | src/pages/Register.jsx:16-56 | the page after `handleRegister` is the old page replayed through `RegisterEffects` of the current fields and reply; with the role chosen from the select, every request it adds names "student" or "teacher" |
| Login.StoredText | src/pages/Login.jsx:45-46 | `setItem` stores a field's text, and the text "undefined" for a field the reply lacks |
| Login.RouteFor | src/pages/Login.jsx:49-55 | "student" routes to `/student/dashboard`, "teacher" and "admin" to `/teacher/dashboard`, and every other or missing role has no route (each direction of each case) |
| Login.FailureMessage | src/pages/Login.jsx:38-40 | a non-ok reply shows the server's `detail` when it is a non-empty string, else the generic text; the message is never blank |
| Login.Accepted | src/pages/Login.jsx:38 | a reply is taken as a success only when it arrived with `res.ok` set (used by the ReplyLogs, LoginStorageLog and LoginOutcome rows) |
| Login.Submits | src/pages/Login.jsx:22 | the form is sent only when both fields are non-empty (used by the LoginRequestLog and LoginOutcome rows) |
| Login.ReplyEffects | src/pages/Login.jsx:36-58 | the effects of a reply, stated by the ReplyLogs, AcceptedLogs, ReplyOutcome and AcceptedOutcome rows |
| Login.LoginEffects | src/pages/Login.jsx:19-61 | the effects of one `handleLogin` call, stated by the LoginRequestLog, LoginStorageLog, LoginRouteLog, LoginOrdering, LoginLoading and LoginOutcome rows |
| Login.ReplyLogs | src/pages/Login.jsx:36-58 | the reply adds no request; it writes the token then the e-mail only when ok; it navigates only when ok with a recognised role |
| Login.AcceptedLogs | src/pages/Login.jsx:43-55 | an ok reply writes the token and then the e-mail, and navigates once to the role's route when the role is recognised, never otherwise |
| Login.LoginRequestLog | src/pages/Login.jsx:22-34 | exactly one request, carrying the typed e-mail and password, is sent when both fields are filled; none otherwise |
| Login.LoginStorageLog | src/pages/Login.jsx:38-46 | local storage is written only on an ok reply, with the token and then the e-mail, whatever the role |
| Login.LoginRouteLog | src/pages/Login.jsx:38-58 | an attempt navigates at most once, to the route of a recognised role on an ok reply |
| Login.LoginOrdering | src/pages/Login.jsx:19-61 | every storage write comes before every navigation |
| Login.LoginLoading | src/pages/Login.jsx:19-61 | the loading flag is turned on exactly when a request is sent, then right after the error is cleared and off as the last step, and at no other step; a rejected form never touches it |
| Login.FinalError | src/pages/Login.jsx:19-58 | the error line an attempt leaves: the validation text, the unreachable text, the failure message, the unrecognised-role text, or blank after a routed login |
| Login.ReplyOutcome | src/pages/Login.jsx:36-58 | after the request, the page per reply: the unreachable text, the failure message, or both keys stored followed by the role's route or the unrecognised-role error |
| Login.AcceptedOutcome | src/pages/Login.jsx:43-55 | after an ok reply both keys are stored, and the page is on the role's route or shows the unrecognised-role error with the route unchanged |
| Login.LoginOutcome | src/pages/Login.jsx:19-61 | the page after one attempt: its error is `FinalError`, loading ends off whenever it was set, storage changes only on an ok reply, the route only for a recognised role, and the request log grows by at most the one request |
| Login.LoginPage.constructor | src/pages/Login.jsx:13-17 | the form starts with empty fields, no error, not loading |
| Login.LoginPage.SetEmail | src/pages/Login.jsx:105 | the e-mail field takes the typed value |
| Login.LoginPage.SetPassword | src/pages/Login.jsx:120 | the password field takes the typed value |
| Login.LoginPage.HandleReply | src/pages/Login.jsx:36-58 | the page after the reply is the page replayed through the reply's effects |
| Login.LoginPage.HandleLogin | src/pages/Login.jsx:19-61 | the page after `handleLogin` is the old page replayed through `LoginEffects` of the current fields and reply |
| Login.LoginPage.HandleKeyPress | src/pages/Login.jsx:65-69 | Enter does exactly what `HandleLogin` does; any other key leaves the page unchanged |
| StudentDashboard.GetColor | src/pages/student/StudentDashboard.jsx:36-40 | red exactly below 75, yellow exactly from 75 up to but not including 85, green exactly from 85 up |
| StudentDashboard.GetColorMonotone | src/pages/student/StudentDashboard.jsx:36-40 | a higher figure never gets a worse colour |
| StudentDashboard.MockColors | src/pages/student/StudentDashboard.jsx:5-20 | the mock overall attendance 78 is yellow, and the subjects at 72, 81 and 88 are red, yellow and green |
| StudentDashboard.StudentPage.HandleLogout | src/pages/student/StudentDashboard.jsx:47-50 | logout empties local storage completely, not only the session keys, and goes to `/` |
| TeacherDashboard.RosterOf | src/pages/teacher/TeacherDashboard.jsx:84 | a class's roster, or the empty roster for a class without one, as the logical-or with `[]` gives (the same lookup at line 108) |
| TeacherDashboard.InitialMarks | src/pages/teacher/TeacherDashboard.jsx:83-86 | a class's initial marks, row by row in roster order, stated by the InitialMarksKeys and InitialMarksValues rows |
| TeacherDashboard.InitialMarksKeys | src/pages/teacher/TeacherDashboard.jsx:83-86 | a class's initial marks have exactly the roster's student ids as keys |
| TeacherDashboard.InitialMarksValues | src/pages/teacher/TeacherDashboard.jsx:83-86 | with unique ids, every student on the roster has a mark, and it is the roster's `present` flag |
| TeacherDashboard.BuildInitial | src/pages/teacher/TeacherDashboard.jsx:83-86 | the `forEach` loop produces the class's initial marks |
| TeacherDashboard.Init | src/pages/teacher/TeacherDashboard.jsx:81-89 | initialising a class that already has marks changes nothing; otherwise only that class is added, with its initial marks (none without a roster), and every other class keeps its marks |
| TeacherDashboard.IsOn | src/pages/teacher/TeacherDashboard.jsx:99 | a student counts as present only when the class's marks hold the student with the value true; a student without a mark is falsy (the same test in the `filter` at line 110) |
| TeacherDashboard.Flip | src/pages/teacher/TeacherDashboard.jsx:99 | flipping changes the one student's presence to its opposite, makes a student with no mark present, and keeps every other student's mark |
| TeacherDashboard.Toggle | src/pages/teacher/TeacherDashboard.jsx:93-102 | initialise the class, then flip the student's mark; stated by the ToggleSpec and ToggleTwice rows |
| TeacherDashboard.ToggleSpec | src/pages/teacher/TeacherDashboard.jsx:93-102 | after a toggle the class is initialised and the student's mark is the opposite of its value after initialisation; a student without a mark becomes present; every other student and every other class keep their marks |
| TeacherDashboard.ToggleTwice | src/pages/teacher/TeacherDashboard.jsx:95-101 | toggling the same student twice restores the initialised table when the student had a mark, and the original table when the class was already initialised |
| TeacherDashboard.MockToggleTwice | src/pages/teacher/TeacherDashboard.jsx:61-65 | toggling student 3 of class 2 twice on a fresh dashboard leaves class 2 with its roster's marks |
| TeacherDashboard.MarksOf | src/pages/teacher/TeacherDashboard.jsx:110 | the marks of the class on screen, or no marks when the table has no entry for it, as `attendanceState[selectedClass]?.` gives |
| TeacherDashboard.PresentCount | src/pages/teacher/TeacherDashboard.jsx:109-111 | the present count never exceeds the roster's length |
| TeacherDashboard.Percent | src/pages/teacher/TeacherDashboard.jsx:113 | the percentage is 0 for an empty roster; otherwise it is the present count times 100 over the total; it lies in [0, 100] |
| TeacherDashboard.ComputeStats | src/pages/teacher/TeacherDashboard.jsx:106-115 | total is the roster's length and present the count of roster rows marked present; the Absent card is between 0 and total; the percentage is 0 for an empty roster and otherwise present times 100 over total, within [0, 100] |
| TeacherDashboard.FlipCount | src/pages/teacher/TeacherDashboard.jsx:93-111 | flipping a student moves the present count by the number of roster rows with that id, down if the student was present and up otherwise |
| TeacherDashboard.ToggleStats | src/pages/teacher/TeacherDashboard.jsx:93-115 | on a roster with unique ids, toggling a student on it moves Present by exactly one and Absent the opposite way, and leaves the total alone |
| TeacherDashboard.InitialCount | src/pages/teacher/TeacherDashboard.jsx:81-112 | a freshly initialised class with unique ids counts as present exactly the rows its roster marks present |
| TeacherDashboard.MockFlagsFirst | src/pages/teacher/TeacherDashboard.jsx:54-60 | class 1's roster has unique ids and marks 3 students present |
| TeacherDashboard.MockFlagsRest | src/pages/teacher/TeacherDashboard.jsx:61-70 | the rosters of classes 2 and 3 have unique ids and mark 2 students present each |
| TeacherDashboard.MockInitialStats | src/pages/teacher/TeacherDashboard.jsx:53-71 | the first look at class 1 shows 3 present of 5 at 60%, and classes 2 and 3 show 2 present each |
| TeacherDashboard.RowIsRed | src/pages/teacher/TeacherDashboard.jsx:218 | a row's percentage is shown in red below 75 and in green otherwise, stated by the RowColourAgrees row |
| TeacherDashboard.RowColourAgrees | src/pages/teacher/TeacherDashboard.jsx:218 | a row's percentage is red exactly when it is below 75, the same split as the student dashboard's red band |
| TeacherDashboard.Find | src/pages/teacher/TeacherDashboard.jsx:117 | `find` returns a class exactly when some listed class has the id, and what it returns is the first listed class with that id |
| TeacherDashboard.Dashboard.constructor | src/pages/teacher/TeacherDashboard.jsx:75-76 | a fresh dashboard shows class 1 with an empty table, and class 1 is a listed class |
| TeacherDashboard.Dashboard.InitAttendance | src/pages/teacher/TeacherDashboard.jsx:81-89 | the table becomes `Init` of the old table and the class |
| TeacherDashboard.Dashboard.ToggleAttendance | src/pages/teacher/TeacherDashboard.jsx:93-102 | the table becomes `Toggle` of the old table, class and student |
| TeacherDashboard.Dashboard.SelectClass | src/pages/teacher/TeacherDashboard.jsx:149 | the class on screen becomes a listed class's id, so it stays one of the listed classes |
| TeacherDashboard.Dashboard.SelectedClassInfo | src/pages/teacher/TeacherDashboard.jsx:117 | the lookup of the class on screen always succeeds and returns a listed class with that id |
| TeacherDashboard.Dashboard.RefreshStats | src/pages/teacher/TeacherDashboard.jsx:106-115 | the class on screen is initialised, and the stats are `ComputeStats` of its roster and its marks |

## Left out

- The HTTP calls, the two hard-coded hosts and `res.json()` parsing. A reply is an input datatype. A body that is not JSON ends in the `catch` block, like a failed fetch, and is folded into `NoReply`/`NoAnswer`.
- `alert` on successful registration and `console.error` in the login page's `catch` block (a request that did not complete): they only talk to the user or the console.
- Rendering: JSX, Tailwind class strings and icons.
  - `getColor` returns class strings; the model returns the band they stand for (`Severity`).
  - The Present/Absent badge of a table row reads the same mark that `IsOn` reads.
- The show-password toggles and the `disabled={isLoading}` attributes: they affect display and input only. Since handlers are modelled as running to completion, no second submission can start while one is pending.
- React's batched, asynchronous state updates and the `await` interleaving: each handler is one sequence of steps.
  - `toggleAttendance` calls `initAttendance` and then flips the mark through an updater function. The model runs the two as sequential steps on the current table. For a Toggle button that can be clicked, the class is already initialised, so the first step changes nothing.
- TeacherDashboard.Dashboard.RefreshStats: React's render passes are not represented. The first pass over a class not yet in the table computes a stale count, because `useMemo` counts before its own initialisation takes effect. React discards that pass and renders again with the initialised table, which is what `RefreshStats` computes.
- TeacherDashboard.Percent: exact; `toFixed(1)` rounding and the string it produces are not modelled.
- `new Date()`, `toISOString` and `toDateString` on the teacher dashboard: clock input used only for display.
- JsText.ToLower: lower-cases ASCII letters only. Full Unicode case mapping is not modelled; `IsSpace` does use the full ECMAScript white-space set.
- Login.FailureMessage: only models a string or absent `detail`. A non-string truthy detail would be passed to `setError` as is.
- Register.ErrorMessage: only models an entry `msg` that is a string or absent. An object `detail` that is not an array is treated like any other non-string value.
- JavaScript numbers are modelled as `real` (no NaN or infinities), and object keys as `int` ids.
- The student dashboard's static content (recent activity, trend, upcoming classes, the fixed yellow "Defaulter Status" card) and the landing page `src/pages/LandingPAge.jsx`: no behaviour.
- `src/App.jsx` is not part of this model: it is a route table whose matching belongs to react-router.
