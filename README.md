# hack_event contest core, modelled in Dafny

hack_event is a coding-contest web application. Administrators create
problems with visible and hidden test cases. Contestants run and submit
code, which is graded by a remote code-execution service (Piston). A
leaderboard ranks users by the sum of their best score per problem. This
project models the grading and scoring pipeline and the small rules
around it:

- the back-end handlers that create, update and delete problems, mask
  hidden test cases, run and submit code (`Routes`);
- the storage layer over the users, problems, test cases and submissions
  tables, including the cascading deletes (`Storage`, `class Store`);
- the leaderboard query, with best score per (user, problem), sums,
  ordering and ranks (`Leaderboard`);
- the Piston client, which classifies compile errors, timeouts, runtime
  errors and transport failures (`Piston`);
- the input schemas with their defaults and error messages (`Types`);
- URL building (`ApiRoutes`), the query client's error text and
  401 handling (`QueryClient`), and the unauthorised-error test
  (`AuthUtils`);
- the socket origin allow-list (`Socket`);
- the front end's route guards (`App`), the profile form rules
  (`Profile`), and the solve page's state machine with its violation
  counter and locally stored list of solved problems (`SolveProblem`,
  `class SolvePage`).

JavaScript semantics are written out where the code relies on them:

- `String.prototype.trim` with the ECMAScript white-space set;
- `||` on strings and `!error` on an optional string;
- `String.prototype.replace` with a string pattern, which replaces the
  first occurrence only and expands `$` patterns in the replacement;
- truthiness of request bodies;
- the `ok` range 200–299 of a fetch response.

The Piston HTTP call is a parameter (`call: Request -> Reply`), so every
property holds for every behaviour of the remote service.

## Model

| member | source | states |
|---|---|---|
| Text.Trim | backend/src/piston.ts:77 | the result is a contiguous slice of the input with no JavaScript white space at either end, and everything cut off is white space |
| Text.TrimIdempotent | backend/src/routes.ts:131 | trimming a trimmed string changes nothing, so trimmed stdout compared with trimmed expected output is stable |
| Text.IndexOf | shared/routes.ts:151-152 | the first index at which the pattern occurs, or none when it does not occur |
| Text.ExpandReplacement | shared/routes.ts:152 | the `$` patterns of `replace` bring in no character that is not in the pattern, the matched text or the text before or after the match |
| Text.ReplaceFirst | shared/routes.ts:152 | a string without the pattern is unchanged; otherwise, whatever the replacement, the text before and after the first occurrence is kept, and a `$`-free replacement goes in literally |
| Text.ExpandWithoutDollar | shared/routes.ts:152 | a replacement string without `$` is inserted literally |
| Text.NatToString | shared/routes.ts:152 | decimal digits without leading zeros that read back as the number |
| Text.IntToString | shared/routes.ts:152 | a `-` exactly for a negative number, then decimal digits that read back as its magnitude |
| Text.IntToStringHasNoSigils | shared/routes.ts:152 | the decimal text of an integer contains neither `$` nor `:` |
| Types.ErrorMessage | frontend/src/shared/types.ts:49-56 | the validation message sent back is non-empty except for an empty custom message |
| Types.CheckPositiveInt | frontend/src/shared/types.ts:55 | a number is accepted exactly when it is an integer greater than zero |
| Types.CheckRequired | frontend/src/shared/types.ts:50-54 | a string field is accepted exactly when it is non-empty |
| Types.ParseProblem | frontend/src/shared/types.ts:49-56 | accepted exactly when the five text fields are non-empty and marks (if given) is a positive integer; marks defaults to 25; an empty title is reported first as "Title is required" |
| Types.ParseProblemPatch | frontend/src/shared/routes.ts:69 | the partial schema accepts exactly the patches whose given fields are valid and copies them unchanged |
| Types.ParseTestCase | frontend/src/shared/types.ts:58-63 | input and expected output are kept; a case is hidden unless `isHidden` is explicitly false |
| Types.ParseFullTestCase | frontend/src/shared/types.ts:59 | accepted exactly when the problem id is a positive integer |
| Types.ParseSubmission | frontend/src/shared/types.ts:65-73 | accepted exactly when the problem id is a positive integer and the score (if given) an integer; score defaults to 0; output is kept when present and non-null |
| Types.RunStatusTextsAreDistinct | frontend/src/shared/types.ts:104-108 | the three run statuses have three different wire names |
| Piston.LanguageMap | backend/src/piston.ts:11-16 | among own keys, exactly python, c, cpp and java are supported; cpp maps to "c++", the others to themselves |
| Piston.FileName | backend/src/piston.ts:49 | the uploaded file is `main.<language>` |
| Piston.ClassifyReply | backend/src/piston.ts:62-115 | no error exactly when nothing failed to compile and the run exited with 0, and then the output is the trimmed stdout; every failure has empty output and a non-empty message |
| Piston.ExecuteCode | backend/src/piston.ts:32-39 | an unsupported language yields "Unsupported language: …" and no output; every error result has empty output and a non-empty message |
| Piston.UnsupportedMakesNoCall | backend/src/piston.ts:32-39 | for an unsupported language the result does not depend on the remote service |
| Piston.OnlyTheRequestMatters | backend/src/piston.ts:41-62 | two services that give the same reply to the request built give the same result |
| Piston.CompileErrorComesFirst | backend/src/piston.ts:67-72 | a failed compile decides the result whatever the run stage says, with "Compilation Error:" and stderr or output |
| Piston.CleanRunYieldsTrimmedStdout | backend/src/piston.ts:75-79 | a run with exit code 0 after a clean compile yields the trimmed stdout and no error |
| Piston.FailedRunClassification | backend/src/piston.ts:81-94 | a non-zero run is "Time Limit Exceeded" on SIGKILL, otherwise "Runtime Error:" with stderr, output or "Unknown error" |
| Piston.TransportFailureClassification | backend/src/piston.ts:96-115 | an aborted request is a time-limit error, a reply with a body gives "API Error: …", any other failure "Execution failed: …" |
| Storage.FilterConcat | backend/src/storage.ts:81-86 | filtering distributes over concatenation (the basis of every delete proof) |
| Storage.FilterNarrowing | backend/src/storage.ts:81-86 | filtering by a weaker then a stronger condition equals filtering by the stronger one |
| Storage.ProblemIdsAfterDelete | backend/src/storage.ts:84 | deleting a problem removes exactly its id from the set of problem ids |
| Storage.UserIdsAfterDelete | backend/src/storage.ts:53-56 | deleting a user removes exactly that id from the set of user ids |
| Storage.DeleteProblemKeepsValid | shared/schema.ts:25 | deleting a problem with its test cases and submissions keeps every foreign key satisfied |
| Storage.PatchRows | backend/src/storage.ts:73-79 | only the row with the given id is patched; the set of ids is unchanged |
| Storage.FindProblem | backend/src/storage.ts:63-66 | a row found has the id; none found means no row has it |
| Storage.Store.constructor | backend/src/storage.ts:49-51 | a store with the given users and empty tables satisfies the table invariants |
| Storage.Store.GetUsers | backend/src/storage.ts:49-51 | all users, newest first |
| Storage.Store.GetProblems | backend/src/storage.ts:59-61 | all problems, newest first |
| Storage.Store.GetProblem | backend/src/storage.ts:63-66 | a problem is found exactly when its id is in the table, and it is that row |
| Storage.Store.TestCasesOf | backend/src/storage.ts:89-91 | exactly the test cases of the problem |
| Storage.Store.GetSubmissionsForUser | backend/src/storage.ts:108-117 | the user's submissions, newest first, each joined with its problem's title |
| Storage.Store.CreateProblem | backend/src/storage.ts:68-71 | the new row gets a fresh id and is appended; other tables are unchanged |
| Storage.Store.UpdateProblem | backend/src/storage.ts:73-79 | a missing id yields nothing and changes nothing; otherwise that row is patched and the others stay as they were |
| Storage.Store.DeleteProblem | backend/src/storage.ts:81-86 | the problem, its test cases and its submissions are gone; every other problem's test cases and submissions are unchanged; the foreign keys still hold |
| Storage.Store.DeleteTestCasesForProblem | backend/src/storage.ts:98-100 | the problem has no test cases left; other problems' test cases are unchanged |
| Storage.Store.CreateTestCase | shared/schema.ts:33-34 | the insert fails exactly when the problem does not exist; otherwise one row with a fresh id is appended |
| Storage.Store.CreateSubmission | shared/schema.ts:33-34 | the insert fails exactly when the problem or the user does not exist; otherwise one row with a fresh id is appended |
| Storage.Store.DeleteUser | backend/src/storage.ts:53-56 | the user and their submissions are gone; other users' submissions are unchanged |
| Leaderboard.Groups | backend/src/storage.ts:125-133 | one group per distinct (user, problem) pair that has a submission |
| Leaderboard.MaxScore | backend/src/storage.ts:128 | the largest score among the pair's submissions, attained by one of them; none when the pair has none |
| Leaderboard.BestSubmissions | backend/src/storage.ts:125-133 | exactly one row per attempted (user, problem) pair, carrying that pair's maximum score |
| Leaderboard.Username | backend/src/storage.ts:152 | the e-mail when it is non-empty, "Anonymous" otherwise; never empty |
| Leaderboard.StandingOf | backend/src/storage.ts:135-146 | the user's id, image and display name; the total is the sum of the user's best scores and problems solved the number of the user's groups |
| Leaderboard.SumBoundsEach | backend/src/storage.ts:140 | with non-negative scores a total is non-negative and at least each best score it sums |
| Leaderboard.Standings | backend/src/storage.ts:135-146 | one standing per user, in user order, including users without submissions |
| Leaderboard.Insert | backend/src/storage.ts:148 | inserting into a list ordered by total keeps it ordered and adds exactly one element |
| Leaderboard.SortByTotal | backend/src/storage.ts:148 | the result is ordered by non-increasing total and is a permutation of the input |
| Leaderboard.Ranked | backend/src/storage.ts:150-157 | ranks 1, 2, … follow the order of the sorted list, which is recovered by dropping the ranks |
| Leaderboard.GetLeaderboard | backend/src/storage.ts:119-158 | one entry per user, ranks 1, 2, … in order, totals non-increasing, and the entries without rank are a permutation of the users' standings |
| Leaderboard.UserWithoutSubmissions | backend/src/storage.ts:141-142 | a user with no submissions has total 0 and 0 problems solved |
| Leaderboard.DistinctCardinality | backend/src/storage.ts:142 | a list without repetitions has as many distinct elements as entries |
| Leaderboard.OwnProblemIdsDistinct | backend/src/storage.ts:125-142 | after grouping by (user, problem), one user's rows name each problem at most once |
| Leaderboard.OwnProblemIdsAreAttempted | backend/src/storage.ts:125-142 | the problems in one user's best rows are exactly the problems that user submitted for |
| Leaderboard.ProblemsSolvedIsDistinctProblems | backend/src/storage.ts:142 | problems solved is the number of distinct problems the user submitted for |
| ApiRoutes.NoColonNoPlaceholder | shared/routes.ts:151 | a URL without `:` contains no placeholder |
| ApiRoutes.SubstituteOne | shared/routes.ts:150-153 | an absent placeholder leaves the URL as it is; a present one is replaced at its first occurrence by the value's text when that text has no `$` |
| ApiRoutes.Substitute | shared/routes.ts:147-157 | a path without placeholders comes back unchanged |
| ApiRoutes.BuildUrl | frontend/src/shared/routes.ts:152-161 | the URL is the path with each parameter substituted in entry order; without parameters, the path itself |
| ApiRoutes.AbsentParamIgnored | shared/routes.ts:151 | a parameter whose placeholder never occurs leaves every substitution as it is |
| ApiRoutes.FirstPlaceholderAt | shared/routes.ts:151-152 | a placeholder with no `:` before it is the occurrence `replace` finds first |
| ApiRoutes.ProblemPath | shared/routes.ts:147-157 | `/api/problems/:id` with id n becomes `/api/problems/` followed by the decimal text of n |
| ApiRoutes.PlaceholderAfterPrefix | shared/routes.ts:151-152 | for any prefix without `:` and value without `$`, the first placeholder of the key is replaced by the value's text and the rest of the path is kept |
| ApiRoutes.PrefixKeyMatchesLongerPlaceholder | shared/routes.ts:151-152 | for any prefix without `:` and value without `$`, a key that is a prefix of a longer placeholder name replaces inside that placeholder, leaving the name's tail behind |
| ApiRoutes.DollarPatternInValue | shared/routes.ts:152 | a string value `$&` is expanded as a replacement pattern, so the placeholder is put back unchanged |
| ApiRoutes.ValidUserUpdate | frontend/src/shared/routes.ts:5-8 | accepted exactly when a given username is non-empty and a given non-null image url is a URL |
| ApiRoutes.UserUpdateRules | frontend/src/shared/routes.ts:5-8 | for every name and url: an empty update or one clearing the image is accepted; a name alone is accepted exactly when non-empty; a url alone exactly when it is a URL; an empty name never |
| Routes.Grade | backend/src/routes.ts:128-139 | a case passes exactly when there is no error and the output equals the trimmed expected output; a hidden case shows "Hidden" for its input and expected output, and "Hidden" or "Incorrect" for its actual output |
| Routes.HiddenCaseRevealsOnlyVerdict | backend/src/routes.ts:136-139 | two hidden cases with the same execution result and verdict are reported identically |
| Routes.PistonVerdict | backend/src/routes.ts:131 | with the Piston client, a case passes exactly when it has no error and the trimmed outputs match |
| Routes.GradeCases | backend/src/routes.ts:124-144 | one result per test case in order, each the grade of that case's execution; all passed exactly when each passed |
| Routes.RunTests | backend/src/routes.ts:124-127 | the problem's stored test cases are the ones graded |
| Routes.RunHandler | backend/src/routes.ts:146-158 | a language outside python, c and cpp gives 500 "Execution failed"; otherwise 200 with status "pass" exactly when all cases passed, and never "error" |
| Routes.AwardedScore | backend/src/routes.ts:176 | an existing problem awards its marks; a missing one 0 |
| Routes.GradedAllPass | backend/src/routes.ts:124-127 | the graded results all pass exactly when every test case passes with the submitted code |
| Routes.SubmitHandler | backend/src/routes.ts:160-188 | a submission is stored exactly when a reply is given; with every case passing, that happens exactly when the problem and the user exist (otherwise 500), and the row has status "pass", output "All test cases passed" and score equal to the marks; a failing case gives 400 and stores nothing |
| Routes.Masked | backend/src/routes.ts:62 | a hidden test case has "Hidden" as input and expected output; a visible one is as stored |
| Routes.GetProblemHandler | backend/src/routes.ts:54-64 | a missing problem gives 404 "Problem not found"; otherwise 200 with the problem and its test cases masked |
| Routes.MaskedHiddenCasesAgree | backend/src/routes.ts:62 | two hidden cases with the same ids are shown identically |
| Routes.AppendedRowsOfOneProblem | backend/src/routes.ts:76-78 | appending rows of one problem adds them to that problem's test cases and to no other |
| Routes.InsertTestCases | backend/src/routes.ts:76-78 | the inserted rows carry the parsed inputs, in order, under the new problem |
| Routes.CreateProblemHandler | backend/src/routes.ts:66-87 | non-admins get 403; invalid input gives 400 with the first validation message and changes nothing; otherwise always 201, the new row holds the parsed fields, and exactly the given test cases belong to it |
| Routes.UpdateProblemHandler | backend/src/routes.ts:89-112 | non-admins get 403; invalid input gives 500 "Update failed"; a missing problem 404 with nothing changed; otherwise always 200, only that problem row is patched, and the test cases are replaced when given and kept when not |
| Routes.DeleteProblemHandler | backend/src/routes.ts:114-121 | non-admins get 403 and nothing changes; otherwise 204, the problem with its test cases and submissions is gone, and other problems, their test cases and the users are unchanged |
| Routes.ListUsersHandler | backend/src/routes.ts:21-25 | non-admins get 403; admins get all users, newest first |
| Routes.DeleteUserHandler | backend/src/routes.ts:27-31 | non-admins get 403 and nothing changes; otherwise 204, the user and their submissions are gone, and other users, their submissions, the problems and the test cases are unchanged |
| QueryClient.GetUrl | frontend/src/lib/queryClient.ts:22-26 | an absolute URL is kept; a path is joined to the base with exactly one slash and ends with the path |
| QueryClient.GetUrlIdempotent | frontend/src/lib/queryClient.ts:22-26 | resolving a resolved URL against the same base changes nothing |
| QueryClient.Or | frontend/src/lib/queryClient.ts:30-36 | JavaScript `||` on two strings: the first when non-empty, otherwise the second |
| QueryClient.ErrorText | frontend/src/lib/queryClient.ts:30-36 | a non-empty JSON `message` wins, then the body text; for an empty body that is not a JSON object (or is JSON `null`) it is the status text; empty exactly when all of them are |
| QueryClient.Label | frontend/src/lib/queryClient.ts:39-51 | a label and fallback exactly for 401, 403, 404, 500 and 503 |
| QueryClient.Detail | frontend/src/lib/queryClient.ts:40-50 | the error text when non-empty, otherwise the status's fallback, or the status text for an unlabelled status |
| QueryClient.ThrowIfResNotOk | frontend/src/lib/queryClient.ts:28-53 | nothing is thrown exactly when the status is 200–299; the message is the status and ": ", then for a labelled status the label and " - ", then the detail, with nothing else in between |
| QueryClient.FirstColonAfter | frontend/src/lib/queryClient.ts:39-51 | after a prefix without `:`, the first `:` is the one that follows the prefix |
| QueryClient.StatusIsRecoverable | frontend/src/lib/queryClient.ts:39-51 | the first `:` of a thrown message ends the status digits, so the status can be read back |
| QueryClient.RunQuery | frontend/src/lib/queryClient.ts:82-106 | a 401 gives null when so configured; other failures give the error message of the response; success gives the body |
| QueryClient.JoinKey | frontend/src/lib/queryClient.ts:88 | an empty key gives the empty URL; a one-part key is that part itself |
| QueryClient.RequestInit | frontend/src/lib/queryClient.ts:55-79 | a JSON content type and a serialised body are sent exactly when the data is truthy; credentials are always included |
| QueryClient.FalsyDataIsDropped | frontend/src/lib/queryClient.ts:63-64 | the falsy values 0 and "" send no body, while an empty object is sent |
| AuthUtils.IsUnauthorizedError | frontend/src/lib/auth-utils.ts:1-3 | true exactly when the message starts with "401: " and "Unauthorized" follows before any line terminator |
| AuthUtils.WordOnFirstLine | frontend/src/lib/auth-utils.ts:2 | true exactly when "Unauthorized" occurs before the first line terminator |
| AuthUtils.RecognisesLabelledPrefix | frontend/src/lib/auth-utils.ts:1-3 | a message starting with "401: " and then "Unauthorized" is recognised |
| AuthUtils.Recognises401Messages | frontend/src/lib/auth-utils.ts:1-3 | the messages the query client throws for 401 are recognised |
| AuthUtils.RejectsOtherPrefixes | frontend/src/lib/auth-utils.ts:2 | a message that does not start with "401: " is not recognised |
| AuthUtils.RecognisesUnauthorizedMessage | frontend/src/lib/auth-utils.ts:2 | "401: Unauthorized - " followed by any detail is recognised |
| AuthUtils.RejectsWordAfterLineBreak | frontend/src/lib/auth-utils.ts:2 | for every first line that does not contain "Unauthorized", the word on a later line is not recognised, because `.` does not match a line break |
| Socket.CheckOrigin | backend/src/socket.ts:16-25 | a missing or empty origin is allowed; otherwise allowed exactly when it is one of the three listed origins, else rejected with "Not allowed by CORS" |
| Socket.OnlyMembershipDecides | backend/src/socket.ts:7-11 | two present origins get the same decision when both or neither are listed |
| Socket.LookalikesRejected | backend/src/socket.ts:20 | an origin with a trailing slash or another port is rejected: matching is exact |
| App.ProtectedRoute | frontend/src/App.tsx:19-67 | spinner while loading; connection error on failure; login redirect without a user; profile redirect for an incomplete non-admin profile away from /profile; home redirect for non-admins on admin pages; otherwise the page |
| App.AdminsSkipProfile | frontend/src/App.tsx:58-60 | an administrator is never sent to the profile page |
| App.ProfileCheckBeforeAdminCheck | frontend/src/App.tsx:58-64 | an incomplete profile is sent to /profile even from an admin page |
| App.RootRoute | frontend/src/App.tsx:69-111 | at `/`: nothing while loading, an error page on failure, the landing page without a user, the admin page for admins, home otherwise |
| Profile.AgeIssues | frontend/src/pages/Profile.tsx:15 | the age is accepted exactly when it is a finite number from 16 to 100; a rejected age gets one message |
| Profile.Validate | frontend/src/pages/Profile.tsx:14-18 | the form is accepted exactly when the college and department have at least two characters and the age is accepted; each field's message appears exactly when that field fails |
| Profile.AcceptedProfileIsComplete | frontend/src/pages/Profile.tsx:14-18 | an accepted form, once saved, is a complete profile for the route guard |
| Profile.Defaults | frontend/src/pages/Profile.tsx:29-33 | the form starts from the user's college and department, or "" when missing or empty, and from the age unless it is missing or 0 |
| SolveProblem.Template | frontend/src/pages/SolveProblem.tsx:20-25 | a starter template exists exactly for the four offered languages |
| SolveProblem.JavaOfferedButNotAccepted | frontend/src/pages/SolveProblem.tsx:24 | Java is offered on the page but refused by the run and submit routes |
| SolveProblem.AddSolved | frontend/src/pages/SolveProblem.tsx:171-175 | the new list holds the old ids and the given id and nothing else, keeps the old list as its prefix, grows by at most one, and stays without repetitions |
| SolveProblem.AddSolvedIdempotent | frontend/src/pages/SolveProblem.tsx:172 | adding an id twice is the same as adding it once |
| SolveProblem.FirstUnskipped | frontend/src/pages/SolveProblem.tsx:57-58 | the first problem neither solved nor the current one, or none when every problem is skipped |
| SolveProblem.NextProblem | frontend/src/pages/SolveProblem.tsx:54-59 | nothing before the list is loaded; otherwise the first problem neither solved nor current |
| SolveProblem.NextIsNeverJustSolved | frontend/src/pages/SolveProblem.tsx:54-59 | after a successful submit, the next problem offered is not the one just solved |
| SolveProblem.SolvePage.constructor | frontend/src/pages/SolveProblem.tsx:36-51 | the page opens on Python with its template, no run, no violation, solved exactly when the stored list has the problem |
| SolveProblem.SolvePage.RunEnabled | frontend/src/pages/SolveProblem.tsx:352 | Run works exactly when no run is pending and nothing was submitted |
| SolveProblem.SolvePage.SubmitEnabled | frontend/src/pages/SolveProblem.tsx:359-363 | Submit works only after a passing run, for an unsolved problem, with no submit pending and nothing submitted |
| SolveProblem.SolvePage.FinalScore | frontend/src/pages/SolveProblem.tsx:162 | 0 after a violation, otherwise the marks (or 0 when unknown) |
| SolveProblem.SolvePage.OnVisibilityChange | frontend/src/pages/SolveProblem.tsx:76-87 | hiding the tab before submitting adds one violation; anything else changes nothing |
| SolveProblem.SolvePage.OnFullscreenChange | frontend/src/pages/SolveProblem.tsx:90-103 | leaving fullscreen before submitting adds one violation; anything else changes nothing |
| SolveProblem.SolvePage.SelectLanguage | frontend/src/pages/SolveProblem.tsx:334-337 | choosing a language loads its template |
| SolveProblem.SolvePage.EditCode | frontend/src/pages/SolveProblem.tsx:37 | the editor's text becomes the code |
| SolveProblem.SolvePage.StartRun | frontend/src/pages/SolveProblem.tsx:142-145 | the run request carries the code, the language and the problem id |
| SolveProblem.SolvePage.OnRunSettled | frontend/src/pages/SolveProblem.tsx:146-147 | a response's status becomes the last run status |
| SolveProblem.SolvePage.StartSubmit | frontend/src/pages/SolveProblem.tsx:160-165 | the submit request carries only the code, the language and the problem id; the final score is not sent |
| SolveProblem.SolvePage.OnSubmitSuccess | frontend/src/pages/SolveProblem.tsx:167-176 | the page is submitted and solved, the id is stored once, and run and submit are disabled |
| SolveProblem.SolvePage.OnSubmitFailure | frontend/src/pages/SolveProblem.tsx:164-166 | a failed submit only ends the pending state |
| SolveProblem.ViolationsFrozenAfterSubmit | frontend/src/pages/SolveProblem.tsx:77 | once submitted, no tab or fullscreen event adds a violation |

Notes on the model:

- `!error` in the grading loop also treats an empty error string as no
  error. `Routes.PistonVerdict` shows that the Piston client never
  produces one.
- The foreign keys in shared/schema.ts make an insert fail for a missing
  problem or user, and the submit handler turns that failure into 500
  "Submission failed". So the `|| 0` fallback in the awarded score
  (backend/src/routes.ts:176) is never stored.
- The page computes `finalScore` (0 after a tab or fullscreen
  violation), but the submit request does not carry it, and the server
  stores the problem's full marks (`SolvePage.StartSubmit`,
  `Routes.SubmitHandler`). The "0 marks" toast therefore describes a
  score the server never records.
- The languages are python, c, cpp and java on the page, but only
  python, c and cpp in the route schemas. A Java run or submit therefore
  fails with 500 (`SolveProblem.JavaOfferedButNotAccepted`).

## Left out

- The HTTP call to the Piston service is a parameter; timeouts, retries and the real service are not modelled.
- SQL, drizzle and the connection pool are replaced by in-memory tables with auto-increment counters; transactions and concurrent requests are not modelled.
- `getTestCases` has no ORDER BY; the model returns the rows in table order.
- Leaderboard ties: the order among equal totals is whatever the database yields; the model keeps one particular order and promises only non-increasing totals.
- Timestamps (`createdAt`) are not stored; newest-first order is modelled as reverse insertion order.
- Users are created by the sign-in flow, which is not part of this model; the store starts with a given user table.
- The profile update route (`updateUser`, PUT /api/profile) is not part of this model; `ApiRoutes.UserUpdateRules` states the validation rules it uses.
- Socket broadcasting, the active-user count and the leaderboard update pushed after a submit are not modelled; only the origin check is.
- ApiRoutes.ValueText: a number parameter is an integer; JavaScript's `String(number)` for fractions, exponents and values of 1e21 or more is not modelled.
- Strings are sequences of Unicode scalar values, not UTF-16 code units, so length limits count characters rather than code units.
- Network failures in `apiRequest` and `getQueryFn` (the thrown "Network Error …" messages) and a failing `res.json()` on an ok response are not modelled.
- The API base URL comes from the environment; it is the `base` parameter of `QueryClient.GetUrl`.
- Profile.AgeIssues: `z.coerce.number()` is taken as already applied; the age arrives as a finite number, NaN or an infinity.
- ApiRoutes.UserUpdateRules: URL validity is an `isUrl` predicate given as a parameter.
- QueryClient.ErrorText: a JSON `message` that is not a string is not modelled.
- The back end parses request bodies with `./shared/routes` under backend/src, which is not part of this model. The model validates problems, test cases and submissions with the schemas of frontend/src/shared/types.ts:49-73 (non-empty texts with their messages, positive-integer marks defaulting to 25). The repository's shared/routes.ts builds its inputs from drizzle-zod `createInsertSchema` (shared/schema.ts:70-72), which has none of these checks; that variant is not modelled.
- Request bodies arrive already typed, so zod's type errors ("Required", "Expected number, received string") are not modelled.
- Path ids are integers; `Number(req.params.id)` on a non-numeric id gives NaN, which is not modelled.
- Piston.LanguageMap: `languageMap` is a plain object, so `languageMap[language]` is also truthy for inherited names such as "constructor" or "toString", for which the service would be called; the route schemas' language enum keeps such names out, and the model refuses them as unsupported.
- `redirectToLogin` (a toast and a timed redirect) is not modelled.
- React rendering, stale closures, toasts, and the sharing of local storage between tabs are not modelled; each page event is one method call.
- The copy, paste and context-menu blocking on the solve page are not modelled.
- Routes.RunHandler, Routes.SubmitHandler: the problem id in the body is an integer; the route schemas' `z.number()` would also let a fraction through.
- The submissions list and leaderboard handlers only call `Storage.Store.GetSubmissionsForUser` and `Leaderboard.GetLeaderboard` and have no members of their own.
- Error replies caught as "Internal Server Error" for non-validation failures in the create handler are not modelled, because the in-memory store does not fail.
