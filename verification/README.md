# Quiz creation form — Dafny model

This project models the logic of the "Create a New Quiz" form in the quizmis
front-end (`src/components/Create.jsx`). It covers three parts:

- the submission handler `handleQuizCreation`;
- the course-option loader `fetchCourses`;
- the form constraints that the browser enforces before the handler runs.

The handler has three guards on the authentication state, which apply in
order. It then reads the signed-in user's profile, where a missing profile is
tolerated. It derives a creator name with JavaScript's `trim` and an
"Anonymous" fallback, and writes a quiz record with zeroed counters. After a
successful write it navigates to `/quiz/<generated id>`.

The hosted services become plain inputs:

- the authentication hook's snapshot (`loading`, `error`, `user`);
- the profile read (`ReadFailed | Missing | Found(first?, last?)`);
- the clock reading (an opaque ISO 8601 string);
- the quiz write (`WriteFailed | Written(id)`);
- the configuration read (`FetchThrew | NoSuchDocument | Document(courses?)`).

The handler returns a `Run`. A `Run` lists the remote calls and the
navigation in the order they happen (`ReadProfile`, `AddQuiz`, `Navigate`),
together with the outcome. The outcome is `NoOp(reason)` or
`Created(quiz, target)`. This lets the contracts state directly that a path
reads, writes or navigates nothing.

Modules:

- `JsString` (jsstring.dfy) defines `String.prototype.trim`. Its white-space
  set is the ECMAScript WhiteSpace and LineTerminator code points. Trimming
  has an independent slice-based definition (`IsTrimOf`), and a lemma proves
  `Trim` equal to it.
- `Optional` (optional.dfy) defines an option type for absent fields.
- `CourseOptions` (courses.dfy) covers the option loader and the options that
  the course selector renders.
- `QuizCreation` (create.dfy) covers the guards, the profile names, the
  creator name, the record, the handler, and the form gate `Submit`.
- `CreateScenarios` (scenarios.dfy) works through concrete submissions of
  the form.

Two details of the code shape the model:

- The authentication hook reports three independent values, not one
  three-way state. A session that is both loading and errored is treated as
  loading, because that guard comes first.
- The "Anonymous" fallback applies whenever the joined name trims to
  nothing. That includes names made only of white space, not just empty
  names.

## Model

| member | source | states |
|---|---|---|
| JsString.IsWhitespace | src/components/Create.jsx:80 | the code points `trim` strips: among ASCII exactly TAB, LF, VT, FF, CR and SPACE; ZERO WIDTH SPACE, NEXT LINE and MONGOLIAN VOWEL SEPARATOR are kept; all stripped code points lie in the Basic Multilingual Plane |
| JsString.LeadingSpace | src/components/Create.jsx:80 | the count of leading white space: everything before it is white space, the code point at it is not |
| JsString.TrailingSpace | src/components/Create.jsx:80 | the count of trailing white space: everything after the cut is white space, the code point before it is not |
| JsString.Trim | src/components/Create.jsx:80 | `trim` returns a slice of its input with only white space cut from both ends; the result has no surrounding white space and is no longer than the input |
| JsString.TrimCharacterized | src/components/Create.jsx:80 | `Trim(s)` is exactly the string `IsTrimOf` describes (both directions), so the trimmed result is unique |
| JsString.TrimEmptyIffBlank | src/components/Create.jsx:80 | trimming gives "" exactly when the input is all white space, which is exactly when the "Anonymous" fallback applies |
| JsString.TrimOfTrimmed | src/components/Create.jsx:80 | a string that neither starts nor ends with white space is unchanged by `trim` |
| JsString.TrimIdempotent | src/components/Create.jsx:80 | trimming an already trimmed name changes nothing |
| JsString.TrimSkipsLeadingSpace | src/components/Create.jsx:80 | a white-space code point in front of a string (the separator when the first name is "") does not change its trim |
| JsString.TrimSkipsTrailingSpace | src/components/Create.jsx:80 | a white-space code point after a string (the separator when the last name is "") does not change its trim |
| CourseOptions.LoadCourses | src/components/Create.jsx:29-39 | an existing config document replaces the options with its `courses` list unchanged, or [] if the field is absent; a missing document or a failed read leaves the options as they were |
| CourseOptions.OptionsAfterMount | src/components/Create.jsx:19-43 | after the mount-time read the options are the document's course list, and [] in every other case, since the initial list is [] |
| CourseOptions.SelectorValues | src/components/Create.jsx:175-187 | the selector offers an empty-valued placeholder followed by every course, in order |
| CourseOptions.RenderedCoursesAreFetched | src/components/Create.jsx:178-187 | the courses rendered after the placeholder equal the fetched list exactly, in order, so no entry is added, dropped or repeated |
| CourseOptions.SelectedCourseIsOption | src/components/Create.jsx:166-187 | a non-placeholder value pickable in the selector is a loaded course, and every non-empty loaded course is pickable |
| QuizCreation.Resolve | src/components/Create.jsx:47-55 | loading is checked first, then the error, then the absence of a user; the run proceeds only when none holds, with the user's uid |
| QuizCreation.ProfileNames | src/components/Create.jsx:60-71 | a failed profile read gives no names; a missing profile gives "" and ""; an absent name field reads as "" |
| QuizCreation.CreatorName | src/components/Create.jsx:80 | the creator name is never empty and has no surrounding white space; it is "Anonymous" when both names are blank, and otherwise the trim of `first + " " + last` |
| QuizCreation.BlankJoin | src/components/Create.jsx:80 | the joined name is blank exactly when both names are blank |
| QuizCreation.CreatorNameJoinsNames | src/components/Create.jsx:80 | two non-empty names without surrounding white space give `first + " " + last` |
| QuizCreation.CreatorNameFirstOnly | src/components/Create.jsx:67-80 | with the last name "" the creator name is the trimmed first name, or "Anonymous" if the first name is blank |
| QuizCreation.CreatorNameLastOnly | src/components/Create.jsx:67-80 | with the first name "" the creator name is the trimmed last name, or "Anonymous" if the last name is blank |
| QuizCreation.QuizPath | src/components/Create.jsx:89 | the navigation target is "/quiz/" followed by exactly the generated id |
| QuizCreation.NewQuiz | src/components/Create.jsx:74-86 | the record added copies title, description, course and visibility from the form, sets creatorId, creatorName and dateCreated, has no questions and zero numItems, totalQuizTakers and scoreAccumulated; it is the only record with all these properties |
| QuizCreation.HandleQuizCreation | src/components/Create.jsx:45-93 | the guard exits touch nothing. Past the guards the profile of the signed-in uid is read first, and a failed read ends the run. A missing profile still writes, credited to "Anonymous". The written quiz copies title, description, course and visibility, sets creatorId to the uid, dateCreated to the submit time, numItems 0, questions [], totalQuizTakers 0 and scoreAccumulated 0. A quiz is created exactly when the write succeeds. Navigation happens exactly then, as the step after the write, to "/quiz/" + id. A failed write creates nothing |
| QuizCreation.ValidForm | src/components/Create.jsx:117-221 | the form's declared constraints: title of 4 to 20 characters, description of at most 100, a non-empty course from the loaded options, visibility Public, Private or Code; a valid form has all required fields filled and needs a non-empty option list |
| QuizCreation.Submit | src/components/Create.jsx:106-221 | an invalid form (title outside 4–20, description over 100, course empty or not loaded, visibility not Public/Private/Code) never reaches the handler; a valid one runs it, and every created quiz satisfies those constraints |
| CreateScenarios.JaneDoe | src/components/Create.jsx:63-80 | a profile with "Jane" and "Doe" gives the creator name "Jane Doe" |
| CreateScenarios.MissingProfileCreatesAnonymousQuiz | src/components/Create.jsx:63-89 | a signed-in user without a profile still creates the quiz, credited to "Anonymous", and is sent to "/quiz/" + id |
| CreateScenarios.SignedOutNeverWrites | src/components/Create.jsx:47-55 | with nobody signed in nothing is read, written or navigated, whatever the other inputs |
| CreateScenarios.CapitalsEndToEnd | src/components/Create.jsx:45-93 | the "Capitals"/"Geography"/"Public" submission by a user whose profile is {A, B} reads the profile and writes the record with creatorName "A B" and zero counters. It then navigates to "/quiz/" + id |
| CreateScenarios.BadTitleIsBlocked | src/components/Create.jsx:117-128 | a title shorter than 4 or longer than 20 characters blocks the submit before any remote call |
| CreateScenarios.NoCoursesBlocksEverySubmit | src/components/Create.jsx:19-43 | whenever the config read leaves the course list empty (a failed read, no document, no `courses` field, or an empty `courses` list), no submission passes the form's course constraint |

## Left out

- `src/components/Profile.jsx` is not part of this model. It only renders a page: a hardcoded username, a status that never changes, a dropdown toggle and an empty logout handler.
- The Firestore calls (`doc`, `getDoc`, `addDoc`, `collection`), `getAuth`/`useAuthState` and `useNavigate` belong to external libraries. Only their results are modelled, as inputs.
- `new Date().toISOString()` reads the clock and formats the result. The timestamp is an opaque string input.
- React's hook machinery is left out: when `useState` updates apply, when `useEffect` runs, and re-rendering. The state the hooks hold is modelled as the `Form` and `courseOptions` inputs, and the effect's body as `CourseOptions.LoadCourses`. `Submit` accepts any option list, so a submit before the config read resolves is covered: it sees `[]`.
- JSX rendering, styling and the TopBar/Footer/YourQuizzes components are left out, because they are presentation.
- `e.preventDefault()` (Create.jsx:46) is not a separate step of the model. It always runs first and cancels the browser's native form submission, which would otherwise reload the page. The model takes that cancellation as given, so `Navigate` is the only navigation a run performs.
- Console logging is left out, because it has no effect on the outcome.
- Double submission and interleaving between the awaits are left out. That is concurrency, and the code has no guard for it.
- Field values are assumed to be strings. `data.courses` and the profile name fields could hold other JavaScript values, but the model takes them to be strings, string lists or absent.
- An exception thrown by `navigate` itself is not modelled.
- QuizCreation.ValidForm: lengths are counted in code points, not UTF-16 code units. The model also leaves out when the browser fires `minLength`.
- QuizCreation.ValidForm: the course must be non-empty. HTML's required-select rule would also accept a course named "" that appears after the placeholder, so the model is stricter than the browser in that one case.
