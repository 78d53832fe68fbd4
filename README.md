# Quiz front end: session timing, answer handling and quiz editors

This project models the stateful parts of a React quiz client in Dafny and proves properties about them.

- **Quiz-taking screen** (`src/pages/QuizPage.js`). A student's start time is kept in the browser's key-value storage under `quizStart_<studentId>`. It is read there if present and created otherwise. A one-second interval counts down from a 60-second budget. When the time is used up, the interval stops itself and calls the submit handler of the render that created it. As written, that call throws (see below), so only the manual Submit button actually posts. Answers live in a sparse list that is written one slot at a time. Prev/Next move a bounded question cursor. The submission has one entry per question, with `null` for an unanswered one. The start-time key is removed only after the server accepts the submission.
- **Quiz management screen** (`src/pages/AdminQuizzes.js`). This screen holds a draft quiz whose questions have four options each. It supports edits to a single field or a single option, appending and removing questions, creating a quiz, and deleting one by id after confirmation.
- **Stand-alone quiz form** (`src/App.js`). Each question here has six flat fields. On submit, `option1..option4` become a four-element `options` list. When a post fails, the screen shows the server's message, or a fixed fallback when there is none. A successful post shows no message: it appends the quiz and resets the form.
- **Result screen** (`src/pages/Result.js`). This is a pure projection of a stored score into numbered answer lines. Each line looks up its question by id and takes the first match. An empty answer is shown as "Not answered". The status colour is green for a passed score and red otherwise.

Modules:
- `Options`: the Option datatype.
- `Text`: decimal rendering, as `${n}` renders it, and its parse-back.
- `JsArray`: the semantics of `find`, of `filter((_, i) => i !== index)` and of `splice(index, 1)`.
- `QuizData`: the server's quiz and question records.
- One module per screen: `QuizPage`, `AdminQuizzes`, `App` and `ResultView`.

Screens whose handlers update state become classes: `QuizPage.QuizSession`, `AdminQuizzes.QuizManager` and `App.QuizForm`. Each method states the whole new state. The properties are proved about the pure functions those methods use.

How the outside world is represented:
- Server responses are parameters. A success carries a value (`Option`, `PostResponse`, `ListResponse`).
- The confirmation dialog is a boolean.
- The clock is an explicit `now` argument, in milliseconds.
- Browser storage is a `map<string, int>` field.

Where the code and the design description of the system differ, the model follows the code:
- The budget is 60 seconds. A comment next to it speaks of 20 minutes.
- The displayed time never reaches 0. A tick with no time left stops the interval and keeps the last positive value (`TickStep`, `TicksKeepTimeLeftPositive`).
- After a reload the display shows the full budget until the first tick. The remaining time is computed from the stored start only at that tick.
- Nothing counts tab switches, clipboard use or fullscreen loss. There is no grace period and no lock state.
- The timed auto-submit does not post. The interval is created by the effect of the first render (`src/pages/QuizPage.js:48-73`). That render still has `loading` set, so it returns at line 75 before `handleSubmit` is initialised at line 102. The call at line 66 therefore throws a ReferenceError right after the interval is cleared. Nothing is posted, the `quizStart_` key stays in storage, and the display keeps its last positive value. The manual Submit button (line 166) calls the handler of the current render and does post. No guard makes finalization happen exactly once.

## Model

| member | source | states |
|---|---|---|
| Text.DecimalString | src/pages/QuizPage.js:133 | `${n}` of a non-negative integer: a non-empty run of digits, with a leading zero only for 0, and one digit exactly below 10 |
| Text.DecimalRoundTrip | src/pages/QuizPage.js:133 | reading the rendered digits back gives the number |
| Text.DecimalStringInjective | src/pages/Result.js:57 | different numbers render differently, so line numbers are distinct |
| JsArray.FirstIndex | src/pages/QuizPage.js:33-35 | `find` picks the first element that satisfies the predicate; it is absent exactly when none does |
| JsArray.FilterOutIndexIsRemoval | src/pages/AdminQuizzes.js:63-66 | the position filter removes exactly the element at `index` and keeps the rest in order; an out-of-range index changes nothing |
| JsArray.SpliceStart | src/App.js:29 | `splice` counts a negative index from the end and clamps the start to the list |
| JsArray.SpliceOneInRange | src/App.js:27-31 | with a valid index, the splice shortens the list by one and removes exactly that element, keeping the order of the rest |
| JsArray.SpliceMatchesFilter | src/App.js:29 | for a non-negative index the two screens' removals agree |
| JsArray.SpliceNegativeCountsFromEnd | src/App.js:29 | for a negative index the splice removes an element counted from the end, while the filter removes nothing |
| QuizPage.AnchorKeyInjective | src/pages/QuizPage.js:51 | two students never share a `quizStart_` key |
| QuizPage.GetOrCreate | src/pages/QuizPage.js:51-58 | a present start is used unchanged and nothing is written; otherwise `now` is stored and used; other keys are untouched |
| QuizPage.GetOrCreateIdempotent | src/pages/QuizPage.js:51-58 | a second get-or-create with any other clock value returns the same start and writes nothing |
| QuizPage.ElapsedSeconds | src/pages/QuizPage.js:61 | the elapsed whole seconds are the floor of the elapsed milliseconds divided by 1000 |
| QuizPage.RemainingAfter | src/pages/QuizPage.js:61-62 | `k` seconds plus under one second after the start, `60 - k` remain (10 s after a reload: 50; at 60 s: 0) |
| QuizPage.RemainingNonIncreasing | src/pages/QuizPage.js:61-62 | for a fixed start, the remaining time never increases as `now` grows |
| QuizPage.TickStep | src/pages/QuizPage.js:60-70 | a tick submits exactly when the interval runs and no time remains; it then stops the interval and keeps the shown time; otherwise the shown time becomes the remaining time; it never writes a value <= 0 |
| QuizPage.StoppedTimerNeverSubmits | src/pages/QuizPage.js:64-66 | once the interval is cleared, later ticks change nothing and submit nothing |
| QuizPage.AutoSubmitAtMostOnce | src/pages/QuizPage.js:60-70 | over any sequence of ticks, one interval auto-submits at most once, and exactly when it is running and some tick comes at or after the budget's end |
| QuizPage.TicksKeepTimeLeftPositive | src/pages/QuizPage.js:67-69 | the shown time stays positive over any sequence of ticks |
| QuizPage.NextIndex | src/pages/QuizPage.js:90-94 | Next increments exactly when `currentQIndex < len - 1`, and otherwise stays; it keeps the cursor in range |
| QuizPage.PrevIndex | src/pages/QuizPage.js:96-100 | Prev decrements exactly when `currentQIndex > 0`, and otherwise stays; it keeps the cursor in range |
| QuizPage.NextTimesClamps | src/pages/QuizPage.js:90-94 | `k` presses of Next from question `i` reach question `min(i + k, len - 1)` |
| QuizPage.WriteSlot | src/pages/QuizPage.js:82-87 | the copied answer list has the new answer at the slot, and every other slot unchanged (holes stay holes) |
| QuizPage.SubmittedValue | src/pages/QuizPage.js:109 | the submitted selection is null exactly when the slot is missing or its selection is empty; otherwise it is the stored selection |
| QuizPage.BuildSubmission | src/pages/QuizPage.js:104-111 | one entry per quiz question, in question order, carrying that question's id and the stored selection or null, together with the student and quiz ids |
| QuizPage.AnswerReachesSubmission | src/pages/QuizPage.js:80-110 | answering question `i` changes only entry `i` of the submission, which then carries the selection |
| QuizPage.UnansweredIsNull | src/pages/QuizPage.js:107-110 | with three questions and the second unanswered, three entries are sent and the second is null |
| QuizPage.SelectQuiz | src/pages/QuizPage.js:32-36 | the chosen quiz is the first one whose title is the student's quiz title; none exactly when no title matches |
| QuizPage.TwoDigits | src/pages/QuizPage.js:133 | seconds are always shown as two digits that read back as the seconds |
| QuizPage.FormatTime | src/pages/QuizPage.js:123-133 | the display has the shape `digits:dd` |
| QuizPage.FormatTimeRoundTrip | src/pages/QuizPage.js:123-133 | minutes times 60 plus seconds equals `timeLeft`, and the seconds shown are below 60 |
| QuizPage.QuizSession.constructor | src/pages/QuizPage.js:21-26 | first render: 60 s shown, first question, no answers, no interval |
| QuizPage.QuizSession.Clock | src/pages/QuizPage.js:122-134 | the `Time Left` text reads back as the current `timeLeft` |
| QuizPage.QuizSession.StartTimer | src/pages/QuizPage.js:48-58 | the start and the store become the get-or-create result, and the interval runs |
| QuizPage.QuizSession.Tick | src/pages/QuizPage.js:60-70 | the new interval state and the auto-submit signal are one tick step of the old state; the invariant `timeLeft > 0` is kept |
| QuizPage.QuizSession.HandleAnswerChange | src/pages/QuizPage.js:80-88 | only slot `currentQIndex` changes, and it now records the current question's id and the selection |
| QuizPage.QuizSession.HandleNext | src/pages/QuizPage.js:90-94 | the cursor moves by `NextIndex` and stays in range |
| QuizPage.QuizSession.HandlePrev | src/pages/QuizPage.js:96-100 | the cursor moves by `PrevIndex` and stays in range |
| QuizPage.QuizSession.HandleSubmit | src/pages/QuizPage.js:102-120 | posts `BuildSubmission`. On success: the anchor key is removed, the page navigates to the result, and unmounting stops the interval. On failure: nothing changes |
| AdminQuizzes.WithoutId | src/pages/AdminQuizzes.js:86 | deleting by id keeps exactly the quizzes with another id, never more |
| AdminQuizzes.WithoutIdDistributes | src/pages/AdminQuizzes.js:86 | the delete filter distributes over concatenation, so kept quizzes keep their order |
| AdminQuizzes.WithoutAbsentId | src/pages/AdminQuizzes.js:86 | deleting an id that no quiz carries leaves the list unchanged |
| AdminQuizzes.AddThenRemoveRestores | src/pages/AdminQuizzes.js:55-66 | appending a blank question and removing the last question restores the list |
| AdminQuizzes.QuizManager.constructor | src/pages/AdminQuizzes.js:7-26 | the list is the fetched one, or empty when the fetch fails; the draft is blank with one blank question |
| AdminQuizzes.QuizManager.HandleQuizTitleChange | src/pages/AdminQuizzes.js:29-31 | only the title changes; the questions are untouched |
| AdminQuizzes.QuizManager.HandleQuestionChange | src/pages/AdminQuizzes.js:34-38 | only the text of question `index` changes; other questions and fields are unchanged |
| AdminQuizzes.QuizManager.HandleOptionChange | src/pages/AdminQuizzes.js:41-45 | only option `oIndex` of question `qIndex` changes, and every question keeps four options |
| AdminQuizzes.QuizManager.HandleCorrectAnswerChange | src/pages/AdminQuizzes.js:48-52 | only the correct answer of question `qIndex` changes |
| AdminQuizzes.QuizManager.AddQuestion | src/pages/AdminQuizzes.js:55-60 | appends one blank question (empty text, four empty options, empty answer); earlier questions are unchanged |
| AdminQuizzes.QuizManager.RemoveQuestion | src/pages/AdminQuizzes.js:63-66 | drops exactly the question at `index`, keeping the order of the rest; an out-of-range index changes nothing |
| AdminQuizzes.QuizManager.HandleCreateQuiz | src/pages/AdminQuizzes.js:69-79 | posts the draft. On success the created quiz is appended and the draft resets to one blank question. On failure the list and the draft are unchanged |
| AdminQuizzes.QuizManager.HandleDeleteQuiz | src/pages/AdminQuizzes.js:82-91 | a declined confirmation or a failed delete changes nothing; a successful delete removes every quiz with that id |
| App.Set | src/App.js:34-38 | `q[field] = value` sets that field and leaves the other five fields unchanged |
| App.ToPosted | src/App.js:50 | every posted question has four options |
| App.ToPayload | src/App.js:46-53 | the payload title is `quizTitle`; each question maps, in order, to its text, `[option1, option2, option3, option4]` and correct answer; the count is preserved |
| App.PayloadRoundTrip | src/App.js:46-53 | each form question can be read back unchanged from its posted form |
| App.ErrorText | src/App.js:62 | the server's message when present and non-empty, otherwise the fixed fallback; never empty |
| App.InitialQuizzes | src/App.js:13-19 | the initial list is `res.data.quizzes`, or empty when that field is absent or the fetch fails |
| App.QuizForm.constructor | src/App.js:5-19 | empty title, one blank question, no error, and the initial list |
| App.QuizForm.HandleTitleInput | src/App.js:87 | the title becomes the input's value |
| App.QuizForm.AddQuestion | src/App.js:22-24 | appends a question with all six fields empty; earlier entries are unchanged |
| App.QuizForm.RemoveQuestion | src/App.js:27-31 | the list becomes the splice result: with a valid index, exactly that element removed |
| App.QuizForm.HandleQuestionChange | src/App.js:34-38 | only `field` of question `index` changes |
| App.QuizForm.HandleSubmit | src/App.js:41-64 | clears the error and posts the converted quiz. On success the quiz is appended, the title cleared and the questions reset to one blank entry. On failure the error text is set and the rest is unchanged |
| ResultView.StatusColour | src/pages/Result.js:47 | green if and only if the status is "passed" |
| ResultView.LookupQuestion | src/pages/Result.js:57 | the first question with the answer's id; absent exactly when no question has it |
| ResultView.ShownAnswer | src/pages/Result.js:60 | a missing or empty selection shows "Not answered"; any other is shown verbatim |
| ResultView.AnswerLines | src/pages/Result.js:54-61 | one line per stored answer, in the same order |
| ResultView.View | src/pages/Result.js:27-28 | the loading text while loading; "No result found." when there is no score afterwards; otherwise the colour and the lines |
| ResultView.AfterFetch | src/pages/Result.js:11-28 | after the fetch the screen never shows loading, and it shows "No result found." exactly when the fetch produced no score |
| ResultView.LineNumbering | src/pages/Result.js:57 | line `i` starts with `i + 1` and ". ", and the number reads back |
| ResultView.LineShowsMatchedQuestion | src/pages/Result.js:57-61 | the first question with a matching id supplies the heading text and the correct answer; the correct answer is absent exactly when no question matches |

## Left out

- HTTP calls (`API.get`/`API.post`/`API.delete`, `axios`). Each response is a parameter: a success with its value, or a failure.
- React rendering, the MUI components and router navigation. They are UI only. Navigation appears only as the target path that a successful submit returns.
- `alert` and `console`. They have no effect on state. `window.confirm` is a boolean parameter.
- Real `setInterval`/`clearInterval` scheduling and `Date.now()`. The interval is a running flag, and each tick takes the clock value as an argument. There is no wall-clock concurrency.
- Which render's submit handler the interval closure captured. `autoSubmit`, the boolean that `Tick` returns, stands for the call at `src/pages/QuizPage.js:66`. In the code as written that call throws, because the captured handler was never initialised. The model does not follow the exception. A caller that wants the code's behaviour leaves the state as `Tick` left it: interval stopped, key kept, nothing posted.
- Exactly-once submission. The code has no guard for it. Only because the timed call throws does the manual submit end up the sole path that posts.
- `parseInt` of the stored text. Stored start times are integers in the model.
- `percentage.toFixed(2)` and `status.toUpperCase()` on the result screen. They involve floating point and locale-dependent case mapping.
- The student name, quiz title and score header lines of the result screen. They are printed as fetched.
- The quiz screen's "Loading quiz..." and "No quiz found" states. Without a student the fetch never starts and the screen keeps loading. A session is modelled only once a quiz is selected.
- The crash on a quiz with no questions. `question` is then undefined, so the screen never renders and no handler can run. `HandleAnswerChange` requires a question at the cursor.
- QuizPage.FormatTime: requires a non-negative time. Its only caller passes `timeLeft`, which the session invariant keeps positive, so JavaScript's truncating `%` on negative values is not modelled.
- The browser's `required` validation on the stand-alone form's inputs. It decides only when the submit handler can be called.
- Aliasing in the edits of `AdminQuizzes.QuizManager.HandleQuestionChange`, `AdminQuizzes.QuizManager.HandleOptionChange`, `AdminQuizzes.QuizManager.HandleCorrectAnswerChange` and `App.QuizForm.HandleQuestionChange` (`src/App.js:36`). They assign into question objects shared with the previous state, but that state is discarded at once, so the model uses value updates.
- Overlapping requests. `AdminQuizzes.QuizManager.HandleCreateQuiz`, `AdminQuizzes.QuizManager.HandleDeleteQuiz`, `AdminQuizzes.QuizManager.constructor`, `App.QuizForm.HandleSubmit` and `App.QuizForm.constructor` each run as one atomic step, finishing before the next event. In the code, each response writes `quizzes` from the render in which its request started. Requests in flight at the same time can therefore lose each other's updates, and the model does not capture this. Examples: two deletes at `src/pages/AdminQuizzes.js:86`, a create at line 72 against a delete, and the initial fetch at `src/App.js:16` against a submit at line 57.
- Tab-visibility and clipboard infraction counting, the fullscreen grace period and lock states. The source has no code for them.
- `AdminScores.js`, `AdminStudents.js`, `StartQuiz.js`, `AdminDashboard.js` and `Home.js`. They only fetch and render, or hold a one-field form.
