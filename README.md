# SAHAYAK classroom logic in Dafny

SAHAYAK is a web application for teachers. It generates lesson plans, quizzes and
adaptive material with an AI service, stores them in a hosted database, and publishes
quizzes that students take under a code. Nearly all of it is user interface. The logic
that decides what is stored, scored and shown sits inside a few React components, and
this project models that logic:

- `student_quiz.dfy` (module `StudentQuiz`) models the page a student takes a published
  quiz on. It covers the lookup of the quiz, the countdown, question navigation, the
  two answer dictionaries, the submit guard, the response row and the local MCQ score.
  - The component state is the record `RunnerState`, and every event is a pure
    transition (`OnLoad`, `Submit`, `OnTick`, `OnPrev`, …).
  - The class `QuizRunner` performs the same events on mutable fields. Each method is
    specified by its transition.
  - Two behaviours of the code are kept as written:
    - the score compares the chosen option *index* with the text of the stored key;
    - the Submit button hands its click event, which is truthy, to the `auto` parameter.
- `quiz_editor.dfy` (module `QuizEditor`) models the quiz draft record, the teacher's
  copy-on-write updaters and the save payload.
- `lesson_planner.dfy` (module `LessonPlanner`) models four parts of the lesson-planner
  page:
  - the Markdown export: a specification function and the imperative line-pushing
    method, proved equal;
  - the name of the downloaded file;
  - the browser history, capped at 50 entries;
  - the merge of a generated plan with the form that asked for it.
- `plan_viewer.dfy` (module `PlanViewer`) models the viewer of a generated plan: the edit
  switch, the working copy, field and objective edits, and the save button. It is a
  class `Viewer` over the pure edit function `ApplyEdit`.
- `quiz_form.dfy` and `adaptive_form.dfy` model the two request forms: their submit
  guards, their requests and their menus.
- `common.dfy` models several JavaScript behaviours the code relies on:
  - `null`/`undefined` as `Option`;
  - ECMAScript white space and `trim`;
  - `String(n)` for integers of magnitude below 10^21;
  - `Array.prototype.join`.

The database and the AI service are not modelled as such. Each call is reduced to its
outcome, which is a parameter of the transition it ends:
- `LoadOutcome` for the quiz lookup;
- `InsertOutcome` for inserting a response;
- `writeOk` and `StoredHistory` for `localStorage`.

The clock (`Date.now()`) is a parameter too. The rows the student page inserts are kept
in the state field `inserts`, so lemmas can count them.

## Model

| member | source | states |
|---|---|---|
| StudentQuiz.OnLoad | src/pages/StudentQuiz.tsx:28-50 | loading ends; the error is cleared exactly when a row is found; a failed query shows its message or "Failed to load quiz.", a missing row shows "Quiz not found or not published."; a found quiz is stored and the countdown set to `duration*60` only when the duration is a number above zero |
| StudentQuiz.TimedQuizLasts | src/pages/StudentQuiz.tsx:43-45 | a 10-minute quiz starts its countdown at 600 and reaches zero, firing once, after exactly 600 seconds |
| StudentQuiz.View | src/pages/StudentQuiz.tsx:116-133 | the quiz is shown exactly when loading is over, no truthy (non-empty) error exists, a quiz exists and no summary exists; the error screen shows exactly when loading is over and the error is a non-empty string, and it never shows "" |
| StudentQuiz.EmptyLoadErrorShowsNothing | src/pages/StudentQuiz.tsx:47 | a lookup failing with the message "" stores "", which is falsy, so the page renders nothing rather than an error |
| StudentQuiz.Score | src/pages/StudentQuiz.tsx:73-83 | `totalMcq` is the number of MCQs and `correct <= totalMcq` |
| StudentQuiz.CountIsCorrectIndices | src/pages/StudentQuiz.tsx:76-81 | the count is the size of the set of indices whose recorded answer equals the key's text |
| StudentQuiz.UnansweredNeverCounts | src/pages/StudentQuiz.tsx:76-81 | with no answer recorded for any question the score is 0, whatever the keys |
| StudentQuiz.KeyText | src/pages/StudentQuiz.tsx:79 | a text key is itself, a missing key is "", a number key is its decimal text (after a "-" when negative), made of digits exactly when the number is not negative |
| StudentQuiz.TextKeyNeverMatches | src/pages/StudentQuiz.tsx:79-80 | when answers are option indices, a key that is not a decimal numeral never matches |
| StudentQuiz.NumberKeyMatchesOnlyItsIndex | src/pages/StudentQuiz.tsx:79-80 | a numeric key `k` counts exactly when option `k` was chosen |
| StudentQuiz.ComputeMcqScore | src/pages/StudentQuiz.tsx:73-83 | the loop's result is `Score`, the number of matching answers out of the number of MCQs |
| StudentQuiz.McqAnswerList | src/pages/StudentQuiz.tsx:100 | one entry per MCQ, the recorded answer or null |
| StudentQuiz.DescAnswerList | src/pages/StudentQuiz.tsx:101 | one entry per descriptive question, the recorded answer or "" |
| StudentQuiz.RollOrNull | src/pages/StudentQuiz.tsx:99 | null exactly when the roll is all white space, otherwise the trimmed roll |
| StudentQuiz.BuildPayload | src/pages/StudentQuiz.tsx:96-103 | the row carries the quiz id, the trimmed name, the roll or null, both answer lists and the time taken |
| StudentQuiz.TimeTaken | src/pages/StudentQuiz.tsx:94 | the whole number of seconds elapsed, rounded down: `1000*r <= now - start < 1000*(r+1)` |
| StudentQuiz.SubmitGuard | src/pages/StudentQuiz.tsx:86-90 | with no quiz or a blank name nothing is inserted and the summary is untouched, for every kind of call; only a falsy argument with a quiz sets "Please enter your name." |
| StudentQuiz.Submit | src/pages/StudentQuiz.tsx:85-114 | a submission never touches the session (quiz, name, answers, timer, index); it adds at most one row and removes none; a row is added only with the summary set to the local score and the error cleared; the summary changes only when a row is added |
| StudentQuiz.ClickWithBlankNameIsSilent | src/pages/StudentQuiz.tsx:232 | the button passes its event, so with a blank name a click changes nothing at all |
| StudentQuiz.SubmitOutcome | src/pages/StudentQuiz.tsx:105-113 | a successful insert adds exactly the payload and sets the summary to the score, which is then shown; a failed insert sets its message or "Failed to submit responses." and leaves the rows and the summary as they were, and the error screen shows exactly unless the message is ""; `submitting` ends false |
| StudentQuiz.TimerStep | src/pages/StudentQuiz.tsx:62-71 | a value above zero drops by one and fires the automatic submission exactly when it reaches zero; null or a value at or below zero schedules nothing |
| StudentQuiz.OnTick | src/pages/StudentQuiz.tsx:62-71 | a second moves the countdown by one `TimerStep`; it adds at most one row; unless the step fires, nothing but the countdown changes |
| StudentQuiz.CountdownFiresOnce | src/pages/StudentQuiz.tsx:62-71 | from `start > 0`, after `n < start` seconds the value is `start - n` with no firing; after `n >= start` seconds it is 0 with exactly one firing |
| StudentQuiz.StoppedTimerStaysStopped | src/pages/StudentQuiz.tsx:63-68 | a null or non-positive countdown never changes and never fires |
| StudentQuiz.TimeoutAfterSubmitInsertsTwice | src/pages/StudentQuiz.tsx:62-71 | the countdown ignores the summary: a successful click in the last second and the final tick insert two rows |
| StudentQuiz.TimeoutWithBlankNameDropsAttempt | src/pages/StudentQuiz.tsx:64-66 | a time-out with a blank name only sets the countdown to 0: nothing is inserted and no message shows |
| StudentQuiz.OnPrev | src/pages/StudentQuiz.tsx:177 | only the index changes, to one less, or 0 at the start |
| StudentQuiz.OnNext | src/pages/StudentQuiz.tsx:178 | only the index changes; it moves up by one and never past the last MCQ |
| StudentQuiz.OnJump | src/pages/StudentQuiz.tsx:208 | only the index changes, to the button's number |
| StudentQuiz.NavigationInRange | src/pages/StudentQuiz.tsx:177-178 | Prev is `max(0, i-1)`, Next is `min(len-1, i+1)`, jump sets the index; all three keep it in `[0, len-1]` and change nothing else |
| StudentQuiz.OnChooseOption | src/pages/StudentQuiz.tsx:196 | only the MCQ answers change, and the question on screen now records `String(oi)` |
| StudentQuiz.OnEditDescriptive | src/pages/StudentQuiz.tsx:222 | only the descriptive answers change, and question `qi` now records the text |
| StudentQuiz.ChooseOptionOnlyThatQuestion | src/pages/StudentQuiz.tsx:193-196 | after choosing option `oi`, the question records `String(oi)` and exactly radio `oi` of it is checked; other answers and the descriptive answers are unchanged; answers stay option indices |
| StudentQuiz.EditDescriptiveOnlyThatQuestion | src/pages/StudentQuiz.tsx:222 | a text edit sets only that question's descriptive answer |
| StudentQuiz.QuizRunner.constructor | src/pages/StudentQuiz.tsx:13-24 | the initial state: loading, no quiz, no error, no countdown, index 0, no summary |
| StudentQuiz.QuizRunner.Load | src/pages/StudentQuiz.tsx:28-50 | the new state is `OnLoad` of the old one |
| StudentQuiz.QuizRunner.HandleSubmit | src/pages/StudentQuiz.tsx:85-114 | the new state is `Submit` of the old one, with the score computed by the loop |
| StudentQuiz.QuizRunner.Settle | src/pages/StudentQuiz.tsx:105-113 | after the insert: on success the row is recorded, the error cleared and the summary set; on failure the error is set; `submitting` ends false |
| StudentQuiz.QuizRunner.ClickSubmit | src/pages/StudentQuiz.tsx:232 | a click is `handleSubmit` called with the event |
| StudentQuiz.QuizRunner.Tick | src/pages/StudentQuiz.tsx:62-71 | the new state is `OnTick` of the old one |
| StudentQuiz.QuizRunner.Prev | src/pages/StudentQuiz.tsx:177 | the new state is `OnPrev` of the old one, and the index stays in range |
| StudentQuiz.QuizRunner.Next | src/pages/StudentQuiz.tsx:178 | the new state is `OnNext` of the old one, and the index stays in range |
| StudentQuiz.QuizRunner.Jump | src/pages/StudentQuiz.tsx:208 | the index becomes the button's number |
| StudentQuiz.QuizRunner.ChooseOption | src/pages/StudentQuiz.tsx:194-196 | the new state is `OnChooseOption` of the old one |
| StudentQuiz.QuizRunner.EditDescriptive | src/pages/StudentQuiz.tsx:222 | the new state is `OnEditDescriptive` of the old one |
| StudentQuiz.QuizRunner.SetName | src/pages/StudentQuiz.tsx:161 | only the name changes |
| StudentQuiz.QuizRunner.SetRoll | src/pages/StudentQuiz.tsx:165 | only the roll changes |
| StudentQuiz.SubmitInLastSecond | src/pages/StudentQuiz.tsx:62-71 | on the class: a click in the last second followed by the final tick leaves two more rows, a zero countdown and a summary |
| QuizEditor.InitEditor | src/components/quiz/QuizEditor.tsx:41-42 | the draft is the quiz; the switch is on exactly when `is_published` is true |
| QuizEditor.PatchMCQ | src/components/quiz/QuizEditor.tsx:51 | each field of the result is the patch's when the patch sets it, otherwise the question's |
| QuizEditor.PatchDescriptive | src/components/quiz/QuizEditor.tsx:69 | each field of the result is the patch's when the patch sets it, otherwise the question's |
| QuizEditor.UpdateTitle | src/components/quiz/QuizEditor.tsx:44-46 | only the title changes |
| QuizEditor.UpdateMCQ | src/components/quiz/QuizEditor.tsx:48-54 | MCQ `i` becomes the patched question; all other MCQs, the count, the descriptive questions, the title and the metadata are unchanged |
| QuizEditor.UpdateMCQOption | src/components/quiz/QuizEditor.tsx:56-64 | only option `o` of question `q` changes; that question's text, key, points and other options and every other question are unchanged |
| QuizEditor.UpdateDesc | src/components/quiz/QuizEditor.tsx:66-72 | descriptive question `i` becomes the patched question and no other question changes |
| QuizEditor.SavePayload | src/components/quiz/QuizEditor.tsx:161 | the draft with only `is_published` replaced by the switch |
| QuizEditor.SaveUntouched | src/components/quiz/QuizEditor.tsx:41-42 | saving without edits returns the quiz with the flag made explicit, unchanged when it had one |
| QuizEditor.OptionEditIsOptionsPatch | src/components/quiz/QuizEditor.tsx:56-64 | an option edit equals an `updateMCQ` patch of that question's option list |
| QuizEditor.McqEditsCommute | src/components/quiz/QuizEditor.tsx:48-54 | edits of two different MCQs commute |
| QuizEditor.SumMcqPointsUpdate | src/components/quiz/QuizEditor.tsx:127 | replacing one MCQ changes the sum of points by the difference of the two values |
| QuizEditor.PointsEditLeavesTotalStale | src/components/quiz/QuizEditor.tsx:127 | a points edit keeps `total_points`, so a total that matched the questions stops matching |
| LessonPlanner.Bullets | src/pages/LessonPlanner.tsx:30 | one `- item` line per item, in order |
| LessonPlanner.PushBullets | src/pages/LessonPlanner.tsx:30 | the loop appends `Bullets(items)` |
| LessonPlanner.PushActivities | src/pages/LessonPlanner.tsx:45-50 | the loop appends the lines of every activity in order, numbered from 1 |
| LessonPlanner.PushList | src/pages/LessonPlanner.tsx:28-37 | appends the list section: nothing for an empty list |
| LessonPlanner.PushText | src/pages/LessonPlanner.tsx:38-42 | appends the text section: nothing for a falsy text |
| LessonPlanner.PushHeader | src/pages/LessonPlanner.tsx:22-27 | appends the header lines |
| LessonPlanner.PushActivitiesSection | src/pages/LessonPlanner.tsx:43-51 | appends the activities section: nothing without activities |
| LessonPlanner.MarkdownLines | src/pages/LessonPlanner.tsx:21-71 | the lines of the export: at least the four header lines, with a blank line last |
| LessonPlanner.Markdown | src/pages/LessonPlanner.tsx:72 | the joined text ends with a newline |
| LessonPlanner.PlanToMarkdown | src/pages/LessonPlanner.tsx:20-73 | the pushes and the join produce `Markdown(plan)` |
| LessonPlanner.MarkdownStarts | src/pages/LessonPlanner.tsx:22-24 | the export starts with "# " and the heading, a blank line, the subject line and the grade line; the heading is the title when it is not null, else "subject - topic" |
| LessonPlanner.TopicLine | src/pages/LessonPlanner.tsx:25 | the header has a Topic line exactly when the topic is truthy, and it carries the topic |
| LessonPlanner.DurationLine | src/pages/LessonPlanner.tsx:26 | the header has a Duration line exactly when the duration is truthy |
| LessonPlanner.TimeLine | src/pages/LessonPlanner.tsx:47 | an activity has a Time line exactly when its time is truthy |
| LessonPlanner.HeaderHasNoSection | src/pages/LessonPlanner.tsx:22-27 | no header line is a `## ` heading |
| LessonPlanner.ListSectionLines | src/pages/LessonPlanner.tsx:28-37 | a non-empty list section is its heading, one `- item` line per item in order, and a blank line |
| LessonPlanner.ListSectionHeadings | src/pages/LessonPlanner.tsx:28-37 | a list section contributes its `## ` heading exactly when the list is non-empty |
| LessonPlanner.TextSectionHeadings | src/pages/LessonPlanner.tsx:38-42 | a text section contributes its `## ` heading exactly when the text is truthy |
| LessonPlanner.ActivitiesSectionHeadings | src/pages/LessonPlanner.tsx:43-51 | the activities contribute the "## Main Activities" heading exactly when there are activities |
| LessonPlanner.ActivityNumbering | src/pages/LessonPlanner.tsx:45-46 | the `### ` lines are `### Activity k: name` for k from 1 in list order, with "Activity" for a missing name |
| LessonPlanner.SectionOrder | src/pages/LessonPlanner.tsx:28-71 | the `## ` lines are Objectives, Materials Needed, Introduction, Main Activities, Assessment, Differentiation, Closure, Homework, in that order, each exactly when present |
| LessonPlanner.FalsyNumbersPrintAlike | src/pages/LessonPlanner.tsx:26 | a zero duration prints like a missing one, and a zero time prints like a missing one |
| LessonPlanner.CollapseWhitespace | src/pages/LessonPlanner.tsx:76 | the result contains no white space and is no longer than the input |
| LessonPlanner.CollapseKeepsPlainText | src/pages/LessonPlanner.tsx:76 | a text without white space is left as it is |
| LessonPlanner.CollapseIdempotent | src/pages/LessonPlanner.tsx:76 | replacing twice is the same as replacing once |
| LessonPlanner.CollapseRun | src/pages/LessonPlanner.tsx:76 | a whole run of white space between two words becomes exactly one "-" |
| LessonPlanner.FileName | src/pages/LessonPlanner.tsx:76 | the name has no white space, ends in ".md", and is the collapsed `title ?? subject-topic` |
| LessonPlanner.UntitledFileName | src/pages/LessonPlanner.tsx:76 | an untitled plan whose subject and topic have no white space is saved as "subject-topic.md" |
| LessonPlanner.Prepend | src/pages/LessonPlanner.tsx:93 | the new entry first, then the old entries in order, and `min(50, old+1)` entries in all |
| LessonPlanner.StoreLocal | src/pages/LessonPlanner.tsx:89-97 | the list is written exactly when the stored text is readable and the write succeeds; a missing history gives just the entry |
| LessonPlanner.HistoryBounded | src/pages/LessonPlanner.tsx:93 | the history never exceeds 50; below the cap nothing is dropped; each store moves an entry down one place; a full history loses its oldest entry |
| LessonPlanner.StoreTwice | src/pages/LessonPlanner.tsx:93 | two stores put the later entry first and the earlier one second |
| LessonPlanner.FullPlan | src/pages/LessonPlanner.tsx:135 | the form's subject, grade, topic and duration override the generated ones; every other generated field is kept |
| LessonPlanner.FormWins | src/pages/LessonPlanner.tsx:135 | whatever the generator echoes for the form's fields does not change the merged plan |
| LessonPlanner.UntitledPlanUsesForm | src/pages/LessonPlanner.tsx:135 | an untitled generated plan is headed and named after the form's subject and topic |
| PlanViewer.ApplyEdit | src/components/lesson-planner/GeneratedPlanViewer.tsx:36 | each edit replaces only its own field (one objective for an objective edit); the materials, activities, subject, grade, topic, duration, homework and the objective count are unchanged |
| PlanViewer.EditsKeepUntouched | src/components/lesson-planner/GeneratedPlanViewer.tsx:83-87 | after any sequence of edits, the fields no input edits and the number of objectives are as generated |
| PlanViewer.InRangeEditsFit | src/components/lesson-planner/GeneratedPlanViewer.tsx:79-87 | objective edits with in-range indices can be applied in any order |
| PlanViewer.LastEditWins | src/components/lesson-planner/GeneratedPlanViewer.tsx:36-197 | editing the same field twice (title, the same objective, introduction, assessment, differentiation or closure) keeps the second value |
| PlanViewer.Viewer.constructor | src/components/lesson-planner/GeneratedPlanViewer.tsx:16-17 | the switch starts off and the working copy is the plan |
| PlanViewer.Viewer.ToggleEdit | src/components/lesson-planner/GeneratedPlanViewer.tsx:59 | the switch flips and nothing else changes |
| PlanViewer.Viewer.HandleSave | src/components/lesson-planner/GeneratedPlanViewer.tsx:19-25 | in edit mode it only leaves edit mode; otherwise it hands the unchanged working copy to `onSave` |
| PlanViewer.Viewer.Edit | src/components/lesson-planner/GeneratedPlanViewer.tsx:83-87 | the working copy becomes `ApplyEdit` of it, and the switch and the saved plans are unchanged |
| PlanViewer.EditAndSave | src/components/lesson-planner/GeneratedPlanViewer.tsx:19-25 | toggling, editing and two save clicks hand exactly the edited plan to `onSave` once |
| QuizForm.HandleSubmit | src/components/quiz/QuizForm.tsx:27-38 | a request exists exactly when title, subject and grade are non-empty and nothing is being generated; it carries the fields, the grade as `grade_level`, and the lesson plan or null |
| QuizForm.GradeChoices | src/components/quiz/QuizForm.tsx:78 | twelve entries, entry `i` being `String(i+1)` |
| QuizForm.GradeChoicesAre | src/components/quiz/QuizForm.tsx:78 | the grade menu is exactly "1" to "12" |
| QuizForm.GradesDistinct | src/components/quiz/QuizForm.tsx:78 | no two grade entries are equal |
| QuizForm.MenuChoicesSubmit | src/components/quiz/QuizForm.tsx:64-78 | any subject and grade from the menus, with a title typed, give a request unless generation is in progress |
| QuizForm.BlankTitleAccepted | src/components/quiz/QuizForm.tsx:27 | a title of spaces passes the guard |
| AdaptiveForm.ParseContentType | src/integrations/supabase/types.ts:291 | a string maps to a content type only when it is that type's name |
| AdaptiveForm.ParseDifficulty | src/integrations/supabase/types.ts:292 | a string maps to a difficulty only when it is that difficulty's name |
| AdaptiveForm.ContentTypeMenuIsEnum | src/components/adaptive/AdaptiveForm.tsx:53-57 | the content-type menu offers exactly the values of the `content_type` enum |
| AdaptiveForm.DifficultyMenuIsEnum | src/components/adaptive/AdaptiveForm.tsx:68-70 | the difficulty menu offers exactly the values of the `difficulty_level` enum |
| AdaptiveForm.HandleSubmit | src/components/adaptive/AdaptiveForm.tsx:21-31 | a request exists exactly when title, content type and difficulty are non-empty and nothing is being generated; it carries exactly those fields and the lesson plan or null |
| AdaptiveForm.MenuRequestIsValid | src/components/adaptive/AdaptiveForm.tsx:53-70 | a request built from menu choices names enum values the database accepts |
| Common.TrimStart | src/pages/StudentQuiz.tsx:87 | the start of trimming: a suffix of `s`, after a prefix that is all white space, starting with no white space |
| Common.TrimEnd | src/pages/StudentQuiz.tsx:87 | the end of trimming: a prefix of `s`, before a suffix that is all white space, ending with no white space |
| Common.Trim | src/pages/StudentQuiz.tsx:87 | `s.trim()` is no longer than `s` and has no white space at either of its ends |
| Common.TrimSlices | src/pages/StudentQuiz.tsx:87 | what `s.trim()` keeps is the slice of `s` between an all-white-space prefix and an all-white-space suffix |
| Common.TrimEmptyIff | src/pages/StudentQuiz.tsx:87 | `s.trim()` is empty exactly when `s` is all white space |
| Common.IntToString | src/pages/LessonPlanner.tsx:26 | `String(i)` is the decimal text of `i`, after a "-" when it is negative; it is made of digits exactly when `i` is not negative |
| Common.Join | src/pages/LessonPlanner.tsx:72 | `join` of no lines is ""; otherwise the text starts with the first line |
| Common.JoinEnds | src/pages/LessonPlanner.tsx:72 | the joined text ends with the last line, with at least one separator after the first line when there are two or more |
| Common.JoinAppend | src/pages/LessonPlanner.tsx:72 | joining two non-empty lists puts exactly one separator between the two joins |
| Common.NatToStringInjective | src/pages/StudentQuiz.tsx:194 | different option indices have different `String(i)` values |

## Left out

- Common.IntToString, StudentQuiz.KeyText: numbers are unbounded integers, so the
  exponent form `String` gives for a magnitude of 10^21 or more ("1e+21") and the loss
  of precision above 2^53 are not modelled. For a key of 10^21 or more,
  `NumberKeyMatchesOnlyItsIndex` therefore gives a match the page would not make.
  Answer keys, option indices and durations never come near those values.
- The hosted database, the AI service and authentication are not modelled. Each call
  is the outcome it returns, a parameter of the transition it ends. The edge functions
  under `supabase/functions` are not part of this model.
- Async interleaving is not modelled. In the model, `handleSubmit` runs from its guard to
  its `finally` without interruption, so the window in which `submitting` is true and
  the button is disabled does not exist. For the same reason the `active` flag of
  `load()`, which guards against an unmounted page, is not modelled.
- StudentQuiz.QuizRunner.Load: models only the first lookup, made before any quiz is
  loaded. A later change of the route's code, which reruns the lookup, is not modelled.
- StudentQuiz.OnLoad: `duration` is an integer, so fractional durations cannot be
  represented. In the code a duration such as 1.5 starts a countdown at `duration*60`
  (90 seconds). A duration that is not a number is `None`, which gives no countdown, as
  in the code. MCQ points and activity times are integers for the same reason.
- Floating point is not modelled: `Number(e.target.value)` for points, and `NaN`.
- `crypto.randomUUID()` and `new Date().toISOString()` in the local history are inputs
  (`LocalEntry.id`, `createdAt`).
- JSON parsing of the stored history is reduced to `Missing`, `Unreadable` or `Entries`.
  A stored JSON object, number, boolean or `null` makes `[toStore, ...existing]` throw.
  The `catch` swallows that and nothing is written, which is exactly `Unreadable`.
  A stored JSON string is not modelled: the code spreads it into the list one character
  per entry.
- The storage quota appears only as `writeOk`.
- The download itself is not modelled (the `Blob`, the object URL, the link click).
  Only its file name and content are.
- How the lesson-planner page sequences its calls is not modelled, beyond the merge,
  the export, the file name and the history. In the code the download and the history
  entry happen only after the insert succeeds.
- The lesson plan list fetch (`refreshMyPlans`) is not modelled.
- The lesson form, the quiz generator page, the leaderboard, the chat assistant, the
  material viewers and the routing are not modelled: they only render or call services.
- The editor's publish switch setter is a plain state update, covered only through
  `SavePayload`.
- Rendering is modelled only as `View`: which screen shows. The timer's `mm:ss` text is
  not modelled.
- The model takes `subject`, `grade_level` and `topic` to be present strings, as the
  database types and the lesson form provide them. The code puts them into template
  literals without a guard, so a missing one would print "undefined" or "null".
- The optional text fields are strings, where "" stands for missing or `null`. That is
  exact, because each of them is printed only behind a truthiness test, and the
  activity name behind `?? "Activity"`.
- `objectives`, `materials_needed` or `main_activities` values that are not arrays are
  treated as empty lists, as the code's `Array.isArray` checks do.
- LessonPlanner.MarkdownStarts: a `title` that is present but not a string is not
  modelled.
- QuizEditor.UpdateMCQ, QuizEditor.UpdateMCQOption and QuizEditor.UpdateDesc require the
  index of a question the editor renders, because those are the only indices it calls
  them with. An out-of-range index, which would lengthen a JavaScript array, is not
  modelled.
- LessonPlanner.SectionOrder, LessonPlanner.ActivityNumbering and LessonPlanner.TimeLine
  are stated for plans whose free-text fields do not themselves start with a Markdown
  heading marker (or "Time: "). Such text would add lines that look like headings.
- LessonPlanner.SectionOrder and the other lemmas about `LinesWith` are stated over the
  list of pushed lines, not over the joined text. A text value that contains a newline
  followed by "## " adds a heading line to the exported file that these lemmas do not
  see.
