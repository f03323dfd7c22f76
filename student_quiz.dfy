/** The page a student takes a published quiz on (src/pages/StudentQuiz.tsx).
    The component's state is the record `RunnerState`; each event the page reacts to
    (the lookup finishing, a clock second, a click, a keystroke) is a function from one state
    to the next, and the class `QuizRunner` carries out the same events on mutable fields.
    The database is reduced to the outcome of each call: the lookup's result and whether the
    insert of a response succeeded; the rows inserted are recorded in `inserts`. */
module StudentQuiz {
  import opened Common
  import opened QuizEditor

  /** The row the lookup by quiz code returns (only the fields the page uses). A
      `mcq_questions` or `descriptive_questions` column that is not an array is read as an
      empty list by the page, so it is an empty sequence here. */
  datatype PublishedQuiz = PublishedQuiz(
    id: string, title: string, duration: Option<int>,
    mcqQuestions: seq<MCQ>, descriptiveQuestions: seq<Descriptive>)

  datatype Summary = Summary(totalMcq: nat, correct: nat)

  /** The row inserted into `quiz_responses`. */
  datatype ResponsePayload = ResponsePayload(
    quizId: string, studentName: string, studentRoll: Option<string>,
    mcqAnswers: seq<Option<string>>, descriptiveAnswers: seq<string>, timeTaken: int)

  /** How the lookup by code ended: the client reported an error (with or without a
      message), no published row matched, or the row. */
  datatype LoadOutcome = QueryFailed(message: Option<string>) | NoRow | Row(quiz: PublishedQuiz)

  /** How the insert of a response ended. */
  datatype InsertOutcome = InsertOk | InsertFailed(message: Option<string>)

  /** What `handleSubmit` receives as its `auto` parameter: nothing (the default `false`
      applies), a boolean, or, from the Submit button's `onClick={handleSubmit}`, the click
      event object. */
  datatype SubmitArg = Omitted | Flag(b: bool) | ClickEvent

  /** JavaScript truthiness of the `auto` argument; an event object is truthy. */
  predicate IsAuto(arg: SubmitArg) {
    match arg
    case Omitted => false
    case Flag(b) => b
    case ClickEvent => true
  }

  const LoadFailedMessage := "Failed to load quiz."
  const NotFoundMessage := "Quiz not found or not published."
  const NameRequiredMessage := "Please enter your name."
  const SubmitFailedMessage := "Failed to submit responses."

  datatype RunnerState = RunnerState(
    loading: bool,
    quiz: Option<PublishedQuiz>,
    studentName: string,
    studentRoll: string,
    mcqAnswers: map<nat, string>,
    descAnswers: map<nat, string>,
    submitting: bool,
    error: Option<string>,
    startTs: int,
    timeLeft: Option<int>,
    currentIndex: int,
    submittedSummary: Option<Summary>,
    inserts: seq<ResponsePayload>)

  /** What the page renders. */
  datatype Screen = LoadingScreen | ErrorScreen(message: string) | Nothing | ThanksScreen(s: Summary) | QuizScreen

  function Mcqs(s: RunnerState): seq<MCQ> {
    if s.quiz.Some? then s.quiz.value.mcqQuestions else []
  }

  function Descs(s: RunnerState): seq<Descriptive> {
    if s.quiz.Some? then s.quiz.value.descriptiveQuestions else []
  }

  /** The state on first render; `startTs` is `Date.now()` at that moment, in milliseconds. */
  function Initial(startTs: int): (s: RunnerState)
    ensures s.loading && s.quiz.None? && s.error.None? && s.timeLeft.None?
    ensures s.submittedSummary.None? && s.inserts == [] && s.currentIndex == 0
  {
    RunnerState(true, None, "", "", map[], map[], false, None, startTs, None, 0, None, [])
  }

  /** `if (error)`: an error is shown only when it is a non-empty string. */
  predicate ErrorShown(s: RunnerState) {
    s.error.Some? && s.error.value != ""
  }

  /** The render order: loading first, then a truthy error, then nothing without a quiz,
      then the thank-you screen once a summary exists, else the quiz itself. */
  function View(s: RunnerState): (v: Screen)
    ensures v.QuizScreen? <==> !s.loading && !ErrorShown(s) && s.quiz.Some? && s.submittedSummary.None?
    ensures v.ErrorScreen? <==> !s.loading && ErrorShown(s)
    ensures v.ErrorScreen? ==> v.message != ""
  {
    if s.loading then LoadingScreen
    else if ErrorShown(s) then ErrorScreen(s.error.value)
    else if s.quiz.None? then Nothing
    else if s.submittedSummary.Some? then ThanksScreen(s.submittedSummary.value)
    else QuizScreen
  }

  /** The countdown starts only for a duration that is a number above zero. */
  predicate TimerStarts(duration: Option<int>) {
    duration.Some? && duration.value > 0
  }

  /** The effect of `load()` once the lookup has ended. */
  function OnLoad(s: RunnerState, outcome: LoadOutcome): (r: RunnerState)
    ensures !r.loading
    ensures outcome.Row? <==> r.error.None?
    ensures outcome.QueryFailed? ==> r.error == Some(outcome.message.GetOr(LoadFailedMessage))
    ensures outcome.NoRow? ==> r.error == Some(NotFoundMessage)
    ensures outcome.Row? ==> r.quiz == Some(outcome.quiz)
    ensures !outcome.Row? ==> r.quiz == s.quiz && r.timeLeft == s.timeLeft
    ensures outcome.Row? && TimerStarts(outcome.quiz.duration) ==>
      r.timeLeft == Some(outcome.quiz.duration.value * 60)
    ensures outcome.Row? && !TimerStarts(outcome.quiz.duration) ==> r.timeLeft == s.timeLeft
    ensures r.inserts == s.inserts && r.submittedSummary == s.submittedSummary
  {
    match outcome
    case QueryFailed(m) => s.(error := Some(m.GetOr(LoadFailedMessage)), loading := false)
    case NoRow => s.(error := Some(NotFoundMessage), loading := false)
    case Row(q) =>
      s.(error := None, quiz := Some(q), loading := false,
         timeLeft := if TimerStarts(q.duration) then Some(q.duration.value * 60) else s.timeLeft)
  }

  /** `String(mcqs[i].correct_answer ?? "")` */
  function KeyText(k: AnswerKey): (r: string)
    ensures k.Text? ==> r == k.text
    ensures k.Absent? ==> r == ""
    ensures k.Number? && k.number >= 0 ==> r == NatToString(k.number)
    ensures k.Number? && k.number < 0 ==> r == "-" + NatToString(-k.number)
    ensures k.Number? ==> (r != [] && (AllDigits(r) <==> k.number >= 0))
  {
    match k
    case Text(t) => t
    case Number(n) => IntToString(n)
    case Absent => ""
  }

  /** Question `i` counts: it has a recorded answer whose text equals the key's text. */
  predicate IsCorrect(mcqs: seq<MCQ>, answers: map<nat, string>, i: nat)
    requires i < |mcqs|
  {
    i in answers && answers[i] == KeyText(mcqs[i].correctAnswer)
  }

  /** The number of correct questions among the first `n`. */
  function CountCorrect(mcqs: seq<MCQ>, answers: map<nat, string>, n: nat): (c: nat)
    requires n <= |mcqs|
    ensures c <= n
  {
    if n == 0 then 0 else CountCorrect(mcqs, answers, n - 1) + (if IsCorrect(mcqs, answers, n - 1) then 1 else 0)
  }

  /** The indices `computeMcqScore` counts, as a set. */
  function CorrectIndices(mcqs: seq<MCQ>, answers: map<nat, string>, n: nat): set<nat>
    requires n <= |mcqs|
  {
    set i: nat | i < n && IsCorrect(mcqs, answers, i)
  }

  /** `computeMcqScore()` */
  function Score(mcqs: seq<MCQ>, answers: map<nat, string>): (r: Summary)
    ensures r.totalMcq == |mcqs| && r.correct <= r.totalMcq
  {
    Summary(|mcqs|, CountCorrect(mcqs, answers, |mcqs|))
  }

  /** The count is the number of indices with a recorded, matching answer. */
  lemma {:induction false} CountIsCorrectIndices(mcqs: seq<MCQ>, answers: map<nat, string>, n: nat)
    requires n <= |mcqs|
    ensures CountCorrect(mcqs, answers, n) == |CorrectIndices(mcqs, answers, n)|
  {
    if n > 0 {
      CountIsCorrectIndices(mcqs, answers, n - 1);
      var prev := CorrectIndices(mcqs, answers, n - 1);
      if IsCorrect(mcqs, answers, n - 1) {
        assert CorrectIndices(mcqs, answers, n) == prev + {n - 1};
      } else {
        assert CorrectIndices(mcqs, answers, n) == prev;
      }
    }
  }

  /** A question without a recorded answer never counts, whatever its key. */
  lemma UnansweredNeverCounts(mcqs: seq<MCQ>, answers: map<nat, string>)
    requires forall i: nat :: i < |mcqs| ==> i !in answers
    ensures Score(mcqs, answers).correct == 0
  {
    CountIsCorrectIndices(mcqs, answers, |mcqs|);
    assert CorrectIndices(mcqs, answers, |mcqs|) == {};
  }

  /** `mcqAnswers[i] === String(oi)`: whether radio `oi` of question `i` is checked. */
  predicate Checked(s: RunnerState, qi: nat, oi: nat) {
    qi in s.mcqAnswers && s.mcqAnswers[qi] == NatToString(oi)
  }

  /** Every recorded MCQ answer is an option index written in decimal, as the radios record. */
  predicate AnswersAreIndices(s: RunnerState) {
    forall i :: i in s.mcqAnswers ==> s.mcqAnswers[i] != [] && AllDigits(s.mcqAnswers[i])
  }

  /** The quirk of comparing an option index with the key's text: a key stored as option
      text (anything but decimal digits) never matches an answer the radios can record. */
  lemma TextKeyNeverMatches(s: RunnerState, i: nat)
    requires AnswersAreIndices(s) && i < |Mcqs(s)|
    requires !AllDigits(KeyText(Mcqs(s)[i].correctAnswer)) || KeyText(Mcqs(s)[i].correctAnswer) == []
    ensures !IsCorrect(Mcqs(s), s.mcqAnswers, i)
  {
  }

  /** A key stored as the number `k` counts exactly when option `k` was chosen. */
  lemma NumberKeyMatchesOnlyItsIndex(mcqs: seq<MCQ>, answers: map<nat, string>, i: nat, k: nat, oi: nat)
    requires i < |mcqs| && mcqs[i].correctAnswer == Number(k)
    requires i in answers && answers[i] == NatToString(oi)
    ensures IsCorrect(mcqs, answers, i) <==> oi == k
  {
    if IsCorrect(mcqs, answers, i) { NatToStringInjective(oi, k); }
  }

  /** `computeMcqScore()`: a loop over the MCQs counting the questions whose recorded
      answer equals the text of their key. */
  method ComputeMcqScore(mcqs: seq<MCQ>, mcqAnswers: map<nat, string>) returns (summary: Summary)
    ensures summary == Score(mcqs, mcqAnswers)
  {
    var correct: nat := 0;
    for i := 0 to |mcqs|
      invariant correct == CountCorrect(mcqs, mcqAnswers, i)
    {
      var key := KeyText(mcqs[i].correctAnswer);
      if i in mcqAnswers && mcqAnswers[i] == key {
        correct := correct + 1;
      }
    }
    summary := Summary(|mcqs|, correct);
  }

  /** `mcqs.map((_, i) => mcqAnswers[i] ?? null)` */
  function McqAnswerList(n: nat, answers: map<nat, string>): (r: seq<Option<string>>)
    ensures |r| == n
    ensures forall i :: 0 <= i < n ==> r[i] == (if i in answers then Some(answers[i]) else None)
  {
    seq(n, (i: int) => if i >= 0 && i in answers then Some(answers[i]) else None)
  }

  /** `descs.map((_, i) => descAnswers[i] ?? "")` */
  function DescAnswerList(n: nat, answers: map<nat, string>): (r: seq<string>)
    ensures |r| == n
    ensures forall i :: 0 <= i < n ==> r[i] == (if i in answers then answers[i] else "")
  {
    seq(n, (i: int) => if i >= 0 && i in answers then answers[i] else "")
  }

  /** `studentRoll.trim() || null` */
  function RollOrNull(roll: string): (r: Option<string>)
    ensures r.None? <==> AllWhitespace(roll)
    ensures r.Some? ==> r.value == Trim(roll)
  {
    TrimEmptyIff(roll);
    if Trim(roll) == [] then None else Some(Trim(roll))
  }

  /** The response `handleSubmit` inserts; `timeTaken` is in whole seconds. */
  function BuildPayload(q: PublishedQuiz, name: string, roll: string,
                        mcqAnswers: map<nat, string>, descAnswers: map<nat, string>, timeTaken: int)
    : (p: ResponsePayload)
    ensures p.quizId == q.id && p.studentName == Trim(name) && p.timeTaken == timeTaken
    ensures p.studentRoll == RollOrNull(roll)
    ensures p.mcqAnswers == McqAnswerList(|q.mcqQuestions|, mcqAnswers)
    ensures p.descriptiveAnswers == DescAnswerList(|q.descriptiveQuestions|, descAnswers)
  {
    ResponsePayload(q.id, Trim(name), RollOrNull(roll),
                    McqAnswerList(|q.mcqQuestions|, mcqAnswers),
                    DescAnswerList(|q.descriptiveQuestions|, descAnswers), timeTaken)
  }

  /** `Math.floor((Date.now() - startTs) / 1000)`; Dafny's division by a positive number
      already rounds down. */
  function TimeTaken(startTs: int, nowMs: int): (r: int)
    ensures 1000 * r <= nowMs - startTs < 1000 * r + 1000
  {
    (nowMs - startTs) / 1000
  }

  /** `handleSubmit(arg)` with the insert ending as `insert` at time `nowMs`. */
  function Submit(s: RunnerState, arg: SubmitArg, insert: InsertOutcome, nowMs: int): (r: RunnerState)
    ensures SameSession(r, s)
    ensures s.inserts <= r.inserts && |r.inserts| <= |s.inserts| + 1
    ensures r.inserts != s.inserts ==> r.submittedSummary == Some(Score(Mcqs(s), s.mcqAnswers)) && r.error.None?
    ensures r.submittedSummary != s.submittedSummary ==> r.inserts != s.inserts
  {
    if s.quiz.None? then s
    else if Trim(s.studentName) == [] then
      (if !IsAuto(arg) then s.(error := Some(NameRequiredMessage)) else s)
    else
      var p := BuildPayload(s.quiz.value, s.studentName, s.studentRoll, s.mcqAnswers, s.descAnswers,
                            TimeTaken(s.startTs, nowMs));
      match insert
      case InsertOk =>
        s.(error := None, submitting := false, inserts := s.inserts + [p],
           submittedSummary := Some(Score(Mcqs(s), s.mcqAnswers)))
      case InsertFailed(m) =>
        s.(error := Some(m.GetOr(SubmitFailedMessage)), submitting := false)
  }

  /** How `Submit` unfolds on each path of `handleSubmit`. */
  lemma SubmitCases(s: RunnerState, arg: SubmitArg, insert: InsertOutcome, nowMs: int)
    ensures s.quiz.None? ==> Submit(s, arg, insert, nowMs) == s
    ensures s.quiz.Some? && Trim(s.studentName) == [] ==>
      Submit(s, arg, insert, nowMs) == if IsAuto(arg) then s else s.(error := Some(NameRequiredMessage))
    ensures s.quiz.Some? && Trim(s.studentName) != [] ==>
      var p := BuildPayload(s.quiz.value, s.studentName, s.studentRoll, s.mcqAnswers, s.descAnswers,
                            TimeTaken(s.startTs, nowMs));
      Submit(s, arg, insert, nowMs)
        == if insert.InsertOk? then
             s.(error := None, submitting := false, inserts := s.inserts + [p],
                submittedSummary := Some(Score(Mcqs(s), s.mcqAnswers)))
           else s.(error := Some(insert.message.GetOr(SubmitFailedMessage)), submitting := false)
  {
  }

  /** Fields no submission touches. */
  predicate SameSession(a: RunnerState, b: RunnerState) {
    a.loading == b.loading && a.quiz == b.quiz && a.studentName == b.studentName
    && a.studentRoll == b.studentRoll && a.mcqAnswers == b.mcqAnswers && a.descAnswers == b.descAnswers
    && a.startTs == b.startTs && a.timeLeft == b.timeLeft && a.currentIndex == b.currentIndex
  }

  /** Without a quiz, or with a blank name, nothing is inserted and no summary appears,
      whichever way the submission was called; only a call whose argument is falsy shows
      the name error. */
  lemma SubmitGuard(s: RunnerState, arg: SubmitArg, insert: InsertOutcome, nowMs: int)
    requires s.quiz.None? || AllWhitespace(s.studentName)
    ensures var r := Submit(s, arg, insert, nowMs);
      r.inserts == s.inserts && r.submittedSummary == s.submittedSummary && SameSession(r, s)
      && (if s.quiz.Some? && !IsAuto(arg) then r.error == Some(NameRequiredMessage) else r == s)
  {
    TrimEmptyIff(s.studentName);
  }

  /** The Submit button passes its click event, which is truthy: a blank name makes the
      click do nothing at all, and the name error is never shown. */
  lemma ClickWithBlankNameIsSilent(s: RunnerState, insert: InsertOutcome, nowMs: int)
    requires AllWhitespace(s.studentName)
    ensures Submit(s, ClickEvent, insert, nowMs) == s
  {
    TrimEmptyIff(s.studentName);
  }

  /** A submission that reaches the insert: on success one row is added and the summary is
      the local score; on failure the error is set and the summary, and the rows, stay as
      they were. In both cases `submitting` ends false. */
  lemma SubmitOutcome(s: RunnerState, arg: SubmitArg, insert: InsertOutcome, nowMs: int)
    requires s.quiz.Some? && !AllWhitespace(s.studentName)
    ensures var r := Submit(s, arg, insert, nowMs);
      SameSession(r, s) && !r.submitting
      && (insert.InsertOk? ==>
            r.error.None?
            && r.inserts == s.inserts + [BuildPayload(s.quiz.value, s.studentName, s.studentRoll,
                                                      s.mcqAnswers, s.descAnswers, TimeTaken(s.startTs, nowMs))]
            && r.submittedSummary == Some(Score(Mcqs(s), s.mcqAnswers))
            && (!s.loading ==> View(r) == ThanksScreen(Score(Mcqs(s), s.mcqAnswers))))
      && (insert.InsertFailed? ==>
            r.error == Some(insert.message.GetOr(SubmitFailedMessage))
            && r.inserts == s.inserts && r.submittedSummary == s.submittedSummary
            && (!s.loading && insert.message != Some("") ==> View(r).ErrorScreen?)
            && (insert.message == Some("") ==> !View(r).ErrorScreen?))
  {
    TrimEmptyIff(s.studentName);
    SubmitCases(s, arg, insert, nowMs);
    var p := BuildPayload(s.quiz.value, s.studentName, s.studentRoll, s.mcqAnswers, s.descAnswers,
                          TimeTaken(s.startTs, nowMs));
    if insert.InsertOk? {
      InsertOkState(s, p, Submit(s, arg, insert, nowMs));
    } else {
      InsertFailedState(s, insert.message, Submit(s, arg, insert, nowMs));
    }
  }

  /** The state after a successful insert of `p`. */
  lemma InsertOkState(s: RunnerState, p: ResponsePayload, r: RunnerState)
    requires r == s.(error := None, submitting := false, inserts := s.inserts + [p],
                     submittedSummary := Some(Score(Mcqs(s), s.mcqAnswers)))
    ensures SameSession(r, s) && !r.submitting && r.error.None? && r.inserts == s.inserts + [p]
    ensures r.submittedSummary == Some(Score(Mcqs(s), s.mcqAnswers))
    ensures !s.loading && s.quiz.Some? ==> View(r) == ThanksScreen(Score(Mcqs(s), s.mcqAnswers))
  {
  }

  /** The state after a failed insert reporting `m`. */
  lemma InsertFailedState(s: RunnerState, m: Option<string>, r: RunnerState)
    requires r == s.(error := Some(m.GetOr(SubmitFailedMessage)), submitting := false)
    ensures SameSession(r, s) && !r.submitting && r.error == Some(m.GetOr(SubmitFailedMessage))
    ensures r.inserts == s.inserts && r.submittedSummary == s.submittedSummary
    ensures !s.loading && m != Some("") ==> View(r).ErrorScreen?
    ensures m == Some("") ==> !View(r).ErrorScreen?
  {
  }

  /** One run of the countdown effect after a clock second: a pending timeout (value above
      zero) lowers the value by one, and the effect then fires the automatic submission when
      the new value is zero or below. No timeout is pending otherwise. */
  function TimerStep(t: Option<int>): (r: (Option<int>, bool))
    ensures t.Some? && t.value > 0 ==> r.0 == Some(t.value - 1) && (r.1 <==> t.value == 1)
    ensures !(t.Some? && t.value > 0) ==> r == (t, false)
  {
    if t.Some? && t.value > 0 then (Some(t.value - 1), t.value - 1 <= 0) else (t, false)
  }

  /** `n` clock seconds: the final value and how many automatic submissions fired. */
  function RunTimer(t: Option<int>, n: nat): (Option<int>, nat)
    decreases n
  {
    if n == 0 then (t, 0)
    else
      var (t1, fired) := TimerStep(t);
      var (t2, k) := RunTimer(t1, n - 1);
      (t2, k + if fired then 1 else 0)
  }

  /** A countdown from `start > 0` takes exactly `start` seconds to reach zero, fires the
      automatic submission exactly once, on the last of them, and then stops. */
  lemma {:induction false} CountdownFiresOnce(start: int, n: nat)
    requires start > 0
    ensures n < start ==> RunTimer(Some(start), n) == (Some(start - n), 0)
    ensures n >= start ==> RunTimer(Some(start), n) == (Some(0), 1)
  {
    if n > 0 {
      if start == 1 {
        StoppedTimerStaysStopped(Some(0), n - 1);
      } else {
        CountdownFiresOnce(start - 1, n - 1);
      }
    }
  }

  lemma {:induction false} StoppedTimerStaysStopped(t: Option<int>, n: nat)
    requires t.None? || t.value <= 0
    ensures RunTimer(t, n) == (t, 0)
  {
    if n > 0 { StoppedTimerStaysStopped(t, n - 1); }
  }

  /** A quiz of `d > 0` minutes counts down from `d * 60`: ten minutes take 600 seconds. */
  lemma TimedQuizLasts(s: RunnerState, q: PublishedQuiz)
    requires q.duration == Some(10)
    ensures OnLoad(s, Row(q)).timeLeft == Some(600)
    ensures RunTimer(Some(600), 599) == (Some(1), 0) && RunTimer(Some(600), 600) == (Some(0), 1)
  {
    CountdownFiresOnce(600, 599);
    CountdownFiresOnce(600, 600);
  }

  /** One clock second. The effect depends on `timeLeft` only, so it fires whatever the
      rest of the state is, also after a submission or on the error screen. */
  function OnTick(s: RunnerState, insert: InsertOutcome, nowMs: int): (r: RunnerState)
    ensures r.timeLeft == TimerStep(s.timeLeft).0
    ensures s.inserts <= r.inserts && |r.inserts| <= |s.inserts| + 1
    ensures !TimerStep(s.timeLeft).1 ==> r == s.(timeLeft := r.timeLeft)
  {
    var (t, fire) := TimerStep(s.timeLeft);
    if fire then Submit(s.(timeLeft := t), Flag(true), insert, nowMs) else s.(timeLeft := t)
  }

  /** A lookup that fails with an empty message stores "", which is falsy: the page renders
      nothing instead of an error screen. */
  lemma EmptyLoadErrorShowsNothing(s: RunnerState)
    requires s.quiz.None?
    ensures OnLoad(s, QueryFailed(Some(""))).error == Some("")
    ensures View(OnLoad(s, QueryFailed(Some("")))) == Nothing
  {
  }

  /** The countdown ignores the summary: when time runs out after a successful manual
      submission, the automatic submission inserts the same attempt a second time. */
  lemma TimeoutAfterSubmitInsertsTwice(s: RunnerState, now1: int, now2: int)
    requires s.quiz.Some? && !AllWhitespace(s.studentName) && s.timeLeft == Some(1)
    ensures var s1 := Submit(s, ClickEvent, InsertOk, now1);
      var s2 := OnTick(s1, InsertOk, now2);
      s1.submittedSummary.Some? && |s1.inserts| == |s.inserts| + 1
      && |s2.inserts| == |s.inserts| + 2 && s2.timeLeft == Some(0)
  {
    TrimEmptyIff(s.studentName);
  }

  /** A timed-out attempt with a blank name is dropped without a message. */
  lemma TimeoutWithBlankNameDropsAttempt(s: RunnerState, insert: InsertOutcome, nowMs: int)
    requires s.quiz.Some? && AllWhitespace(s.studentName) && s.timeLeft == Some(1)
    ensures OnTick(s, insert, nowMs) == s.(timeLeft := Some(0))
  {
    TrimEmptyIff(s.studentName);
  }

  /** `currentIndex` lies within the MCQs (it is 0 while there are none). */
  predicate IndexInRange(s: RunnerState) {
    0 <= s.currentIndex && (s.currentIndex == 0 || s.currentIndex < |Mcqs(s)|)
  }


  /** The Prev button: `Math.max(0, i - 1)`. */
  function OnPrev(s: RunnerState): (r: RunnerState)
    ensures r.(currentIndex := s.currentIndex) == s
    ensures r.currentIndex == (if s.currentIndex <= 0 then 0 else s.currentIndex - 1)
  {
    s.(currentIndex := Max(0, s.currentIndex - 1))
  }

  /** The Next button: `Math.min(mcqs.length - 1, i + 1)`. */
  function OnNext(s: RunnerState): (r: RunnerState)
    ensures r.(currentIndex := s.currentIndex) == s
    ensures r.currentIndex <= |Mcqs(s)| - 1 && r.currentIndex <= s.currentIndex + 1
    ensures s.currentIndex < |Mcqs(s)| - 1 ==> r.currentIndex == s.currentIndex + 1
  {
    s.(currentIndex := Min(|Mcqs(s)| - 1, s.currentIndex + 1))
  }

  /** A button of the jump strip. */
  function OnJump(s: RunnerState, i: nat): (r: RunnerState)
    ensures r.(currentIndex := s.currentIndex) == s && r.currentIndex == i
  {
    s.(currentIndex := i)
  }

  /** The navigation controls exist only while MCQs are shown; each keeps the index in range
      and changes nothing but the index. */
  lemma NavigationInRange(s: RunnerState, i: nat)
    requires IndexInRange(s) && |Mcqs(s)| > 0 && i < |Mcqs(s)|
    ensures IndexInRange(OnPrev(s)) && IndexInRange(OnNext(s)) && IndexInRange(OnJump(s, i))
    ensures 0 <= OnPrev(s).currentIndex <= s.currentIndex
    ensures s.currentIndex <= OnNext(s).currentIndex <= |Mcqs(s)| - 1
    ensures OnPrev(s).currentIndex == (if s.currentIndex == 0 then 0 else s.currentIndex - 1)
    ensures OnNext(s).currentIndex == (if s.currentIndex == |Mcqs(s)| - 1 then s.currentIndex else s.currentIndex + 1)
    ensures OnJump(s, i).currentIndex == i
    ensures OnPrev(s).(currentIndex := s.currentIndex) == s && OnNext(s).(currentIndex := s.currentIndex) == s
    ensures OnJump(s, i).(currentIndex := s.currentIndex) == s
  {
  }

  /** Choosing radio `oi` of the question on screen records its index as text. */
  function OnChooseOption(s: RunnerState, oi: nat): (r: RunnerState)
    requires s.currentIndex >= 0
    ensures r.(mcqAnswers := s.mcqAnswers) == s
    ensures s.currentIndex as nat in r.mcqAnswers && r.mcqAnswers[s.currentIndex as nat] == NatToString(oi)
  {
    s.(mcqAnswers := s.mcqAnswers[s.currentIndex as nat := NatToString(oi)])
  }

  /** Typing into the text area of descriptive question `qi`. */
  function OnEditDescriptive(s: RunnerState, qi: nat, text: string): (r: RunnerState)
    ensures r.(descAnswers := s.descAnswers) == s
    ensures qi in r.descAnswers && r.descAnswers[qi] == text
  {
    s.(descAnswers := s.descAnswers[qi := text])
  }

  /** After choosing option `oi`, exactly that option of the question is checked, every
      other question keeps its answer, and the descriptive answers are untouched. */
  lemma ChooseOptionOnlyThatQuestion(s: RunnerState, oi: nat, j: nat)
    requires s.currentIndex >= 0
    ensures OnChooseOption(s, oi).mcqAnswers[s.currentIndex as nat] == NatToString(oi)
    ensures Checked(OnChooseOption(s, oi), s.currentIndex as nat, j) <==> j == oi
    ensures AnswersAreIndices(s) ==> AnswersAreIndices(OnChooseOption(s, oi))
    ensures var r := OnChooseOption(s, oi);
      r.descAnswers == s.descAnswers && r.mcqAnswers.Keys == s.mcqAnswers.Keys + {s.currentIndex as nat}
      && (forall k :: k in s.mcqAnswers && k != s.currentIndex ==> r.mcqAnswers[k] == s.mcqAnswers[k])
  {
    var r := OnChooseOption(s, oi);
    if Checked(r, s.currentIndex as nat, j) { NatToStringInjective(j, oi); }
  }

  /** A text edit changes the answer of that descriptive question and no other. */
  lemma EditDescriptiveOnlyThatQuestion(s: RunnerState, qi: nat, text: string)
    ensures var r := OnEditDescriptive(s, qi, text);
      r.descAnswers[qi] == text && r.mcqAnswers == s.mcqAnswers
      && r.descAnswers.Keys == s.descAnswers.Keys + {qi}
      && (forall k :: k in s.descAnswers && k != qi ==> r.descAnswers[k] == s.descAnswers[k])
  {
  }

  /** The component, with one field per piece of React state. Every method performs one
      event and is specified by the transition function of the same event. */
  class QuizRunner {
    var loading: bool
    var quiz: Option<PublishedQuiz>
    var studentName: string
    var studentRoll: string
    var mcqAnswers: map<nat, string>
    var descAnswers: map<nat, string>
    var submitting: bool
    var error: Option<string>
    var startTs: int
    var timeLeft: Option<int>
    var currentIndex: int
    var submittedSummary: Option<Summary>
    var inserts: seq<ResponsePayload>

    function State(): RunnerState
      reads this
    {
      RunnerState(loading, quiz, studentName, studentRoll, mcqAnswers, descAnswers, submitting,
                  error, startTs, timeLeft, currentIndex, submittedSummary, inserts)
    }

    predicate Valid()
      reads this
      ensures Valid() ==> IndexInRange(State()) && AnswersAreIndices(State())
    {
      && 0 <= currentIndex
      && (currentIndex == 0 || (quiz.Some? && currentIndex < |quiz.value.mcqQuestions|))
      && forall i :: i in mcqAnswers ==> mcqAnswers[i] != [] && AllDigits(mcqAnswers[i])
    }

    constructor (now: int)
      ensures State() == Initial(now) && Valid()
    {
      loading, quiz, studentName, studentRoll := true, None, "", "";
      mcqAnswers, descAnswers, submitting, error := map[], map[], false, None;
      startTs, timeLeft, currentIndex, submittedSummary, inserts := now, None, 0, None, [];
    }

    /** `load()` once the lookup has ended. */
    method Load(outcome: LoadOutcome)
      requires Valid() && quiz.None?
      modifies this
      ensures State() == OnLoad(old(State()), outcome) && Valid()
    {
      error := None;
      loading := true;
      match outcome {
        case QueryFailed(m) => error := Some(m.GetOr(LoadFailedMessage));
        case NoRow => error := Some(NotFoundMessage);
        case Row(q) =>
          quiz := Some(q);
          if q.duration.Some? && q.duration.value > 0 {
            timeLeft := Some(q.duration.value * 60);
          }
      }
      loading := false;
    }

    /** `handleSubmit(arg)`; the insert is given by its outcome and the clock by `nowMs`. */
    method HandleSubmit(arg: SubmitArg, insert: InsertOutcome, nowMs: int)
      requires Valid()
      modifies this
      ensures State() == Submit(old(State()), arg, insert, nowMs)
      ensures Valid()
    {
      ghost var s0 := State();
      SubmitCases(s0, arg, insert, nowMs);
      if quiz.None? { return; }
      if Trim(studentName) == [] {
        if !IsAuto(arg) { error := Some(NameRequiredMessage); }
        return;
      }
      var payload := BuildPayload(quiz.value, studentName, studentRoll, mcqAnswers, descAnswers,
                                  TimeTaken(startTs, nowMs));
      // in this model, where submission is atomic, the answers the score reads are the ones sent
      var summary := ComputeMcqScore(Mcqs(State()), mcqAnswers);
      Settle(payload, summary, insert);
    }

    /** The end of `handleSubmit`, once the insert has answered. */
    method Settle(payload: ResponsePayload, summary: Summary, insert: InsertOutcome)
      requires Valid()
      modifies this
      ensures insert.InsertOk? ==> State() == old(State()).(error := None, submitting := false,
        inserts := old(inserts) + [payload], submittedSummary := Some(summary))
      ensures insert.InsertFailed? ==> State() == old(State()).(
        error := Some(insert.message.GetOr(SubmitFailedMessage)), submitting := false)
      ensures Valid()
    {
      match insert {
        case InsertOk =>
          error, submitting, inserts, submittedSummary := None, false, inserts + [payload], Some(summary);
        case InsertFailed(m) =>
          error, submitting := Some(m.GetOr(SubmitFailedMessage)), false;
      }
    }

    /** The Submit button: `onClick={handleSubmit}` hands over the click event. */
    method ClickSubmit(insert: InsertOutcome, nowMs: int)
      requires Valid()
      modifies this
      ensures State() == Submit(old(State()), ClickEvent, insert, nowMs) && Valid()
    {
      HandleSubmit(ClickEvent, insert, nowMs);
    }

    /** One clock second of the countdown effect. */
    method Tick(insert: InsertOutcome, nowMs: int)
      requires Valid()
      modifies this
      ensures State() == OnTick(old(State()), insert, nowMs) && Valid()
    {
      if timeLeft.Some? && timeLeft.value > 0 {
        timeLeft := Some(timeLeft.value - 1);
        if timeLeft.value <= 0 {
          HandleSubmit(Flag(true), insert, nowMs);
        }
      }
    }

    method Prev()
      requires Valid() && |Mcqs(State())| > 0
      modifies this
      ensures State() == OnPrev(old(State())) && Valid()
    {
      currentIndex := Max(0, currentIndex - 1);
    }

    method Next()
      requires Valid() && |Mcqs(State())| > 0
      modifies this
      ensures State() == OnNext(old(State())) && Valid()
    {
      currentIndex := Min(|Mcqs(State())| - 1, currentIndex + 1);
    }

    method Jump(i: nat)
      requires Valid() && i < |Mcqs(State())|
      modifies this
      ensures State() == OnJump(old(State()), i) && Valid()
    {
      currentIndex := i;
    }

    /** The radio of option `oi` of the question on screen. */
    method ChooseOption(oi: nat)
      requires Valid() && currentIndex < |Mcqs(State())| && oi < |Mcqs(State())[currentIndex].options|
      modifies this
      ensures State() == OnChooseOption(old(State()), oi) && Valid()
    {
      mcqAnswers := mcqAnswers[currentIndex as nat := NatToString(oi)];
    }

    method EditDescriptive(qi: nat, text: string)
      requires Valid() && qi < |Descs(State())|
      modifies this
      ensures State() == OnEditDescriptive(old(State()), qi, text) && Valid()
    {
      descAnswers := descAnswers[qi := text];
    }

    method SetName(value: string)
      requires Valid()
      modifies this
      ensures State() == old(State()).(studentName := value) && Valid()
    {
      studentName := value;
    }

    method SetRoll(value: string)
      requires Valid()
      modifies this
      ensures State() == old(State()).(studentRoll := value) && Valid()
    {
      studentRoll := value;
    }
  }

  /** A student who submits by hand in the last second of a timed quiz: the click records
      the response, and the tick that ends the countdown records it a second time. */
  method SubmitInLastSecond(runner: QuizRunner, now1: int, now2: int)
    requires runner.Valid() && runner.quiz.Some? && !AllWhitespace(runner.studentName)
    requires runner.timeLeft == Some(1)
    modifies runner
    ensures |runner.inserts| == |old(runner.inserts)| + 2 && runner.timeLeft == Some(0)
    ensures runner.submittedSummary.Some?
  {
    TrimEmptyIff(runner.studentName);
    SubmitCases(runner.State(), ClickEvent, InsertOk, now1);
    runner.ClickSubmit(InsertOk, now1);
    SubmitCases(runner.State().(timeLeft := Some(0)), Flag(true), InsertOk, now2);
    runner.Tick(InsertOk, now2);
  }
}
