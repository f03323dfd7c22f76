/** The quiz draft record and the teacher's in-memory editor for it
    (src/components/quiz/QuizEditor.tsx). Every updater returns a fresh draft in which
    exactly one slot differs; nothing recomputes the stored total of points. */
module QuizEditor {
  import opened Common

  /** `correct_answer: string | number`. `Absent` is the stored question that has no
      correct answer at all, which the student runner reads through `?? ""`. */
  datatype AnswerKey = Text(text: string) | Number(number: int) | Absent

  datatype MCQ = MCQ(question: string, options: seq<string>, correctAnswer: AnswerKey, points: int)

  datatype Descriptive = Descriptive(question: string, suggestedAnswer: string, points: int)

  datatype QuizDraft = QuizDraft(
    id: Option<string>,
    title: string,
    subject: string,
    gradeLevel: string,
    duration: Option<int>,
    mcqQuestions: seq<MCQ>,
    descriptiveQuestions: seq<Descriptive>,
    totalPoints: int,
    isPublished: Option<bool>,
    quizCode: Option<string>)

  /** `Partial<MCQ>`: the fields a patch sets. */
  datatype MCQPatch = MCQPatch(
    question: Option<string>, options: Option<seq<string>>, correctAnswer: Option<AnswerKey>, points: Option<int>)

  /** `Partial<Descriptive>` */
  datatype DescriptivePatch = DescriptivePatch(
    question: Option<string>, suggestedAnswer: Option<string>, points: Option<int>)

  /** The editor's two pieces of state: the draft and the publish switch. */
  datatype Editor = Editor(draft: QuizDraft, isPublished: bool)

  /** The fields no updater of the editor touches. */
  predicate SameMetadata(a: QuizDraft, b: QuizDraft) {
    a.id == b.id && a.subject == b.subject && a.gradeLevel == b.gradeLevel && a.duration == b.duration
    && a.totalPoints == b.totalPoints && a.isPublished == b.isPublished && a.quizCode == b.quizCode
  }

  /** Both question lists agree except, possibly, at MCQ `i`. */
  predicate OnlyMcqDiffers(a: QuizDraft, b: QuizDraft, i: nat) {
    a.title == b.title && SameMetadata(a, b)
    && |a.mcqQuestions| == |b.mcqQuestions| && a.descriptiveQuestions == b.descriptiveQuestions
    && forall j :: 0 <= j < |a.mcqQuestions| && j != i ==> a.mcqQuestions[j] == b.mcqQuestions[j]
  }

  /** `useState(quiz)` and `useState(quiz.is_published ?? false)`. */
  function InitEditor(quiz: QuizDraft): (e: Editor)
    ensures e.draft == quiz
    ensures e.isPublished <==> quiz.isPublished == Some(true)
  {
    Editor(quiz, quiz.isPublished.GetOr(false))
  }

  /** `{ ...copy[index], ...patch }` for an MCQ. */
  function PatchMCQ(q: MCQ, p: MCQPatch): (r: MCQ)
    ensures p.question.None? ==> r.question == q.question
    ensures p.question.Some? ==> r.question == p.question.value
    ensures p.options.None? ==> r.options == q.options
    ensures p.options.Some? ==> r.options == p.options.value
    ensures p.correctAnswer.None? ==> r.correctAnswer == q.correctAnswer
    ensures p.correctAnswer.Some? ==> r.correctAnswer == p.correctAnswer.value
    ensures p.points.None? ==> r.points == q.points
    ensures p.points.Some? ==> r.points == p.points.value
  {
    MCQ(p.question.GetOr(q.question), p.options.GetOr(q.options),
        p.correctAnswer.GetOr(q.correctAnswer), p.points.GetOr(q.points))
  }

  /** `{ ...copy[index], ...patch }` for a descriptive question. */
  function PatchDescriptive(q: Descriptive, p: DescriptivePatch): (r: Descriptive)
    ensures p.question.None? ==> r.question == q.question
    ensures p.question.Some? ==> r.question == p.question.value
    ensures p.suggestedAnswer.None? ==> r.suggestedAnswer == q.suggestedAnswer
    ensures p.suggestedAnswer.Some? ==> r.suggestedAnswer == p.suggestedAnswer.value
    ensures p.points.None? ==> r.points == q.points
    ensures p.points.Some? ==> r.points == p.points.value
  {
    Descriptive(p.question.GetOr(q.question), p.suggestedAnswer.GetOr(q.suggestedAnswer),
                p.points.GetOr(q.points))
  }

  /** `updateTitle(value)` */
  function UpdateTitle(d: QuizDraft, value: string): (r: QuizDraft)
    ensures r.title == value && SameMetadata(r, d)
    ensures r.mcqQuestions == d.mcqQuestions && r.descriptiveQuestions == d.descriptiveQuestions
  {
    d.(title := value)
  }

  /** `updateMCQ(index, patch)`; the editor only calls it with the index of a rendered question. */
  function UpdateMCQ(d: QuizDraft, index: nat, patch: MCQPatch): (r: QuizDraft)
    requires index < |d.mcqQuestions|
    ensures OnlyMcqDiffers(d, r, index)
    ensures r.mcqQuestions[index] == PatchMCQ(d.mcqQuestions[index], patch)
  {
    d.(mcqQuestions := d.mcqQuestions[index := PatchMCQ(d.mcqQuestions[index], patch)])
  }

  /** `updateMCQOption(qIndex, optIndex, value)` */
  function UpdateMCQOption(d: QuizDraft, qIndex: nat, optIndex: nat, value: string): (r: QuizDraft)
    requires qIndex < |d.mcqQuestions| && optIndex < |d.mcqQuestions[qIndex].options|
    ensures OnlyMcqDiffers(d, r, qIndex)
    ensures var q, q' := d.mcqQuestions[qIndex], r.mcqQuestions[qIndex];
      q'.question == q.question && q'.correctAnswer == q.correctAnswer && q'.points == q.points
      && |q'.options| == |q.options| && q'.options[optIndex] == value
      && forall o :: 0 <= o < |q.options| && o != optIndex ==> q'.options[o] == q.options[o]
  {
    var q := d.mcqQuestions[qIndex];
    d.(mcqQuestions := d.mcqQuestions[qIndex := q.(options := q.options[optIndex := value])])
  }

  /** `updateDesc(index, patch)` */
  function UpdateDesc(d: QuizDraft, index: nat, patch: DescriptivePatch): (r: QuizDraft)
    requires index < |d.descriptiveQuestions|
    ensures r.title == d.title && SameMetadata(r, d) && r.mcqQuestions == d.mcqQuestions
    ensures |r.descriptiveQuestions| == |d.descriptiveQuestions|
    ensures r.descriptiveQuestions[index] == PatchDescriptive(d.descriptiveQuestions[index], patch)
    ensures forall j :: 0 <= j < |d.descriptiveQuestions| && j != index ==>
      r.descriptiveQuestions[j] == d.descriptiveQuestions[j]
  {
    d.(descriptiveQuestions := d.descriptiveQuestions[index := PatchDescriptive(d.descriptiveQuestions[index], patch)])
  }

  /** The Save button: `onSave({ ...draft, is_published: isPublished })`. */
  function SavePayload(e: Editor): (r: QuizDraft)
    ensures r.isPublished == Some(e.isPublished)
    ensures r.(isPublished := e.draft.isPublished) == e.draft
  {
    e.draft.(isPublished := Some(e.isPublished))
  }

  /** Saving an untouched editor gives back the quiz it was opened on, with the
      publish flag made explicit (`false` when the quiz had none). */
  lemma SaveUntouched(quiz: QuizDraft)
    ensures SavePayload(InitEditor(quiz)) == quiz.(isPublished := Some(quiz.isPublished == Some(true)))
    ensures quiz.isPublished.Some? ==> SavePayload(InitEditor(quiz)) == quiz
  {
  }

  /** Editing one option through `updateMCQOption` is the same as patching that question's
      whole option list through `updateMCQ`. */
  lemma OptionEditIsOptionsPatch(d: QuizDraft, qIndex: nat, optIndex: nat, value: string)
    requires qIndex < |d.mcqQuestions| && optIndex < |d.mcqQuestions[qIndex].options|
    ensures var opts := d.mcqQuestions[qIndex].options;
      UpdateMCQOption(d, qIndex, optIndex, value)
        == UpdateMCQ(d, qIndex, MCQPatch(None, Some(opts[optIndex := value]), None, None))
  {
  }

  /** Edits of two different MCQs commute. */
  lemma McqEditsCommute(d: QuizDraft, i: nat, j: nat, p: MCQPatch, q: MCQPatch)
    requires i < |d.mcqQuestions| && j < |d.mcqQuestions| && i != j
    ensures UpdateMCQ(UpdateMCQ(d, i, p), j, q) == UpdateMCQ(UpdateMCQ(d, j, q), i, p)
  {
  }

  function SumMcqPoints(qs: seq<MCQ>): int {
    if qs == [] then 0 else SumMcqPoints(qs[..|qs| - 1]) + qs[|qs| - 1].points
  }

  function SumDescPoints(qs: seq<Descriptive>): int {
    if qs == [] then 0 else SumDescPoints(qs[..|qs| - 1]) + qs[|qs| - 1].points
  }

  /** The total a draft's questions are worth. */
  function QuestionPoints(d: QuizDraft): int {
    SumMcqPoints(d.mcqQuestions) + SumDescPoints(d.descriptiveQuestions)
  }

  /** Replacing one MCQ changes the sum by the difference of the two point values. */
  lemma {:induction false} SumMcqPointsUpdate(qs: seq<MCQ>, i: nat, q: MCQ)
    requires i < |qs|
    ensures SumMcqPoints(qs[i := q]) == SumMcqPoints(qs) - qs[i].points + q.points
  {
    var n := |qs| - 1;
    if i == n {
      assert qs[i := q][..n] == qs[..n];
    } else {
      assert qs[i := q][..n] == qs[..n][i := q];
      SumMcqPointsUpdate(qs[..n], i, q);
    }
  }

  /** The editor never recomputes `total_points`: once an MCQ's points are changed, a total
      that matched the questions no longer does. */
  lemma PointsEditLeavesTotalStale(d: QuizDraft, i: nat, pts: int)
    requires i < |d.mcqQuestions| && d.totalPoints == QuestionPoints(d)
    requires pts != d.mcqQuestions[i].points
    ensures var r := UpdateMCQ(d, i, MCQPatch(None, None, None, Some(pts)));
      r.totalPoints == d.totalPoints && r.totalPoints != QuestionPoints(r)
  {
    var r := UpdateMCQ(d, i, MCQPatch(None, None, None, Some(pts)));
    assert r.mcqQuestions == d.mcqQuestions[i := r.mcqQuestions[i]];
    SumMcqPointsUpdate(d.mcqQuestions, i, r.mcqQuestions[i]);
  }
}
