/** The form that asks for a new quiz (src/components/quiz/QuizForm.tsx): four text
    fields, an optional link to a lesson plan, a submit guard and the request it sends. */
module QuizForm {
  import opened Common

  /** The form's state: `title`, `description`, `subject`, `grade` and `lessonPlanId`
      (undefined until a plan is picked). */
  datatype QuizFields = QuizFields(
    title: string, description: string, subject: string, grade: string, lessonPlanId: Option<string>)

  /** What `onGenerate` receives. */
  datatype QuizRequest = QuizRequest(
    title: string, description: string, subject: string, gradeLevel: string, lessonPlanId: Option<string>)

  /** `title && subject && grade && !isGenerating`: empty strings are falsy, white space is not. */
  predicate CanSubmit(f: QuizFields, isGenerating: bool) {
    f.title != "" && f.subject != "" && f.grade != "" && !isGenerating
  }

  /** `handleSubmit`: nothing unless the guard holds, else the request. The description may
      be empty. */
  function HandleSubmit(f: QuizFields, isGenerating: bool): (r: Option<QuizRequest>)
    ensures r.Some? <==> f.title != "" && f.subject != "" && f.grade != "" && !isGenerating
    ensures r.Some? ==>
              r.value.title == f.title && r.value.description == f.description
              && r.value.subject == f.subject && r.value.gradeLevel == f.grade
              && r.value.lessonPlanId == f.lessonPlanId
  {
    if !CanSubmit(f, isGenerating) then None
    else Some(QuizRequest(f.title, f.description, f.subject, f.grade, f.lessonPlanId))
  }

  /** The subject menu. */
  const SubjectChoices: seq<string> := ["Mathematics", "Science", "English", "Social Studies"]

  /** `Array.from({ length: 12 }, (_, i) => String(i + 1))` */
  function GradeChoices(): (r: seq<string>)
    ensures |r| == 12
    ensures forall i :: 0 <= i < 12 ==> r[i] == NatToString(i + 1)
  {
    seq(12, (i: int) requires 0 <= i < 12 => NatToString(i + 1))
  }

  /** The grade menu lists the strings "1" to "12", in order. */
  lemma GradeChoicesAre()
    ensures GradeChoices() == ["1", "2", "3", "4", "5", "6", "7", "8", "9", "10", "11", "12"]
  {
    var r := GradeChoices();
    var lit := ["1", "2", "3", "4", "5", "6", "7", "8", "9", "10", "11", "12"];
    assert r[0] == lit[0] && r[1] == lit[1] && r[2] == lit[2] && r[3] == lit[3];
    assert r[4] == lit[4] && r[5] == lit[5] && r[6] == lit[6] && r[7] == lit[7];
    assert r[8] == lit[8];
    assert r[9] == lit[9] by { assert r[9] == NatToString(1) + [DigitChar(0)]; }
    assert r[10] == lit[10] by { assert r[10] == NatToString(1) + [DigitChar(1)]; }
    assert r[11] == lit[11] by { assert r[11] == NatToString(1) + [DigitChar(2)]; }
  }

  /** No two grades are the same, so each menu entry is its own grade. */
  lemma GradesDistinct(i: nat, j: nat)
    requires i < 12 && j < 12 && GradeChoices()[i] == GradeChoices()[j]
    ensures i == j
  {
    NatToStringInjective(i + 1, j + 1);
  }

  /** Any menu choice of subject and grade, with a title typed, enables the request while
      nothing is being generated; the request carries the grade as its text. */
  lemma MenuChoicesSubmit(f: QuizFields, si: nat, gi: nat)
    requires f.title != "" && si < |SubjectChoices| && gi < 12
    requires f.subject == SubjectChoices[si] && f.grade == GradeChoices()[gi]
    ensures HandleSubmit(f, false).Some? && HandleSubmit(f, false).value.gradeLevel == NatToString(gi + 1)
    ensures HandleSubmit(f, true).None?
  {
  }

  /** A title of spaces only passes the guard: it is not an empty string. */
  lemma BlankTitleAccepted(f: QuizFields)
    requires f.title != "" && AllWhitespace(f.title) && f.subject != "" && f.grade != ""
    ensures HandleSubmit(f, false).Some? && Trim(HandleSubmit(f, false).value.title) == []
  {
    TrimEmptyIff(f.title);
  }
}
