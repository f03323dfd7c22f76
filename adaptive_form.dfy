/** The form that asks for adaptive material (src/components/adaptive/AdaptiveForm.tsx): a
    title, a content type, a difficulty, an optional lesson plan, a submit guard and the
    request it sends. The two menus offer the values of the database enums `content_type`
    and `difficulty_level` (src/integrations/supabase/types.ts). */
module AdaptiveForm {
  import opened Common

  /** The database enum `content_type`. */
  datatype ContentType = Worksheet | Quiz | Reading | Video | Activity

  /** The database enum `difficulty_level`. */
  datatype Difficulty = Beginner | Intermediate | Advanced

  function ContentTypeName(c: ContentType): string {
    match c
    case Worksheet => "worksheet"
    case Quiz => "quiz"
    case Reading => "reading"
    case Video => "video"
    case Activity => "activity"
  }

  function DifficultyName(d: Difficulty): string {
    match d
    case Beginner => "beginner"
    case Intermediate => "intermediate"
    case Advanced => "advanced"
  }

  /** The enum value a string names, if any: what the database accepts in the column. */
  function ParseContentType(s: string): (r: Option<ContentType>)
    ensures r.Some? ==> ContentTypeName(r.value) == s
  {
    if s == "worksheet" then Some(Worksheet)
    else if s == "quiz" then Some(Quiz)
    else if s == "reading" then Some(Reading)
    else if s == "video" then Some(Video)
    else if s == "activity" then Some(Activity)
    else None
  }

  function ParseDifficulty(s: string): (r: Option<Difficulty>)
    ensures r.Some? ==> DifficultyName(r.value) == s
  {
    if s == "beginner" then Some(Beginner)
    else if s == "intermediate" then Some(Intermediate)
    else if s == "advanced" then Some(Advanced)
    else None
  }

  /** The values of the content-type menu, in menu order. */
  const ContentTypeChoices: seq<string> := ["worksheet", "quiz", "reading", "video", "activity"]

  /** The values of the difficulty menu, in menu order. */
  const DifficultyChoices: seq<string> := ["beginner", "intermediate", "advanced"]

  /** Every enum value has its name on the menu, and every menu value names an enum value:
      the menus offer exactly the database enums. */
  lemma ContentTypeMenuIsEnum(c: ContentType, s: string)
    ensures ContentTypeName(c) in ContentTypeChoices
    ensures ParseContentType(ContentTypeName(c)) == Some(c)
    ensures s in ContentTypeChoices <==> ParseContentType(s).Some?
  {
  }

  lemma DifficultyMenuIsEnum(d: Difficulty, s: string)
    ensures DifficultyName(d) in DifficultyChoices
    ensures ParseDifficulty(DifficultyName(d)) == Some(d)
    ensures s in DifficultyChoices <==> ParseDifficulty(s).Some?
  {
  }

  /** The form's state; the two menus hold "" until something is picked. */
  datatype MaterialFields = MaterialFields(
    title: string, contentType: string, difficulty: string, lessonPlanId: Option<string>)

  /** What `onGenerate` receives: these four fields and nothing else (no topic). */
  datatype MaterialRequest = MaterialRequest(
    title: string, contentType: string, difficultyLevel: string, lessonPlanId: Option<string>)

  /** `title && contentType && difficulty && !isGenerating` */
  predicate CanSubmit(f: MaterialFields, isGenerating: bool) {
    f.title != "" && f.contentType != "" && f.difficulty != "" && !isGenerating
  }

  /** `handleSubmit`: nothing unless the guard holds, else the request. */
  function HandleSubmit(f: MaterialFields, isGenerating: bool): (r: Option<MaterialRequest>)
    ensures r.Some? <==> f.title != "" && f.contentType != "" && f.difficulty != "" && !isGenerating
    ensures r.Some? ==>
              r.value.title == f.title && r.value.contentType == f.contentType
              && r.value.difficultyLevel == f.difficulty && r.value.lessonPlanId == f.lessonPlanId
  {
    if !CanSubmit(f, isGenerating) then None
    else Some(MaterialRequest(f.title, f.contentType, f.difficulty, f.lessonPlanId))
  }

  /** A request made from menu choices carries enum values the database accepts. */
  lemma MenuRequestIsValid(f: MaterialFields)
    requires f.title != "" && f.contentType in ContentTypeChoices && f.difficulty in DifficultyChoices
    ensures var r := HandleSubmit(f, false);
      r.Some? && ParseContentType(r.value.contentType).Some? && ParseDifficulty(r.value.difficultyLevel).Some?
  {
    ContentTypeMenuIsEnum(Worksheet, f.contentType);
    DifficultyMenuIsEnum(Beginner, f.difficulty);
  }
}
