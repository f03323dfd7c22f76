/** The viewer of a generated lesson plan (src/components/lesson-planner/GeneratedPlanViewer.tsx):
    an edit switch, a working copy of the plan that the inputs edit field by field, and a
    save button whose meaning depends on the switch. */
module PlanViewer {
  import opened Common
  import opened LessonPlanner

  /** The edits the inputs of the edit mode can make. */
  datatype PlanEdit =
    | TitleEdit(title: string)
    | ObjectiveEdit(idx: nat, objective: string)
    | IntroductionEdit(introduction: string)
    | AssessmentEdit(assessment: string)
    | DifferentiationEdit(differentiation: string)
    | ClosureEdit(closure: string)

  /** An input exists for the edit: an objective input exists for every objective. */
  predicate Fits(p: LessonPlan, e: PlanEdit) {
    e.ObjectiveEdit? ==> e.idx < |p.objectives|
  }

  /** The fields no input of the viewer edits. */
  predicate Untouched(a: LessonPlan, b: LessonPlan) {
    a.subject == b.subject && a.gradeLevel == b.gradeLevel && a.topic == b.topic && a.duration == b.duration
    && a.materialsNeeded == b.materialsNeeded && a.mainActivities == b.mainActivities && a.homework == b.homework
  }

  /** `setEditedPlan({ ...editedPlan, <field>: value })`; for an objective, a copy of the list
      with that entry replaced. */
  function ApplyEdit(p: LessonPlan, e: PlanEdit): (r: LessonPlan)
    requires Fits(p, e)
    ensures Untouched(p, r) && |r.objectives| == |p.objectives|
    ensures r.title == (if e.TitleEdit? then Some(e.title) else p.title)
    ensures r.introduction == (if e.IntroductionEdit? then e.introduction else p.introduction)
    ensures r.assessment == (if e.AssessmentEdit? then e.assessment else p.assessment)
    ensures r.differentiation == (if e.DifferentiationEdit? then e.differentiation else p.differentiation)
    ensures r.closure == (if e.ClosureEdit? then e.closure else p.closure)
    ensures !e.ObjectiveEdit? ==> r.objectives == p.objectives
    ensures e.ObjectiveEdit? ==>
              r.objectives[e.idx] == e.objective
              && forall j :: 0 <= j < |p.objectives| && j != e.idx ==> r.objectives[j] == p.objectives[j]
  {
    match e
    case TitleEdit(t) => p.(title := Some(t))
    case ObjectiveEdit(idx, o) => p.(objectives := p.objectives[idx := o])
    case IntroductionEdit(t) => p.(introduction := t)
    case AssessmentEdit(t) => p.(assessment := t)
    case DifferentiationEdit(t) => p.(differentiation := t)
    case ClosureEdit(t) => p.(closure := t)
  }

  /** Edits made one after another, each through an input that exists at that moment. */
  predicate AllFit(p: LessonPlan, edits: seq<PlanEdit>)
    decreases |edits|
  {
    edits == [] || (Fits(p, edits[0]) && AllFit(ApplyEdit(p, edits[0]), edits[1..]))
  }

  function ApplyAll(p: LessonPlan, edits: seq<PlanEdit>): LessonPlan
    requires AllFit(p, edits)
    decreases |edits|
  {
    if edits == [] then p else ApplyAll(ApplyEdit(p, edits[0]), edits[1..])
  }

  /** However many edits are made, the materials, the activities and the fields shown only
      as badges stay as generated, and the number of objectives does not change. */
  lemma {:induction false} EditsKeepUntouched(p: LessonPlan, edits: seq<PlanEdit>)
    requires AllFit(p, edits)
    ensures Untouched(p, ApplyAll(p, edits)) && |ApplyAll(p, edits).objectives| == |p.objectives|
    decreases |edits|
  {
    if edits != [] {
      EditsKeepUntouched(ApplyEdit(p, edits[0]), edits[1..]);
    }
  }

  /** Whether an objective edit fits depends only on the number of objectives, which no edit
      changes: a list of objective edits with indices in range fits in any order. */
  lemma {:induction false} InRangeEditsFit(p: LessonPlan, edits: seq<PlanEdit>)
    requires forall i :: 0 <= i < |edits| ==> edits[i].ObjectiveEdit? ==> edits[i].idx < |p.objectives|
    ensures AllFit(p, edits)
    decreases |edits|
  {
    if edits != [] {
      var q := ApplyEdit(p, edits[0]);
      assert forall i :: 0 <= i < |edits[1..]| ==> edits[1..][i] == edits[i + 1];
      InRangeEditsFit(q, edits[1..]);
    }
  }

  /** The two edits write the same field (the same objective, for objective edits). */
  predicate SameSlot(e1: PlanEdit, e2: PlanEdit) {
    match e1
    case TitleEdit(_) => e2.TitleEdit?
    case ObjectiveEdit(i, _) => e2.ObjectiveEdit? && e2.idx == i
    case IntroductionEdit(_) => e2.IntroductionEdit?
    case AssessmentEdit(_) => e2.AssessmentEdit?
    case DifferentiationEdit(_) => e2.DifferentiationEdit?
    case ClosureEdit(_) => e2.ClosureEdit?
  }

  /** Editing the same field twice keeps the second value. */
  lemma LastEditWins(p: LessonPlan, e1: PlanEdit, e2: PlanEdit)
    requires Fits(p, e1) && Fits(p, e2) && SameSlot(e1, e2)
    ensures Fits(ApplyEdit(p, e1), e2) && ApplyEdit(ApplyEdit(p, e1), e2) == ApplyEdit(p, e2)
  {
    if e1.ObjectiveEdit? {
      assert p.objectives[e1.idx := e1.objective][e2.idx := e2.objective] == p.objectives[e2.idx := e2.objective];
    }
  }

  /** The component: `editMode`, `editedPlan`, and the plans handed to `onSave`. */
  class Viewer {
    var editMode: bool
    var editedPlan: LessonPlan
    var saved: seq<LessonPlan>

    /** `useState(false)` and `useState(plan)` */
    constructor (plan: LessonPlan)
      ensures !editMode && editedPlan == plan && saved == []
    {
      editMode := false;
      editedPlan := plan;
      saved := [];
    }

    /** The edit button: `setEditMode(!editMode)`; the working copy is kept either way. */
    method ToggleEdit()
      modifies this
      ensures editMode == !old(editMode) && editedPlan == old(editedPlan) && saved == old(saved)
    {
      editMode := !editMode;
    }

    /** `handleSave`: in edit mode it only leaves edit mode ("Apply Changes"); otherwise it
        hands the working copy to `onSave`. */
    method HandleSave()
      modifies this
      ensures editedPlan == old(editedPlan)
      ensures old(editMode) ==> !editMode && saved == old(saved)
      ensures !old(editMode) ==> !editMode && saved == old(saved) + [editedPlan]
    {
      if editMode {
        editMode := false;
      } else {
        saved := saved + [editedPlan];
      }
    }

    /** An input of the edit mode. */
    method Edit(e: PlanEdit)
      requires editMode && Fits(editedPlan, e)
      modifies this
      ensures editedPlan == ApplyEdit(old(editedPlan), e)
      ensures editMode && saved == old(saved)
    {
      match e {
        case TitleEdit(t) => editedPlan := editedPlan.(title := Some(t));
        case ObjectiveEdit(idx, o) =>
          var objectives := editedPlan.objectives;
          objectives := objectives[idx := o];
          editedPlan := editedPlan.(objectives := objectives);
        case IntroductionEdit(t) => editedPlan := editedPlan.(introduction := t);
        case AssessmentEdit(t) => editedPlan := editedPlan.(assessment := t);
        case DifferentiationEdit(t) => editedPlan := editedPlan.(differentiation := t);
        case ClosureEdit(t) => editedPlan := editedPlan.(closure := t);
      }
    }
  }

  /** Saving edits takes two clicks of the save button: the first leaves edit mode, the
      second hands the edited plan to `onSave`. */
  method EditAndSave(plan: LessonPlan, e: PlanEdit) returns (v: Viewer)
    requires Fits(plan, e)
    ensures v.saved == [ApplyEdit(plan, e)] && !v.editMode
  {
    v := new Viewer(plan);
    v.ToggleEdit();
    v.Edit(e);
    v.HandleSave();
    assert v.saved == [];
    v.HandleSave();
  }
}
