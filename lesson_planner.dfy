/** The lesson-planner page (src/pages/LessonPlanner.tsx): the Markdown export of a plan,
    the name of the downloaded file, the history of plans kept in the browser, and the
    merge of a generated plan with the form that asked for it.

    A plan arrives as loosely typed JSON. Text fields that are missing, `null` or "" are
    all falsy and print nothing, so they are the empty string here; a list that is missing
    or not an array prints nothing either, so it is the empty sequence. */
module LessonPlanner {
  import opened Common

  /** One entry of `main_activities`; `time` is a number of minutes. */
  datatype Activity = Activity(activity: Option<string>, time: Option<int>, description: string)

  datatype LessonPlan = LessonPlan(
    title: Option<string>,
    subject: string,
    gradeLevel: string,
    topic: string,
    duration: Option<int>,
    objectives: seq<string>,
    materialsNeeded: seq<string>,
    introduction: string,
    mainActivities: seq<Activity>,
    assessment: string,
    differentiation: string,
    closure: string,
    homework: string)

  /** A number is truthy unless it is 0 (or absent). */
  predicate NumberTruthy(n: Option<int>) {
    n.Some? && n.value != 0
  }

  predicate StartsWith(s: string, prefix: string) {
    |prefix| <= |s| && s[..|prefix|] == prefix
  }

  // ---------------------------------------------------------------------------------------
  // planToMarkdown

  /** `plan.title ?? `${plan.subject} - ${plan.topic}`` */
  function Heading(p: LessonPlan): string {
    p.title.GetOr(p.subject + " - " + p.topic)
  }

  /** The title line (which carries its own newline), subject, grade, the optional topic and
      duration, and a blank line. */
  function HeaderLines(p: LessonPlan): seq<string> {
    ["# " + Heading(p) + "\n", "Subject: " + p.subject, "Grade: " + p.gradeLevel]
    + (if p.topic != "" then ["Topic: " + p.topic] else [])
    + (if NumberTruthy(p.duration) then ["Duration: " + IntToString(p.duration.value) + " minutes"] else [])
    + [""]
  }

  /** One `- item` line per item, in order. */
  function Bullets(items: seq<string>): (r: seq<string>)
    ensures |r| == |items|
    ensures forall i :: 0 <= i < |items| ==> r[i] == "- " + items[i]
  {
    if items == [] then [] else Bullets(items[..|items| - 1]) + ["- " + items[|items| - 1]]
  }

  function SectionHeading(name: string): string {
    "## " + name
  }

  /** A list section: present only for a non-empty list. */
  function ListSection(name: string, items: seq<string>): seq<string> {
    if items == [] then [] else [SectionHeading(name)] + Bullets(items) + [""]
  }

  /** A text section: present only for a truthy text. */
  function TextSection(name: string, text: string): seq<string> {
    if text == "" then [] else [SectionHeading(name), text, ""]
  }

  /** The lines of activity number `k` (counted from 1). */
  function ActivityLines(k: nat, a: Activity): seq<string> {
    ["### Activity " + NatToString(k) + ": " + a.activity.GetOr("Activity")]
    + (if NumberTruthy(a.time) then ["Time: " + IntToString(a.time.value) + " min"] else [])
    + (if a.description != "" then [a.description] else [])
    + [""]
  }

  /** The activities in list order, numbered from 1. */
  function ActivitiesBody(acts: seq<Activity>): seq<string> {
    if acts == [] then [] else ActivitiesBody(acts[..|acts| - 1]) + ActivityLines(|acts|, acts[|acts| - 1])
  }

  function ActivitiesSection(acts: seq<Activity>): seq<string> {
    if acts == [] then [] else [SectionHeading("Main Activities")] + ActivitiesBody(acts)
  }

  /** Every line of the export, in the order the sections are written: at least the four
      header lines, and a blank line last, since every part ends with one. */
  function MarkdownLines(p: LessonPlan): (r: seq<string>)
    ensures |r| >= 4 && r[|r| - 1] == ""
  {
    EndsBlank(p);
    HeaderLines(p)
    + ListSection("Objectives", p.objectives)
    + ListSection("Materials Needed", p.materialsNeeded)
    + TextSection("Introduction", p.introduction)
    + ActivitiesSection(p.mainActivities)
    + TextSection("Assessment", p.assessment)
    + TextSection("Differentiation", p.differentiation)
    + TextSection("Closure", p.closure)
    + TextSection("Homework", p.homework)
  }

  /** `lines.join("\n")`: the file ends with a newline. */
  function Markdown(p: LessonPlan): (r: string)
    ensures |r| > 0 && r[|r| - 1] == '\n'
  {
    JoinBlankLast(MarkdownLines(p));
    Join(MarkdownLines(p), "\n")
  }

  /** Lines whose last one is blank join to a text ending in a newline. */
  lemma JoinBlankLast(lines: seq<string>)
    requires |lines| >= 2 && lines[|lines| - 1] == ""
    ensures var r := Join(lines, "\n"); |r| > 0 && r[|r| - 1] == '\n'
  {
    var n := |lines| - 1;
    assert lines == lines[..n] + [lines[n]];
    JoinAppend(lines[..n], [lines[n]], "\n");
  }

  /** The last line of a part, when the part has any. */
  predicate LastBlank(xs: seq<string>) {
    xs == [] || xs[|xs| - 1] == ""
  }

  lemma BlankConcat(a: seq<string>, b: seq<string>)
    requires a != [] && LastBlank(a) && LastBlank(b)
    ensures a + b != [] && LastBlank(a + b)
  {
    if b == [] { assert a + b == a; }
  }

  lemma {:induction false} ActivitiesEndBlank(acts: seq<Activity>)
    ensures LastBlank(ActivitiesBody(acts))
  {
  }

  /** Every part of the export ends with a blank line. */
  lemma EndsBlank(p: LessonPlan)
    ensures var r := HeaderLines(p)
      + ListSection("Objectives", p.objectives)
      + ListSection("Materials Needed", p.materialsNeeded)
      + TextSection("Introduction", p.introduction)
      + ActivitiesSection(p.mainActivities)
      + TextSection("Assessment", p.assessment)
      + TextSection("Differentiation", p.differentiation)
      + TextSection("Closure", p.closure)
      + TextSection("Homework", p.homework);
      |r| >= 4 && r[|r| - 1] == ""
  {
    var h := HeaderLines(p);
    var a1 := h + ListSection("Objectives", p.objectives);
    BlankConcat(h, ListSection("Objectives", p.objectives));
    var a2 := a1 + ListSection("Materials Needed", p.materialsNeeded);
    BlankConcat(a1, ListSection("Materials Needed", p.materialsNeeded));
    var a3 := a2 + TextSection("Introduction", p.introduction);
    BlankConcat(a2, TextSection("Introduction", p.introduction));
    ActivitiesEndBlank(p.mainActivities);
    var a4 := a3 + ActivitiesSection(p.mainActivities);
    BlankConcat(a3, ActivitiesSection(p.mainActivities));
    var a5 := a4 + TextSection("Assessment", p.assessment);
    BlankConcat(a4, TextSection("Assessment", p.assessment));
    var a6 := a5 + TextSection("Differentiation", p.differentiation);
    BlankConcat(a5, TextSection("Differentiation", p.differentiation));
    var a7 := a6 + TextSection("Closure", p.closure);
    BlankConcat(a6, TextSection("Closure", p.closure));
    BlankConcat(a7, TextSection("Homework", p.homework));
  }

  /** `lines.push(`- ${item}`)` for every item. */
  method PushBullets(lines: seq<string>, items: seq<string>) returns (out: seq<string>)
    ensures out == lines + Bullets(items)
  {
    out := lines;
    for i := 0 to |items|
      invariant out == lines + Bullets(items[..i])
    {
      assert items[..i + 1][..i] == items[..i];
      out := out + ["- " + items[i]];
    }
    assert items[..|items|] == items;
  }

  /** The body of the `forEach`: the pushes for activity number `k`. */
  method PushActivity(lines: seq<string>, k: nat, a: Activity) returns (out: seq<string>)
    ensures out == lines + ActivityLines(k, a)
  {
    out := lines;
    out := out + ["### Activity " + NatToString(k) + ": " + a.activity.GetOr("Activity")];
    if a.time.Some? && a.time.value != 0 {
      out := out + ["Time: " + IntToString(a.time.value) + " min"];
    }
    if a.description != "" {
      out := out + [a.description];
    }
    out := out + [""];
  }

  /** `plan.main_activities.forEach((a, i) => …)` */
  method PushActivities(lines: seq<string>, acts: seq<Activity>) returns (out: seq<string>)
    ensures out == lines + ActivitiesBody(acts)
  {
    out := lines;
    for i := 0 to |acts|
      invariant out == lines + ActivitiesBody(acts[..i])
    {
      assert acts[..i + 1][..i] == acts[..i];
      out := PushActivity(out, i + 1, acts[i]);
    }
    assert acts[..|acts|] == acts;
  }

  /** `push` a list section when its list is a non-empty array. */
  method PushList(lines: seq<string>, name: string, items: seq<string>) returns (out: seq<string>)
    ensures out == lines + ListSection(name, items)
  {
    out := lines;
    if items != [] {
      out := out + ["## " + name];
      out := PushBullets(out, items);
      out := out + [""];
    }
  }

  /** `push` a text section when its text is truthy. */
  method PushText(lines: seq<string>, name: string, text: string) returns (out: seq<string>)
    ensures out == lines + TextSection(name, text)
  {
    out := lines;
    if text != "" {
      out := out + ["## " + name];
      out := out + [text];
      out := out + [""];
    }
  }

  /** The first pushes of `planToMarkdown`: title, subject, grade, topic, duration and a
      blank line. */
  method PushHeader(lines: seq<string>, plan: LessonPlan) returns (out: seq<string>)
    ensures out == lines + HeaderLines(plan)
  {
    out := lines;
    out := out + ["# " + plan.title.GetOr(plan.subject + " - " + plan.topic) + "\n"];
    out := out + ["Subject: " + plan.subject];
    out := out + ["Grade: " + plan.gradeLevel];
    if plan.topic != "" { out := out + ["Topic: " + plan.topic]; }
    if plan.duration.Some? && plan.duration.value != 0 {
      out := out + ["Duration: " + IntToString(plan.duration.value) + " minutes"];
    }
    out := out + [""];
  }

  /** The "Main Activities" heading and the activities, when there are any. */
  method PushActivitiesSection(lines: seq<string>, acts: seq<Activity>) returns (out: seq<string>)
    ensures out == lines + ActivitiesSection(acts)
  {
    out := lines;
    if acts != [] {
      out := out + [SectionHeading("Main Activities")];
      out := PushActivities(out, acts);
    }
  }

  /** `planToMarkdown(plan)`: builds the lines one push at a time and joins them. */
  method PlanToMarkdown(plan: LessonPlan) returns (md: string)
    ensures md == Markdown(plan)
  {
    var lines: seq<string> := [];
    lines := PushHeader(lines, plan);
    assert lines == HeaderLines(plan);
    lines := PushList(lines, "Objectives", plan.objectives);
    lines := PushList(lines, "Materials Needed", plan.materialsNeeded);
    lines := PushText(lines, "Introduction", plan.introduction);
    lines := PushActivitiesSection(lines, plan.mainActivities);
    lines := PushText(lines, "Assessment", plan.assessment);
    lines := PushText(lines, "Differentiation", plan.differentiation);
    lines := PushText(lines, "Closure", plan.closure);
    lines := PushText(lines, "Homework", plan.homework);
    md := Join(lines, "\n");
  }

  /** The export opens with the title line, a blank line, and the subject and grade lines;
      the title is the plan's own when it has one (even ""), else "<subject> - <topic>". */
  lemma MarkdownStarts(p: LessonPlan)
    ensures var pre := "# " + Heading(p) + "\n" + "\n" + "Subject: " + p.subject + "\n" + "Grade: " + p.gradeLevel;
      |pre| <= |Markdown(p)| && Markdown(p)[..|pre|] == pre
    ensures p.title.Some? ==> Heading(p) == p.title.value
    ensures p.title.None? ==> Heading(p) == p.subject + " - " + p.topic
  {
    var lines := MarkdownLines(p);
    var first := ["# " + Heading(p) + "\n", "Subject: " + p.subject, "Grade: " + p.gradeLevel];
    var rest := lines[3..];
    assert lines == first + rest;
    assert rest != [] by { assert lines[|lines| - 1] == "" || |lines| > 3; }
    JoinAppend(first, rest, "\n");
    assert first[1..] == [first[1], first[2]];
    assert [first[1], first[2]][1..] == [first[2]];
    assert Join([first[2]], "\n") == first[2];
    assert Join([first[1], first[2]], "\n") == first[1] + "\n" + first[2];
    assert Join(first, "\n") == first[0] + "\n" + (first[1] + "\n" + first[2]);
    var pre := "# " + Heading(p) + "\n" + "\n" + "Subject: " + p.subject + "\n" + "Grade: " + p.gradeLevel;
    assert pre == Join(first, "\n");
  }

  /** The lines of `lines` that start with `prefix`, in order. */
  function LinesWith(lines: seq<string>, prefix: string): (r: seq<string>)
    ensures |r| <= |lines|
  {
    if lines == [] then []
    else (if StartsWith(lines[0], prefix) then [lines[0]] else []) + LinesWith(lines[1..], prefix)
  }

  lemma {:induction false} LinesWithAppend(a: seq<string>, b: seq<string>, prefix: string)
    ensures LinesWith(a + b, prefix) == LinesWith(a, prefix) + LinesWith(b, prefix)
  {
    if a == [] {
      assert a + b == b;
    } else {
      var h := if StartsWith(a[0], prefix) then [a[0]] else [];
      assert (a + b)[0] == a[0];
      assert (a + b)[1..] == a[1..] + b;
      assert LinesWith(a + b, prefix) == h + LinesWith(a[1..] + b, prefix);
      LinesWithAppend(a[1..], b, prefix);
      assert h + (LinesWith(a[1..], prefix) + LinesWith(b, prefix))
          == (h + LinesWith(a[1..], prefix)) + LinesWith(b, prefix);
    }
  }

  lemma {:induction false} LinesWithNone(lines: seq<string>, prefix: string)
    requires forall i :: 0 <= i < |lines| ==> !StartsWith(lines[i], prefix)
    ensures LinesWith(lines, prefix) == []
  {
    if lines != [] { LinesWithNone(lines[1..], prefix); }
  }

  /** A string starts with what was put in front of it. */
  lemma PrefixStarts(prefix: string, s: string)
    ensures StartsWith(prefix + s, prefix)
  {
    assert (prefix + s)[..|prefix|] == prefix;
  }

  /** One differing character rules a prefix out. */
  lemma CharRulesOut(s: string, prefix: string, i: nat)
    requires i < |prefix| && i < |s| && s[i] != prefix[i]
    ensures !StartsWith(s, prefix)
  {
    if |prefix| <= |s| { assert s[..|prefix|][i] == s[i]; }
  }

  /** The header lines split into the fixed ones and the optional ones. */
  lemma HeaderLinesWith(p: LessonPlan, prefix: string)
    requires prefix != []
    ensures var topic := if p.topic != "" then ["Topic: " + p.topic] else [];
      var dur := if NumberTruthy(p.duration) then ["Duration: " + IntToString(p.duration.value) + " minutes"] else [];
      LinesWith(HeaderLines(p), prefix)
        == LinesWith(["# " + Heading(p) + "\n"], prefix) + (LinesWith(["Subject: " + p.subject], prefix)
         + (LinesWith(["Grade: " + p.gradeLevel], prefix) + (LinesWith(topic, prefix)
         + LinesWith(dur, prefix))))
  {
    var h0, h1, h2 := ["# " + Heading(p) + "\n"], ["Subject: " + p.subject], ["Grade: " + p.gradeLevel];
    var topic := if p.topic != "" then ["Topic: " + p.topic] else [];
    var dur := if NumberTruthy(p.duration) then ["Duration: " + IntToString(p.duration.value) + " minutes"] else [];
    assert HeaderLines(p) == h0 + (h1 + (h2 + (topic + (dur + [""]))));
    LinesWithAppend(h0, h1 + (h2 + (topic + (dur + [""]))), prefix);
    LinesWithAppend(h1, h2 + (topic + (dur + [""])), prefix);
    LinesWithAppend(h2, topic + (dur + [""]), prefix);
    LinesWithAppend(topic, dur + [""], prefix);
    LinesWithAppend(dur, [""], prefix);
    assert LinesWith([""], prefix) == [];
  }

  /** The Topic line is written exactly when the topic is truthy. */
  lemma TopicLine(p: LessonPlan)
    ensures LinesWith(HeaderLines(p), "Topic: ") == (if p.topic != "" then ["Topic: " + p.topic] else [])
  {
    HeaderLinesWith(p, "Topic: ");
    CharRulesOut("# " + Heading(p) + "\n", "Topic: ", 0);
    CharRulesOut("Subject: " + p.subject, "Topic: ", 0);
    CharRulesOut("Grade: " + p.gradeLevel, "Topic: ", 0);
    PrefixStarts("Topic: ", p.topic);
    if NumberTruthy(p.duration) {
      CharRulesOut("Duration: " + IntToString(p.duration.value) + " minutes", "Topic: ", 0);
    }
  }

  /** The Duration line is written exactly when the duration is truthy. */
  lemma DurationLine(p: LessonPlan)
    ensures |LinesWith(HeaderLines(p), "Duration: ")| == (if NumberTruthy(p.duration) then 1 else 0)
  {
    HeaderLinesWith(p, "Duration: ");
    CharRulesOut("# " + Heading(p) + "\n", "Duration: ", 0);
    CharRulesOut("Subject: " + p.subject, "Duration: ", 0);
    CharRulesOut("Grade: " + p.gradeLevel, "Duration: ", 0);
    if p.topic != "" { CharRulesOut("Topic: " + p.topic, "Duration: ", 0); }
    if NumberTruthy(p.duration) {
      PrefixStarts("Duration: ", IntToString(p.duration.value) + " minutes");
      assert "Duration: " + IntToString(p.duration.value) + " minutes"
          == "Duration: " + (IntToString(p.duration.value) + " minutes");
    }
  }

  /** An activity's Time line is written exactly when its time is truthy. */
  lemma TimeLine(k: nat, a: Activity)
    requires !StartsWith(a.description, "Time: ")
    ensures |LinesWith(ActivityLines(k, a), "Time: ")| == (if NumberTruthy(a.time) then 1 else 0)
  {
    var head := ["### Activity " + NatToString(k) + ": " + a.activity.GetOr("Activity")];
    var time := if NumberTruthy(a.time) then ["Time: " + IntToString(a.time.value) + " min"] else [];
    var desc := if a.description != "" then [a.description] else [];
    assert ActivityLines(k, a) == head + time + desc + [""];
    LinesWithAppend(head, time, "Time: ");
    LinesWithAppend(head + time, desc, "Time: ");
    LinesWithAppend(head + time + desc, [""], "Time: ");
    CharRulesOut(head[0], "Time: ", 0);
    if NumberTruthy(a.time) {
      PrefixStarts("Time: ", IntToString(a.time.value) + " min");
      assert time[0] == "Time: " + (IntToString(a.time.value) + " min");
    }
  }

  /** No header line is a section heading. */
  lemma HeaderHasNoSection(p: LessonPlan)
    ensures LinesWith(HeaderLines(p), "## ") == []
  {
    HeaderLinesWith(p, "## ");
    CharRulesOut("# " + Heading(p) + "\n", "## ", 1);
    CharRulesOut("Subject: " + p.subject, "## ", 0);
    CharRulesOut("Grade: " + p.gradeLevel, "## ", 0);
    if p.topic != "" { CharRulesOut("Topic: " + p.topic, "## ", 0); }
    if NumberTruthy(p.duration) {
      CharRulesOut("Duration: " + IntToString(p.duration.value) + " minutes", "## ", 0);
    }
  }

  /** A text that does not start with '#' starts with no heading marker. */
  lemma NoHashNoHeading(text: string, marker: string)
    requires !StartsWith(text, "#") && marker != [] && marker[0] == '#'
    ensures !StartsWith(text, marker)
  {
    if |marker| <= |text| { assert text[..|marker|][..1] == text[..1]; }
  }

  /** No free text of the plan starts with '#', so none of it can pass for a heading. */
  predicate NoHashText(p: LessonPlan) {
    && !StartsWith(p.introduction, "#") && !StartsWith(p.assessment, "#")
    && !StartsWith(p.differentiation, "#") && !StartsWith(p.closure, "#") && !StartsWith(p.homework, "#")
    && forall k :: 0 <= k < |p.mainActivities| ==> !StartsWith(p.mainActivities[k].description, "#")
  }

  /** `[heading]` when `present`, else nothing. */
  function Present(present: bool, heading: string): seq<string> {
    if present then [heading] else []
  }

  /** The section headings a plan gets, in the fixed order of the export. */
  function PresentSections(p: LessonPlan): seq<string> {
    Present(p.objectives != [], SectionHeading("Objectives"))
    + Present(p.materialsNeeded != [], SectionHeading("Materials Needed"))
    + Present(p.introduction != "", SectionHeading("Introduction"))
    + Present(p.mainActivities != [], SectionHeading("Main Activities"))
    + Present(p.assessment != "", SectionHeading("Assessment"))
    + Present(p.differentiation != "", SectionHeading("Differentiation"))
    + Present(p.closure != "", SectionHeading("Closure"))
    + Present(p.homework != "", SectionHeading("Homework"))
  }

  /** The heading of activity `k` (counted from 0). */
  function ActivityHeading(k: nat, a: Activity): string {
    "### Activity " + NatToString(k + 1) + ": " + a.activity.GetOr("Activity")
  }

  /** The lines of an activity after its heading: none of them starts with '#'. */
  lemma ActivityTail(k: nat, a: Activity, marker: string)
    requires !StartsWith(a.description, "#") && marker != [] && marker[0] == '#'
    ensures ActivityLines(k, a)[0] == "### Activity " + NatToString(k) + ": " + a.activity.GetOr("Activity")
    ensures LinesWith(ActivityLines(k, a)[1..], marker) == []
  {
    var tail := ActivityLines(k, a)[1..];
    forall i | 0 <= i < |tail| ensures !StartsWith(tail[i], marker) {
      if tail[i] == a.description {
        NoHashNoHeading(a.description, marker);
      } else if tail[i] != "" {
        CharRulesOut(tail[i], marker, 0);
      }
    }
    LinesWithNone(tail, marker);
  }

  /** The only `### ` line of an activity is its heading. */
  lemma ActivityHeadingLine(n: nat, a: Activity)
    requires !StartsWith(a.description, "#")
    ensures LinesWith(ActivityLines(n + 1, a), "### ") == [ActivityHeading(n, a)]
  {
    var lines := ActivityLines(n + 1, a);
    ActivityTail(n + 1, a, "### ");
    assert lines == [lines[0]] + lines[1..];
    var rest := NatToString(n + 1) + ": " + a.activity.GetOr("Activity");
    assert lines[0] == "### Activity " + rest;
    assert StartsWith("### Activity ", "### ");
    LongerStillStarts("### Activity ", rest, "### ");
    LinesWithAppend([lines[0]], lines[1..], "### ");
  }

  lemma LongerStillStarts(s: string, t: string, prefix: string)
    requires StartsWith(s, prefix)
    ensures StartsWith(s + t, prefix)
  {
    assert (s + t)[..|prefix|] == s[..|prefix|];
  }

  /** In the activities, the `### ` lines are the activity headings, numbered from 1 in list
      order. */
  lemma {:induction false} ActivityNumbering(acts: seq<Activity>)
    requires forall k :: 0 <= k < |acts| ==> !StartsWith(acts[k].description, "#")
    ensures var h := LinesWith(ActivitiesBody(acts), "### ");
      |h| == |acts| && forall k :: 0 <= k < |acts| ==> h[k] == ActivityHeading(k, acts[k])
  {
    if acts != [] {
      var n := |acts| - 1;
      var init := acts[..n];
      ActivityNumbering(init);
      ActivityHeadingLine(n, acts[n]);
      LinesWithAppend(ActivitiesBody(init), ActivityLines(n + 1, acts[n]), "### ");
    }
  }

  /** No line of the activities is a section heading. */
  lemma {:induction false} ActivitiesHaveNoSection(acts: seq<Activity>)
    requires forall k :: 0 <= k < |acts| ==> !StartsWith(acts[k].description, "#")
    ensures LinesWith(ActivitiesBody(acts), "## ") == []
  {
    if acts != [] {
      var n := |acts| - 1;
      var init, a := acts[..n], acts[n];
      ActivitiesHaveNoSection(init);
      var lines := ActivityLines(n + 1, a);
      ActivityTail(n + 1, a, "## ");
      assert lines == [lines[0]] + lines[1..];
      CharRulesOut(lines[0], "## ", 2);
      LinesWithAppend([lines[0]], lines[1..], "## ");
      LinesWithAppend(ActivitiesBody(init), lines, "## ");
    }
  }

  /** The `## ` lines of the activities section: its heading when present, nothing else. */
  lemma ActivitiesSectionHeadings(acts: seq<Activity>)
    requires forall k :: 0 <= k < |acts| ==> !StartsWith(acts[k].description, "#")
    ensures LinesWith(ActivitiesSection(acts), "## ") == Present(acts != [], SectionHeading("Main Activities"))
  {
    ActivitiesHaveNoSection(acts);
    if acts != [] {
      LinesWithAppend([SectionHeading("Main Activities")], ActivitiesBody(acts), "## ");
      PrefixStarts("## ", "Main Activities");
    }
  }

  /** The `## ` lines of a list section: its heading when present, nothing else. */
  lemma ListSectionHeadings(name: string, items: seq<string>)
    ensures LinesWith(ListSection(name, items), "## ") == Present(items != [], SectionHeading(name))
  {
    if items != [] {
      var b := Bullets(items) + [""];
      forall i | 0 <= i < |b| ensures !StartsWith(b[i], "## ") {
        if i < |items| { CharRulesOut(b[i], "## ", 0); }
      }
      LinesWithNone(b, "## ");
      LinesWithAppend([SectionHeading(name)], b, "## ");
      assert ListSection(name, items) == [SectionHeading(name)] + b;
      PrefixStarts("## ", name);
    }
  }

  /** The `## ` lines of a text section: its heading when present, nothing else. */
  lemma TextSectionHeadings(name: string, text: string)
    requires !StartsWith(text, "#")
    ensures LinesWith(TextSection(name, text), "## ") == Present(text != "", SectionHeading(name))
  {
    if text != "" {
      PrefixStarts("## ", name);
      NoHashNoHeading(text, "## ");
      LinesWithAppend([SectionHeading(name)], [text, ""], "## ");
      LinesWithAppend([text], [""], "## ");
      assert [text, ""] == [text] + [""];
      assert TextSection(name, text) == [SectionHeading(name)] + [text, ""];
    }
  }

  /** `LinesWith` taken section by section. */
  lemma MarkdownLinesWith(p: LessonPlan, prefix: string)
    ensures LinesWith(MarkdownLines(p), prefix)
      == LinesWith(HeaderLines(p), prefix)
       + LinesWith(ListSection("Objectives", p.objectives), prefix)
       + LinesWith(ListSection("Materials Needed", p.materialsNeeded), prefix)
       + LinesWith(TextSection("Introduction", p.introduction), prefix)
       + LinesWith(ActivitiesSection(p.mainActivities), prefix)
       + LinesWith(TextSection("Assessment", p.assessment), prefix)
       + LinesWith(TextSection("Differentiation", p.differentiation), prefix)
       + LinesWith(TextSection("Closure", p.closure), prefix)
       + LinesWith(TextSection("Homework", p.homework), prefix)
  {
    var h := HeaderLines(p);
    var o := ListSection("Objectives", p.objectives);
    var m := ListSection("Materials Needed", p.materialsNeeded);
    var intro := TextSection("Introduction", p.introduction);
    var acts := ActivitiesSection(p.mainActivities);
    var asmt := TextSection("Assessment", p.assessment);
    var diff := TextSection("Differentiation", p.differentiation);
    var clos := TextSection("Closure", p.closure);
    var home := TextSection("Homework", p.homework);
    LinesWithAppend(h, o, prefix);
    LinesWithAppend(h + o, m, prefix);
    LinesWithAppend(h + o + m, intro, prefix);
    LinesWithAppend(h + o + m + intro, acts, prefix);
    LinesWithAppend(h + o + m + intro + acts, asmt, prefix);
    LinesWithAppend(h + o + m + intro + acts + asmt, diff, prefix);
    LinesWithAppend(h + o + m + intro + acts + asmt + diff, clos, prefix);
    LinesWithAppend(h + o + m + intro + acts + asmt + diff + clos, home, prefix);
  }

  lemma Concat9<T>(x: seq<T>, a0: seq<T>, a1: seq<T>, a2: seq<T>, a3: seq<T>, a4: seq<T>,
                   a5: seq<T>, a6: seq<T>, a7: seq<T>)
    requires x == []
    ensures x + a0 + a1 + a2 + a3 + a4 + a5 + a6 + a7 == a0 + a1 + a2 + a3 + a4 + a5 + a6 + a7
  {
  }

  /** The sections appear in the fixed order Objectives, Materials Needed, Introduction,
      Main Activities, Assessment, Differentiation, Closure, Homework, each exactly when its
      field is present: the `## ` lines of the export are `PresentSections`. */
  lemma SectionOrder(p: LessonPlan)
    requires NoHashText(p)
    ensures LinesWith(MarkdownLines(p), "## ") == PresentSections(p)
  {
    HeaderHasNoSection(p);
    ListSectionHeadings("Objectives", p.objectives);
    ListSectionHeadings("Materials Needed", p.materialsNeeded);
    TextSectionHeadings("Introduction", p.introduction);
    ActivitiesSectionHeadings(p.mainActivities);
    TextSectionHeadings("Assessment", p.assessment);
    TextSectionHeadings("Differentiation", p.differentiation);
    TextSectionHeadings("Closure", p.closure);
    TextSectionHeadings("Homework", p.homework);
    SectionsCombine(p);
  }

  /** The headings of the whole export, from the headings of each section. */
  lemma SectionsCombine(p: LessonPlan)
    requires LinesWith(HeaderLines(p), "## ") == []
    requires LinesWith(ListSection("Objectives", p.objectives), "## ")
          == Present(p.objectives != [], SectionHeading("Objectives"))
    requires LinesWith(ListSection("Materials Needed", p.materialsNeeded), "## ")
          == Present(p.materialsNeeded != [], SectionHeading("Materials Needed"))
    requires LinesWith(TextSection("Introduction", p.introduction), "## ")
          == Present(p.introduction != "", SectionHeading("Introduction"))
    requires LinesWith(ActivitiesSection(p.mainActivities), "## ")
          == Present(p.mainActivities != [], SectionHeading("Main Activities"))
    requires LinesWith(TextSection("Assessment", p.assessment), "## ")
          == Present(p.assessment != "", SectionHeading("Assessment"))
    requires LinesWith(TextSection("Differentiation", p.differentiation), "## ")
          == Present(p.differentiation != "", SectionHeading("Differentiation"))
    requires LinesWith(TextSection("Closure", p.closure), "## ")
          == Present(p.closure != "", SectionHeading("Closure"))
    requires LinesWith(TextSection("Homework", p.homework), "## ")
          == Present(p.homework != "", SectionHeading("Homework"))
    ensures LinesWith(MarkdownLines(p), "## ") == PresentSections(p)
  {
    MarkdownLinesWith(p, "## ");
    Concat9(LinesWith(HeaderLines(p), "## "), Present(p.objectives != [], SectionHeading("Objectives")),
            Present(p.materialsNeeded != [], SectionHeading("Materials Needed")),
            Present(p.introduction != "", SectionHeading("Introduction")),
            Present(p.mainActivities != [], SectionHeading("Main Activities")),
            Present(p.assessment != "", SectionHeading("Assessment")),
            Present(p.differentiation != "", SectionHeading("Differentiation")),
            Present(p.closure != "", SectionHeading("Closure")),
            Present(p.homework != "", SectionHeading("Homework")));
  }

  /** The list sections write one `- item` line per item, in order, below their heading. */
  lemma ListSectionLines(name: string, items: seq<string>)
    requires items != []
    ensures var s := ListSection(name, items);
      |s| == |items| + 2 && s[0] == "## " + name && s[|s| - 1] == ""
      && forall i :: 0 <= i < |items| ==> s[i + 1] == "- " + items[i]
  {
  }

  /** Falsy values of different kinds print the same: an absent duration and a zero
      duration, an absent time and a zero time. */
  lemma FalsyNumbersPrintAlike(p: LessonPlan, k: nat, a: Activity)
    ensures Markdown(p.(duration := Some(0))) == Markdown(p.(duration := None))
    ensures ActivityLines(k, a.(time := Some(0))) == ActivityLines(k, a.(time := None))
  {
  }

  // ---------------------------------------------------------------------------------------
  // The download's file name

  /** `s.replace(/\s+/g, "-")`: every maximal run of white space becomes one "-". */
  function CollapseWhitespace(s: string): (r: string)
    ensures NoWhitespace(r) && |r| <= |s|
    decreases |s|
  {
    if s == [] then []
    else if IsWhitespace(s[0]) then "-" + CollapseWhitespace(TrimStart(s))
    else [s[0]] + CollapseWhitespace(s[1..])
  }

  /** A string without white space is left as it is. */
  lemma {:induction false} CollapseKeepsPlainText(s: string)
    requires NoWhitespace(s)
    ensures CollapseWhitespace(s) == s
  {
    if s != [] { CollapseKeepsPlainText(s[1..]); }
  }

  /** Collapsing twice is collapsing once. */
  lemma CollapseIdempotent(s: string)
    ensures CollapseWhitespace(CollapseWhitespace(s)) == CollapseWhitespace(s)
  {
    CollapseKeepsPlainText(CollapseWhitespace(s));
  }

  /** A non-empty run of white space between a word and the rest becomes exactly one "-". */
  lemma {:induction false} CollapseRun(word: string, run: string, rest: string)
    requires NoWhitespace(word) && run != [] && AllWhitespace(run)
    requires rest == [] || !IsWhitespace(rest[0])
    ensures CollapseWhitespace(word + run + rest) == word + "-" + CollapseWhitespace(rest)
  {
    if word == [] {
      assert word + run + rest == run + rest;
      TrimStartRun(run, rest);
    } else {
      assert (word + run + rest)[1..] == word[1..] + run + rest;
      CollapseRun(word[1..], run, rest);
    }
  }

  lemma {:induction false} TrimStartRun(run: string, rest: string)
    requires AllWhitespace(run)
    requires rest == [] || !IsWhitespace(rest[0])
    ensures TrimStart(run + rest) == rest
  {
    if run != [] {
      assert (run + rest)[1..] == run[1..] + rest;
      TrimStartRun(run[1..], rest);
    }
  }

  /** `plan.title ?? `${plan.subject}-${plan.topic}``. The further `?? "lesson-plan"` can
      never apply: a template literal is never null. */
  function FileBase(p: LessonPlan): string {
    p.title.GetOr(p.subject + "-" + p.topic)
  }

  /** The name `downloadLessonPlan` gives the file. */
  function FileName(p: LessonPlan): (r: string)
    ensures NoWhitespace(r) && |r| >= 3 && r[|r| - 3..] == ".md"
    ensures r == CollapseWhitespace(FileBase(p)) + ".md"
  {
    var r := CollapseWhitespace(FileBase(p)) + ".md";
    assert r[|r| - 3..] == ".md";
    r
  }

  /** The name of an untitled plan is built from its subject and topic, joined by "-". */
  lemma UntitledFileName(p: LessonPlan)
    requires p.title.None? && NoWhitespace(p.subject) && NoWhitespace(p.topic)
    ensures FileName(p) == p.subject + "-" + p.topic + ".md"
  {
    var b := p.subject + "-" + p.topic;
    assert NoWhitespace(b) by {
      forall i | 0 <= i < |b| ensures !IsWhitespace(b[i]) {
        if i < |p.subject| { assert b[i] == p.subject[i]; }
        else if i > |p.subject| { assert b[i] == p.topic[i - |p.subject| - 1]; }
      }
    }
    CollapseKeepsPlainText(b);
  }

  // ---------------------------------------------------------------------------------------
  // The local history

  const HistoryLimit := 50

  /** `{ id, created_at, plan }`; the identifier and the time stamp come from the browser. */
  datatype LocalEntry = LocalEntry(id: string, createdAt: string, plan: LessonPlan)

  /** What `localStorage` holds under the history key: nothing yet (read as `"[]"`), text
      that does not parse as a JSON list, or the entries. */
  datatype StoredHistory = Missing | Unreadable | Entries(entries: seq<LocalEntry>)

  /** `[toStore, ...existing].slice(0, 50)` */
  function Prepend(entry: LocalEntry, existing: seq<LocalEntry>): (r: seq<LocalEntry>)
    ensures |r| == Min(HistoryLimit, |existing| + 1) && r[0] == entry
    ensures r[1..] == existing[..|r| - 1]
  {
    var all := [entry] + existing;
    var r := all[..Min(HistoryLimit, |all|)];
    assert r[1..] == existing[..|r| - 1];
    r
  }


  /** `storeLocalLessonPlan`: the list that is written back and shown, or `None` when the
      stored text cannot be read or the write fails, which the `catch` swallows. */
  function StoreLocal(stored: StoredHistory, entry: LocalEntry, writeOk: bool): (r: Option<seq<LocalEntry>>)
    ensures r.Some? <==> !stored.Unreadable? && writeOk
    ensures stored.Missing? && writeOk ==> r == Some([entry])
    ensures stored.Entries? && writeOk ==> r == Some(Prepend(entry, stored.entries))
  {
    match stored
    case Unreadable => None
    case Missing => if writeOk then Some(Prepend(entry, [])) else None
    case Entries(existing) => if writeOk then Some(Prepend(entry, existing)) else None
  }

  /** The history is most recent first and never longer than 50: storing keeps both facts,
      an entry moves down one place per store, and the oldest of a full list drops out. */
  lemma HistoryBounded(existing: seq<LocalEntry>, entry: LocalEntry, k: nat)
    requires |existing| <= HistoryLimit
    ensures |Prepend(entry, existing)| <= HistoryLimit
    ensures |existing| < HistoryLimit ==> Prepend(entry, existing) == [entry] + existing
    ensures k < HistoryLimit - 1 && k < |existing| ==> Prepend(entry, existing)[k + 1] == existing[k]
    ensures |existing| == HistoryLimit ==> Prepend(entry, existing)[1..] == existing[..HistoryLimit - 1]
  {
  }

  /** Two stores in a row put the later plan first and the earlier one second. */
  lemma StoreTwice(existing: seq<LocalEntry>, e1: LocalEntry, e2: LocalEntry)
    ensures var h := Prepend(e2, Prepend(e1, existing));
      h[0] == e2 && h[1] == e1 && |h| == Min(HistoryLimit, |existing| + 2)
  {
  }

  // ---------------------------------------------------------------------------------------
  // The merge in handleGeneratePlan

  /** What the lesson form submits. */
  datatype LessonForm = LessonForm(subject: string, gradeLevel: string, topic: string, duration: int)

  /** What the generator returns: the plan's fields, with any of the form's fields it
      happens to echo. */
  datatype GeneratedPlan = GeneratedPlan(
    title: Option<string>,
    subject: Option<string>, gradeLevel: Option<string>, topic: Option<string>, duration: Option<int>,
    objectives: seq<string>, materialsNeeded: seq<string>, introduction: string,
    mainActivities: seq<Activity>, assessment: string, differentiation: string,
    closure: string, homework: string)

  /** `{ ...data, ...formData }` */
  function FullPlan(data: GeneratedPlan, form: LessonForm): (r: LessonPlan)
    ensures r.subject == form.subject && r.gradeLevel == form.gradeLevel
    ensures r.topic == form.topic && r.duration == Some(form.duration)
    ensures r.title == data.title && r.objectives == data.objectives
    ensures r.materialsNeeded == data.materialsNeeded && r.introduction == data.introduction
    ensures r.mainActivities == data.mainActivities && r.assessment == data.assessment
    ensures r.differentiation == data.differentiation && r.closure == data.closure
    ensures r.homework == data.homework
  {
    LessonPlan(data.title, form.subject, form.gradeLevel, form.topic, Some(form.duration),
               data.objectives, data.materialsNeeded, data.introduction, data.mainActivities,
               data.assessment, data.differentiation, data.closure, data.homework)
  }

  /** The form wins: whatever the generator echoes for the form's fields is ignored. */
  lemma FormWins(data: GeneratedPlan, form: LessonForm, s: Option<string>, g: Option<string>,
                 t: Option<string>, d: Option<int>)
    ensures FullPlan(data.(subject := s, gradeLevel := g, topic := t, duration := d), form)
         == FullPlan(data, form)
  {
  }

  /** An untitled generated plan is exported under "<subject> - <topic>" of the form, and
      its file is named after the same two fields. */
  lemma UntitledPlanUsesForm(data: GeneratedPlan, form: LessonForm)
    requires data.title.None?
    ensures Heading(FullPlan(data, form)) == form.subject + " - " + form.topic
    ensures FileName(FullPlan(data, form)) == CollapseWhitespace(form.subject + "-" + form.topic) + ".md"
  {
  }
}
