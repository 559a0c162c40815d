/**
 * The course grade engine of the course card (src/components/calculator/CourseCard.tsx):
 * the grade option tables, `recalculateCourse` (re-derivation of wgp, final grade point and
 * letter from the assessments), and the edit handlers that produce the next course record.
 */
module CourseCard {
  import opened Wrappers
  import opened Calculator
  import opened Strings

  datatype GradeOption = GradeOption(grade: string, value: int)

  /** Sessional options; "P", "I" and "Ab/R" carry no value of their own (-1). */
  const SessionalGradeOptions: seq<GradeOption> := [
    GradeOption("O", 10), GradeOption("A+", 9), GradeOption("A", 8), GradeOption("B+", 7),
    GradeOption("B", 6), GradeOption("C", 5), GradeOption("P", -1), GradeOption("I", -1),
    GradeOption("Ab/R", -1)
  ]

  /** Learning Engagement options; "L/AB" is worth 0 and forces F. */
  const LeGradeOptions: seq<GradeOption> := [
    GradeOption("O", 10), GradeOption("A+", 9), GradeOption("A", 8), GradeOption("B+", 7),
    GradeOption("B", 6), GradeOption("C", 5), GradeOption("P", 4), GradeOption("L/AB", 0)
  ]

  /** The single overall grade of a CLAD course. */
  const CladGradeOptions: seq<GradeOption> := [
    GradeOption("O", 10), GradeOption("A+", 9), GradeOption("A", 8), GradeOption("B+", 7),
    GradeOption("B", 6), GradeOption("C", 5), GradeOption("P", 4), GradeOption("I", 4)
  ]

  /** `getGradeOptions`: the option table shown for an assessment. */
  function GradeOptionsFor(k: Kind): seq<GradeOption> {
    if k == LearningEngagement then LeGradeOptions else SessionalGradeOptions
  }

  /** `options.find(g => g.label === label)`. */
  function FindOption(t: seq<GradeOption>, grade: string): (r: Option<GradeOption>)
    ensures r.Some? ==> r.value in t && r.value.grade == grade
    ensures r.None? <==> forall o :: o in t ==> o.grade != grade
  {
    if t == [] then None else if t[0].grade == grade then Some(t[0]) else FindOption(t[1..], grade)
  }

  /** The option found is the first one with the label. */
  lemma {:induction false} FindOptionAt(t: seq<GradeOption>, grade: string, j: nat)
    requires j < |t| && t[j].grade == grade
    requires forall k :: 0 <= k < j ==> t[k].grade != grade
    ensures FindOption(t, grade) == Some(t[j])
  {
    if j > 0 {
      FindOptionAt(t[1..], grade, j - 1);
    }
  }

  /** Learning Engagement alone is offered "L/AB"; the sessionals alone are offered "I" and "Ab/R". */
  lemma GradeOptionsForKinds(k: Kind)
    ensures (exists o :: o in GradeOptionsFor(k) && o.grade == "L/AB") <==> k == LearningEngagement
    ensures (exists o :: o in GradeOptionsFor(k) && o.grade == "I") <==> k != LearningEngagement
    ensures (exists o :: o in GradeOptionsFor(k) && o.grade == "Ab/R") <==> k != LearningEngagement
  {
    if k == LearningEngagement {
      assert LeGradeOptions[7].grade == "L/AB";
    } else {
      assert SessionalGradeOptions[7].grade == "I" && SessionalGradeOptions[8].grade == "Ab/R";
    }
  }

  /** `course.name.trim().toLowerCase() === "clad"`. */
  function IsClad(name: string): bool {
    LowerAsciiAll(Trim(name)) == "clad"
  }

  /** A name is CLAD exactly when its trimmed form is four characters that lower-case to "clad". */
  lemma IsCladChars(name: string)
    ensures IsClad(name) <==> |Trim(name)| == 4 && forall k :: 0 <= k < 4 ==> LowerAscii(Trim(name)[k]) == "clad"[k]
  {
    var l := LowerAsciiAll(Trim(name));
    if |Trim(name)| == 4 && forall k :: 0 <= k < 4 ==> LowerAscii(Trim(name)[k]) == "clad"[k] {
      assert forall k :: 0 <= k < 4 ==> l[k] == "clad"[k];
    }
  }

  predicate IsSessional(k: Kind) {
    k == Sessional1 || k == Sessional2
  }

  /** `SPECIAL_SESSIONAL_GRADES.includes(a.gradeLabel || '')`. */
  predicate IsSpecialLabel(l: Option<string>) {
    l.Some? && l.value in SpecialSessionalGrades
  }

  // ---------------------------------------------------------------------------
  // Branch conditions of recalculateCourse

  predicate HasIorAbR(assessments: seq<Assessment>) {
    var s1 := Find(assessments, Sessional1);
    var s2 := Find(assessments, Sessional2);
    LabelIs(s1, "I") || LabelIs(s1, "Ab/R") || LabelIs(s2, "I") || LabelIs(s2, "Ab/R")
  }

  predicate HasOnlyP(assessments: seq<Assessment>) {
    (LabelIs(Find(assessments, Sessional1), "P") || LabelIs(Find(assessments, Sessional2), "P"))
    && !HasIorAbR(assessments)
  }

  /** Resolution waits: a sessional carries "I" or "Ab/R" and the two marks are not both in. */
  predicate Pending(assessments: seq<Assessment>) {
    HasIorAbR(assessments) && !SessionalTotalMarks(assessments).bothEntered
  }

  /** Two lists that agree on every assessment's name, weight, label and marks. */
  predicate SameEntries(x: seq<Assessment>, y: seq<Assessment>) {
    |x| == |y|
    && forall k :: 0 <= k < |x| ==>
      x[k].kind == y[k].kind && x[k].weight == y[k].weight
      && x[k].gradeLabel == y[k].gradeLabel && x[k].marks == y[k].marks
  }

  lemma {:induction false} FindIndexSameEntries(x: seq<Assessment>, y: seq<Assessment>, k: Kind)
    requires SameEntries(x, y)
    ensures FindIndex(x, k) == FindIndex(y, k)
  {
    if x != [] && x[0].kind != k {
      assert SameEntries(x[1..], y[1..]);
      FindIndexSameEntries(x[1..], y[1..], k);
    }
  }

  /** Everything the branch conditions read is the same on lists with the same entries. */
  lemma SameEntriesAgree(x: seq<Assessment>, y: seq<Assessment>)
    requires SameEntries(x, y)
    ensures HasIorAbR(x) == HasIorAbR(y) && HasOnlyP(x) == HasOnlyP(y)
    ensures SessionalTotalMarks(x) == SessionalTotalMarks(y)
    ensures FCheckDefined(x) == FCheckDefined(y)
    ensures FCheckDefined(x) ==> CheckForFGrade(x) == CheckForFGrade(y)
  {
    FindSameEntries(x, y, Sessional1);
    FindSameEntries(x, y, Sessional2);
    if FCheckDefined(x) {
      CheckSameEntries(x, y);
    }
  }

  /** The forced-F check reads only labels and marks. */
  lemma CheckSameEntries(x: seq<Assessment>, y: seq<Assessment>)
    requires SameEntries(x, y) && FCheckDefined(x) && FCheckDefined(y)
    ensures CheckForFGrade(x) == CheckForFGrade(y)
  {
    FindSameEntries(x, y, Sessional1);
    FindSameEntries(x, y, Sessional2);
    FindSameEntries(x, y, LearningEngagement);
  }

  /** Lists with the same entries find the same label and marks for a kind. */
  lemma FindSameEntries(x: seq<Assessment>, y: seq<Assessment>, k: Kind)
    requires SameEntries(x, y)
    ensures Find(x, k).Some? == Find(y, k).Some?
    ensures Find(x, k).Some? ==>
      (Find(x, k).value.gradeLabel == Find(y, k).value.gradeLabel
       && Find(x, k).value.marks == Find(y, k).value.marks
       && Find(x, k).value.weight == Find(y, k).value.weight)
  {
    FindIndexSameEntries(x, y, k);
  }

  // ---------------------------------------------------------------------------
  // The per-assessment updates of recalculateCourse

  /** A sessional "P" is worth 4 straight away. */
  function ProvisionalP(a: Assessment): Assessment {
    if IsSessional(a.kind) && a.gradeLabel == Some("P") then a.(gradePoint := Some(4)) else a
  }

  /** A sessional special label gets `getSessionalGradePoint(label, total)`. */
  function ResolveSpecial(a: Assessment, total: real): Assessment {
    if IsSessional(a.kind) && IsSpecialLabel(a.gradeLabel)
    then a.(gradePoint := Some(SessionalGradePoint(a.gradeLabel, total)))
    else a
  }

  function MapProvisionalP(assessments: seq<Assessment>): (r: seq<Assessment>)
    ensures |r| == |assessments|
    ensures forall k :: 0 <= k < |r| ==> r[k] == ProvisionalP(assessments[k])
    ensures SameEntries(assessments, r)
  {
    seq(|assessments|, k requires 0 <= k < |assessments| => ProvisionalP(assessments[k]))
  }

  function MapResolve(assessments: seq<Assessment>, total: real): (r: seq<Assessment>)
    ensures |r| == |assessments|
    ensures forall k :: 0 <= k < |r| ==> r[k] == ResolveSpecial(assessments[k], total)
    ensures SameEntries(assessments, r)
  {
    seq(|assessments|, k requires 0 <= k < |assessments| => ResolveSpecial(assessments[k], total))
  }

  // ---------------------------------------------------------------------------
  // Re-derivation

  /** The fields `recalculateCourse` writes back: assessments, wgp, final grade point, letter. */
  datatype Derived = Derived(
    assessments: seq<Assessment>,
    wgp: Option<int>,
    finalGradePoint: Option<int>,
    letterGrade: Option<string>)

  /** `course.hasLab && course.labMarks !== null`: the lab marks that enter the blend, if any. */
  function EffectiveLab(c: Course): Option<real> {
    if c.hasLab && c.labMarks.Some? then c.labMarks else None
  }

  /** The scoring tail shared by every branch: round the WGP up, cap it, blend the lab, band it. */
  function Score(assessments: seq<Assessment>, lab: Option<real>): (d: Derived)
    ensures d.assessments == assessments
    ensures d.wgp.Some? <==> CalculateWgp(assessments).Some?
    ensures d.wgp.None? ==> d.finalGradePoint.None? && d.letterGrade.None?
    ensures d.wgp.Some? ==> d.finalGradePoint.Some? && d.letterGrade.Some?
  {
    var rawWgp := CalculateWgp(assessments);
    if rawWgp.None? then Derived(assessments, None, None, None)
    else
      var wgp := Min(10, Ceil(rawWgp.value));
      var effective := if lab.Some? then CalculateFinalGradePointWithLab(wgp as real, lab.value) else wgp;
      Derived(assessments, Some(wgp), Some(effective), Some(GradeFromWgp(effective as real).letter))
  }

  function ForcedF(assessments: seq<Assessment>): Derived {
    Derived(assessments, Some(0), Some(0), Some("F"))
  }

  /** The branches of `recalculateCourse`, given the lab marks that enter the blend. */
  function Derive(na: seq<Assessment>, lab: Option<real>): (d: Derived)
    ensures SameEntries(na, d.assessments)
    ensures forall k :: 0 <= k < |na| && !IsSessional(na[k].kind) ==> d.assessments[k] == na[k]
  {
    if HasIorAbR(na) then
      var totals := SessionalTotalMarks(na);
      if !totals.bothEntered then
        Derived(MapProvisionalP(na), None, None, None)
      else
        var updated := MapResolve(na, totals.total);
        if CheckForFGrade(na).isF then ForcedF(updated) else Score(updated, lab)
    else if HasOnlyP(na) then
      var updated := MapProvisionalP(na);
      SameEntriesAgree(na, updated);
      if CheckForFGrade(updated).isF then ForcedF(updated) else Score(updated, lab)
    else if CheckForFGrade(na).isF then
      ForcedF(na)
    else
      Score(na, lab)
  }

  /** `recalculateCourse(newAssessments)`: the course with its derived fields re-derived. */
  function Recalculate(c: Course, na: seq<Assessment>): (r: Course)
    ensures r.id == c.id && r.name == c.name && r.credits == c.credits
    ensures r.hasLab == c.hasLab && r.labMarks == c.labMarks
    ensures SameEntries(na, r.assessments)
  {
    var d := Derive(na, EffectiveLab(c));
    c.(assessments := d.assessments, wgp := d.wgp, finalGradePoint := d.finalGradePoint, letterGrade := d.letterGrade)
  }

  /** A course whose derived fields are what re-deriving it from its own assessments gives. */
  predicate Consistent(c: Course) {
    Recalculate(c, c.assessments) == c
  }

  // ---------------------------------------------------------------------------
  // What re-derivation does

  /** The assessments after special-label resolution, as the three branches compute them. */
  function Resolved(na: seq<Assessment>): (r: seq<Assessment>)
    ensures SameEntries(na, r)
  {
    if HasIorAbR(na) then MapResolve(na, SessionalTotalMarks(na).total)
    else if HasOnlyP(na) then MapProvisionalP(na)
    else na
  }

  /** Outside the waiting state the forced-F check is well defined. */
  lemma NotPendingFCheckDefined(na: seq<Assessment>)
    requires !Pending(na)
    ensures FCheckDefined(na)
  {
  }

  /**
   * `recalculateCourse` in three cases: while "I"/"Ab/R" waits for marks nothing is derived;
   * otherwise a forced F wins; otherwise the resolved assessments are scored.
   */
  lemma DeriveCases(na: seq<Assessment>, lab: Option<real>)
    ensures Pending(na) ==> Derive(na, lab) == Derived(MapProvisionalP(na), None, None, None)
    ensures !Pending(na) ==> (FCheckDefined(na)
      && Derive(na, lab) == if CheckForFGrade(na).isF then ForcedF(Resolved(na)) else Score(Resolved(na), lab))
  {
    if !HasIorAbR(na) && HasOnlyP(na) {
      SameEntriesAgree(na, MapProvisionalP(na));
    }
  }

  lemma ProvisionalPIdempotent(s: seq<Assessment>)
    ensures MapProvisionalP(MapProvisionalP(s)) == MapProvisionalP(s)
  {
  }

  lemma ResolveIdempotent(s: seq<Assessment>, total: real)
    ensures MapResolve(MapResolve(s, total), total) == MapResolve(s, total)
  {
  }

  /** Re-deriving what re-derivation produced changes nothing. */
  lemma DeriveIdempotent(na: seq<Assessment>, lab: Option<real>)
    ensures Derive(Derive(na, lab).assessments, lab) == Derive(na, lab)
  {
    var x := Derive(na, lab).assessments;
    SameEntriesAgree(na, x);
    DeriveCases(na, lab);
    DeriveCases(x, lab);
    if HasIorAbR(na) {
      ResolveIdempotent(na, SessionalTotalMarks(na).total);
      ProvisionalPIdempotent(na);
    } else if HasOnlyP(na) {
      ProvisionalPIdempotent(na);
    }
  }

  /** Every course `recalculateCourse` hands on is consistent: re-deriving it again is the identity. */
  lemma RecalculateIsConsistent(c: Course, na: seq<Assessment>)
    ensures Consistent(Recalculate(c, na))
  {
    DeriveIdempotent(na, EffectiveLab(c));
  }

  /** While a sessional "I"/"Ab/R" waits for both marks, wgp, final grade point and letter are
      null, and the only assessment change is that a sessional "P" gets 4. */
  lemma RecalculatePending(c: Course, na: seq<Assessment>)
    requires Pending(na)
    ensures var r := Recalculate(c, na);
      r.wgp.None? && r.finalGradePoint.None? && r.letterGrade.None?
      && |r.assessments| == |na|
      && forall k :: 0 <= k < |na| ==>
        r.assessments[k] == if IsSessional(na[k].kind) && na[k].gradeLabel == Some("P")
                            then na[k].(gradePoint := Some(4)) else na[k]
  {
    DeriveCases(na, EffectiveLab(c));
  }

  /** Once both marks are in, every sessional special label gets `getSessionalGradePoint(label, total)`;
      a sessional "P" without any "I"/"Ab/R" is worth 4 at once. Other assessments are untouched. */
  lemma RecalculateResolvesSpecials(c: Course, na: seq<Assessment>)
    requires !Pending(na)
    ensures var r := Recalculate(c, na); var total := SessionalTotalMarks(na).total;
      |r.assessments| == |na|
      && (HasIorAbR(na) ==> forall k :: 0 <= k < |na| ==>
            r.assessments[k] == if IsSessional(na[k].kind) && IsSpecialLabel(na[k].gradeLabel)
                                then na[k].(gradePoint := Some(SessionalGradePoint(na[k].gradeLabel, total)))
                                else na[k])
      && (HasOnlyP(na) ==> forall k :: 0 <= k < |na| ==>
            r.assessments[k] == if IsSessional(na[k].kind) && na[k].gradeLabel == Some("P")
                                then na[k].(gradePoint := Some(4)) else na[k])
      && (!HasIorAbR(na) && !HasOnlyP(na) ==> r.assessments == na)
  {
    DeriveCases(na, EffectiveLab(c));
  }

  /** A forced F gives wgp 0, final grade point 0 and letter "F", whatever the lab says. */
  lemma RecalculateForcedF(c: Course, na: seq<Assessment>)
    requires !Pending(na) && FCheckDefined(na) && CheckForFGrade(na).isF
    ensures var r := Recalculate(c, na);
      r.wgp == Some(0) && r.finalGradePoint == Some(0) && r.letterGrade == Some("F")
  {
    DeriveCases(na, EffectiveLab(c));
  }

  /** Without a forced F, wgp is the raw WGP rounded up and capped at 10 once every grade point is
      resolved, and wgp, final grade point and letter are all null otherwise. */
  lemma RecalculateWgp(c: Course, na: seq<Assessment>)
    requires !Pending(na) && FCheckDefined(na) && !CheckForFGrade(na).isF
    ensures var r := Recalculate(c, na);
      (r.wgp.Some? <==> |na| > 0 && AllResolved(r.assessments))
      && (r.wgp.Some? ==> (AllResolved(r.assessments)
           && r.wgp.value == Min(10, Ceil(WeightedSum(r.assessments) as real / 100.0))))
      && (r.wgp.None? ==> r.finalGradePoint.None? && r.letterGrade.None?)
  {
    DeriveCases(na, EffectiveLab(c));
    var x := Resolved(na);
    if CalculateWgp(x).Some? {
      assert CalculateWgp(x).value == WeightedSum(x) as real / 100.0;
    }
  }

  /** Without a forced F, the final grade point is the lab blend when the course has a lab with
      marks and the wgp otherwise, and the letter is the band of the final grade point. */
  lemma RecalculateLabAndLetter(c: Course, na: seq<Assessment>)
    requires !Pending(na) && FCheckDefined(na) && !CheckForFGrade(na).isF
    ensures var r := Recalculate(c, na);
      r.wgp.Some? ==>
        r.finalGradePoint == Some(if c.hasLab && c.labMarks.Some?
                                  then CalculateFinalGradePointWithLab(r.wgp.value as real, c.labMarks.value)
                                  else r.wgp.value)
        && r.letterGrade == Some(GradeFromWgp(r.finalGradePoint.value as real).letter)
  {
    DeriveCases(na, EffectiveLab(c));
  }

  /** Resolving special labels keeps grade points in [0, 10]. */
  lemma MapResolveInRange(na: seq<Assessment>, total: real)
    requires GradePointsInRange(na)
    ensures GradePointsInRange(MapResolve(na, total))
  {
    var x := MapResolve(na, total);
    forall a | a in x && a.gradePoint.Some? ensures 0 <= a.gradePoint.value <= 10 {
      var k :| 0 <= k < |x| && x[k] == a;
      assert x[k] == ResolveSpecial(na[k], total);
      assert na[k] in na;
    }
  }

  /** The provisional "P" keeps grade points in [0, 10]. */
  lemma MapProvisionalPInRange(na: seq<Assessment>)
    requires GradePointsInRange(na)
    ensures GradePointsInRange(MapProvisionalP(na))
  {
    var y := MapProvisionalP(na);
    forall a | a in y && a.gradePoint.Some? ensures 0 <= a.gradePoint.value <= 10 {
      var k :| 0 <= k < |y| && y[k] == a;
      assert y[k] == ProvisionalP(na[k]);
      assert na[k] in na;
    }
  }

  /** Resolution, in every branch, keeps grade points in [0, 10]. */
  lemma ResolvedInRange(na: seq<Assessment>)
    requires GradePointsInRange(na)
    ensures GradePointsInRange(Resolved(na)) && GradePointsInRange(MapProvisionalP(na))
  {
    MapProvisionalPInRange(na);
    if HasIorAbR(na) {
      MapResolveInRange(na, SessionalTotalMarks(na).total);
    }
  }

  /** With grade points in [0, 10] and lab marks not below 0, every derived grade point is in [0, 10]. */
  lemma RecalculateInRange(c: Course, na: seq<Assessment>)
    requires GradePointsInRange(na)
    requires c.labMarks.Some? ==> 0.0 <= c.labMarks.value
    ensures var r := Recalculate(c, na);
      GradePointsInRange(r.assessments)
      && (r.wgp.Some? ==> 0 <= r.wgp.value <= 10)
      && (r.finalGradePoint.Some? ==> 0 <= r.finalGradePoint.value <= 10)
  {
    var lab := EffectiveLab(c);
    DeriveCases(na, lab);
    ResolvedInRange(na);
    var x := Resolved(na);
    if !Pending(na) && !CheckForFGrade(na).isF && CalculateWgp(x).Some? {
      WeightedSumBounds(x);
      var w := Min(10, Ceil(CalculateWgp(x).value));
      assert 0 <= w <= 10;
      if lab.Some? {
        assert 0 <= CalculateFinalGradePointWithLab(w as real, lab.value);
      }
    }
  }

  // ---------------------------------------------------------------------------
  // The handlers keep a course consistent

  lemma ShapeKept(x: seq<Assessment>, y: seq<Assessment>)
    requires |x| == |y|
    requires forall k :: 0 <= k < |x| ==> x[k].kind == y[k].kind && x[k].weight == y[k].weight
    ensures StandardShape(x) ==> StandardShape(y)
    ensures x == [] ==> y == []
  {
  }

  lemma StandardOrEmptyFCheckDefined(assessments: seq<Assessment>)
    requires StandardShape(assessments) || assessments == []
    ensures FCheckDefined(assessments)
  {
    if assessments != [] {
      assert FindIndex(assessments, Sessional1) == Some(0);
      assert FindIndex(assessments, Sessional2) == Some(1);
    }
  }

  /** Without lab marks in the blend, the final grade point is the wgp and the letter its band. */
  lemma DeriveWithoutLab(na: seq<Assessment>, lab: Option<real>)
    ensures var d0 := Derive(na, None); var d := Derive(na, lab);
      d0.assessments == d.assessments && d0.wgp == d.wgp
      && d0.finalGradePoint == d0.wgp
      && d0.letterGrade == if d0.wgp.Some? then Some(GradeFromWgp(d0.wgp.value as real).letter) else None
  {
    DeriveCases(na, lab);
    DeriveCases(na, None);
  }

  /** Toggling the lab keeps a consistent course consistent (the corrected handler). */
  lemma LabToggleKeepsConsistent(c: Course, checked: bool)
    requires Consistent(c) && (c.hasLab || c.labMarks.None?)
    ensures Consistent(LabToggled(c, checked))
  {
    DeriveWithoutLab(c.assessments, EffectiveLab(c));
  }

  /** Entering or clearing lab marks keeps a consistent lab course consistent (the corrected handler). */
  lemma LabMarksKeepConsistent(c: Course, labMarks: Option<real>)
    requires Consistent(c) && c.hasLab && FCheckDefined(c.assessments)
    ensures Consistent(LabMarksEntered(c, labMarks))
  {
    var na := c.assessments;
    DeriveCases(na, EffectiveLab(c));
    DeriveCases(na, labMarks);
  }

  // ---------------------------------------------------------------------------
  // Edit handlers

  /** `updateAssessmentGrade` as written: "P" counts as special for every assessment. */
  function WithGradeAsWritten(assessments: seq<Assessment>, i: nat, grade: string): seq<Assessment>
    requires i < |assessments|
  {
    var selected := FindOption(GradeOptionsFor(assessments[i].kind), grade);
    if selected.None? then
      assessments[i := assessments[i].(gradePoint := None, gradeLabel := None, marks := None)]
    else if grade in SpecialSessionalGrades then
      assessments[i := assessments[i].(gradePoint := None, gradeLabel := Some(grade), marks := None)]
    else
      assessments[i := assessments[i].(gradePoint := Some(selected.value.value), gradeLabel := Some(grade), marks := None)]
  }

  /**
   * `updateAssessmentGrade`, with the special-label test restricted to the sessionals it is
   * meant for: an unknown label clears the assessment, a special sessional label waits for
   * marks, any other option sets its value. Marks are cleared in every case.
   */
  function WithGrade(assessments: seq<Assessment>, i: nat, grade: string): (r: seq<Assessment>)
    requires i < |assessments|
    ensures |r| == |assessments|
    ensures forall k :: 0 <= k < |r| && k != i ==> r[k] == assessments[k]
    ensures r[i].kind == assessments[i].kind && r[i].weight == assessments[i].weight && r[i].marks.None?
    ensures r[i].gradeLabel.Some? <==> FindOption(GradeOptionsFor(assessments[i].kind), grade).Some?
    ensures r[i].gradeLabel.Some? ==> r[i].gradeLabel == Some(grade)
    ensures r[i].gradePoint.Some? <==>
      r[i].gradeLabel.Some? && !(IsSessional(assessments[i].kind) && grade in SpecialSessionalGrades)
    ensures r[i].gradePoint.Some? ==>
      FindOption(GradeOptionsFor(assessments[i].kind), grade) == Some(GradeOption(grade, r[i].gradePoint.value))
  {
    var selected := FindOption(GradeOptionsFor(assessments[i].kind), grade);
    if selected.None? then
      assessments[i := assessments[i].(gradePoint := None, gradeLabel := None, marks := None)]
    else if IsSessional(assessments[i].kind) && grade in SpecialSessionalGrades then
      assessments[i := assessments[i].(gradePoint := None, gradeLabel := Some(grade), marks := None)]
    else
      assessments[i := assessments[i].(gradePoint := Some(selected.value.value), gradeLabel := Some(grade), marks := None)]
  }

  /** `Math.min(100, Math.max(0, x))`. */
  function ClampMarks(x: real): (r: real)
    ensures 0.0 <= r <= 100.0
    ensures 0.0 <= x <= 100.0 ==> r == x
    ensures x < 0.0 ==> r == 0.0
    ensures x > 100.0 ==> r == 100.0
  {
    if x > 100.0 then 100.0 else if x < 0.0 then 0.0 else x
  }

  /** A marks field as entered: empty (`None`) stays empty, a number is clamped to [0, 100]. */
  function ParseMarks(input: Option<real>): (r: Option<real>)
    ensures r.Some? <==> input.Some?
    ensures r.Some? ==> 0.0 <= r.value <= 100.0
  {
    if input.None? then None else Some(ClampMarks(input.value))
  }

  /** `updateAssessmentMarks`: only the marks of assessment `i` change. */
  function WithMarks(assessments: seq<Assessment>, i: int, marks: Option<real>): (r: seq<Assessment>)
    ensures |r| == |assessments|
    ensures forall k :: 0 <= k < |r| ==> r[k] == if k == i then assessments[k].(marks := marks) else assessments[k]
  {
    if 0 <= i < |assessments| then assessments[i := assessments[i].(marks := marks)] else assessments
  }

  /** `handleLabToggle` as written: turning the lab off resets the grade point but not the letter. */
  function LabToggledAsWritten(c: Course, checked: bool): (r: Course)
    ensures r.hasLab == checked && r.assessments == c.assessments && r.wgp == c.wgp
    ensures r.letterGrade == c.letterGrade
    ensures checked ==> r.labMarks == c.labMarks && r.finalGradePoint == c.finalGradePoint
    ensures !checked ==> r.labMarks.None? && r.finalGradePoint == c.wgp
  {
    c.(hasLab := checked,
       labMarks := if checked then c.labMarks else None,
       finalGradePoint := if checked then c.finalGradePoint else c.wgp)
  }

  /** `handleLabToggle`, with the letter following the grade point back to the wgp's band. */
  function LabToggled(c: Course, checked: bool): (r: Course)
    ensures r.hasLab == checked && r.assessments == c.assessments && r.wgp == c.wgp
    ensures checked ==> r.labMarks == c.labMarks && r.finalGradePoint == c.finalGradePoint && r.letterGrade == c.letterGrade
    ensures !checked ==> r.labMarks.None? && r.finalGradePoint == c.wgp
    ensures !checked && r.finalGradePoint.Some? ==> r.letterGrade == Some(GradeFromWgp(r.finalGradePoint.value as real).letter)
  {
    if checked then c.(hasLab := true)
    else
      c.(hasLab := false,
         labMarks := None,
         finalGradePoint := c.wgp,
         letterGrade := if c.wgp.Some? then Some(GradeFromWgp(c.wgp.value as real).letter) else None)
  }

  /** The lab-marks `onChange` as written: it blends whenever a wgp exists, and keeps the old
      grade point when the marks are cleared. */
  function LabMarksEnteredAsWritten(c: Course, labMarks: Option<real>): (r: Course)
    ensures r == c.(labMarks := labMarks, finalGradePoint := r.finalGradePoint, letterGrade := r.letterGrade)
    ensures c.wgp.None? || labMarks.None? ==> r == c.(labMarks := labMarks)
    ensures c.wgp.Some? && labMarks.Some? ==>
      r.finalGradePoint == Some(CalculateFinalGradePointWithLab(c.wgp.value as real, labMarks.value))
      && r.letterGrade == Some(GradeFromWgp(r.finalGradePoint.value as real).letter)
  {
    if c.wgp.Some? && labMarks.Some? then
      var finalGp := CalculateFinalGradePointWithLab(c.wgp.value as real, labMarks.value);
      c.(labMarks := labMarks, finalGradePoint := Some(finalGp), letterGrade := Some(GradeFromWgp(finalGp as real).letter))
    else
      c.(labMarks := labMarks)
  }

  /**
   * The lab-marks `onChange`, with a forced F kept and cleared marks falling back to the wgp:
   * the grade point is the blend when marks are entered, the wgp otherwise.
   */
  function LabMarksEntered(c: Course, labMarks: Option<real>): (r: Course)
    requires FCheckDefined(c.assessments)
    ensures r == c.(labMarks := labMarks, finalGradePoint := r.finalGradePoint, letterGrade := r.letterGrade)
    ensures c.wgp.None? || CheckForFGrade(c.assessments).isF ==> r == c.(labMarks := labMarks)
    ensures c.wgp.Some? && !CheckForFGrade(c.assessments).isF ==>
      r.finalGradePoint == Some(if labMarks.Some? then CalculateFinalGradePointWithLab(c.wgp.value as real, labMarks.value) else c.wgp.value)
      && r.letterGrade == Some(GradeFromWgp(r.finalGradePoint.value as real).letter)
  {
    if c.wgp.None? || CheckForFGrade(c.assessments).isF then
      c.(labMarks := labMarks)
    else
      var finalGp := if labMarks.Some? then CalculateFinalGradePointWithLab(c.wgp.value as real, labMarks.value) else c.wgp.value;
      c.(labMarks := labMarks, finalGradePoint := Some(finalGp), letterGrade := Some(GradeFromWgp(finalGp as real).letter))
  }

  /** The CLAD grade `onChange`: a known label sets the course directly; an unknown one changes nothing. */
  function CladGradeSelected(c: Course, grade: string): (r: Course)
    ensures FindOption(CladGradeOptions, grade).None? ==> r == c
    ensures FindOption(CladGradeOptions, grade).Some? ==>
      r.id == c.id && r.name == c.name && r.credits == 1 && r.assessments == []
      && !r.hasLab && r.labMarks.None? && r.letterGrade == Some(grade)
      && r.wgp == r.finalGradePoint
      && r.finalGradePoint == Some(FindOption(CladGradeOptions, grade).value.value)
  {
    match FindOption(CladGradeOptions, grade)
    case None => c
    case Some(selected) =>
      c.(credits := 1, wgp := Some(selected.value), finalGradePoint := Some(selected.value),
         letterGrade := Some(selected.grade), assessments := [], hasLab := false, labMarks := None)
  }

  // ---------------------------------------------------------------------------
  // The handlers keep every value in range

  /** Grade points in [0, 10], a wgp and final grade point in [0, 10], lab marks in [0, 100]. */
  predicate ValuesInRange(c: Course) {
    GradePointsInRange(c.assessments)
    && (c.wgp.Some? ==> 0 <= c.wgp.value <= 10)
    && (c.finalGradePoint.Some? ==> 0 <= c.finalGradePoint.value <= 10)
    && (c.labMarks.Some? ==> 0.0 <= c.labMarks.value <= 100.0)
  }

  /**
   * Every Learning Engagement and CLAD option is worth a grade point in [0, 10]; so is every
   * sessional option except the special labels, which carry -1 and wait for marks.
   */
  lemma OptionValuesInRange()
    ensures forall o :: o in LeGradeOptions ==> 0 <= o.value <= 10
    ensures forall o :: o in CladGradeOptions ==> 0 <= o.value <= 10
    ensures forall o :: o in SessionalGradeOptions ==>
      (o.grade in SpecialSessionalGrades <==> o.value == -1)
      && (o.grade !in SpecialSessionalGrades ==> 0 <= o.value <= 10)
  {
  }

  /** The grade handler only ever stores an option's value in [0, 10]. */
  lemma WithGradeInRange(a: seq<Assessment>, i: nat, grade: string)
    requires i < |a| && GradePointsInRange(a)
    ensures GradePointsInRange(WithGrade(a, i, grade))
  {
    var r := WithGrade(a, i, grade);
    OptionValuesInRange();
    forall x | x in r && x.gradePoint.Some? ensures 0 <= x.gradePoint.value <= 10 {
      var k :| 0 <= k < |r| && r[k] == x;
      if k != i {
        assert a[k] in a;
      } else {
        var o := FindOption(GradeOptionsFor(a[i].kind), grade).value;
        assert o in GradeOptionsFor(a[i].kind) && o.value == x.gradePoint.value;
      }
    }
  }

  /** Typing marks changes no grade point. */
  lemma WithMarksInRange(a: seq<Assessment>, i: int, marks: Option<real>)
    requires GradePointsInRange(a)
    ensures GradePointsInRange(WithMarks(a, i, marks))
  {
    var r := WithMarks(a, i, marks);
    forall x | x in r && x.gradePoint.Some? ensures 0 <= x.gradePoint.value <= 10 {
      var k :| 0 <= k < |r| && r[k] == x;
      assert a[k] in a;
    }
  }

  /** Re-deriving from in-range assessments keeps a course in range. */
  lemma RecalculateValuesInRange(c: Course, na: seq<Assessment>)
    requires ValuesInRange(c) && GradePointsInRange(na)
    ensures ValuesInRange(Recalculate(c, na))
  {
    RecalculateInRange(c, na);
  }

  /** The lab toggle and the lab marks keep a course in range. */
  lemma LabHandlersInRange(c: Course, checked: bool, labMarks: Option<real>)
    requires ValuesInRange(c) && FCheckDefined(c.assessments)
    requires labMarks.Some? ==> 0.0 <= labMarks.value <= 100.0
    ensures ValuesInRange(LabToggled(c, checked))
    ensures ValuesInRange(LabMarksEntered(c, labMarks))
  {
    if c.wgp.Some? && labMarks.Some? {
      LabBlendInRange(c.wgp.value as real, labMarks.value);
    }
  }

  /** A CLAD grade keeps a course in range. */
  lemma CladGradeInRange(c: Course, grade: string)
    requires ValuesInRange(c)
    ensures ValuesInRange(CladGradeSelected(c, grade))
  {
    OptionValuesInRange();
  }

  // ---------------------------------------------------------------------------
  // Consequences for standard courses, and the discrepancies of the handlers as written

  /** For the standard three assessments the weighted sum is 30·S1 + 45·S2 + 25·LE. */
  lemma StandardWeightedSum(a: seq<Assessment>)
    requires StandardShape(a) && AllResolved(a)
    ensures WeightedSum(a) == 30 * a[0].gradePoint.value + 45 * a[1].gradePoint.value + 25 * a[2].gradePoint.value
  {
    var t := a[1..];
    var u := t[1..];
    assert t[0] == a[1] && u == [a[2]] && u[1..] == [];
    assert WeightedSum(u) == a[2].gradePoint.value * 25;
    assert WeightedSum(t) == a[1].gradePoint.value * 45 + WeightedSum(u);
  }

  /** In the standard three assessments each kind is found at its own place. */
  lemma StandardFinds(a: seq<Assessment>)
    requires StandardShape(a)
    ensures Find(a, Sessional1) == Some(a[0])
    ensures Find(a, Sessional2) == Some(a[1])
    ensures Find(a, LearningEngagement) == Some(a[2])
  {
    assert FindIndex(a, Sessional1) == Some(0);
    assert FindIndex(a, Sessional2) == Some(1);
    assert FindIndex(a, LearningEngagement) == Some(2);
  }

  /** The standard three assessments are all resolved when each has a grade point. */
  lemma StandardResolved(a: seq<Assessment>)
    requires StandardShape(a)
    requires a[0].gradePoint.Some? && a[1].gradePoint.Some? && a[2].gradePoint.Some?
    ensures AllResolved(a)
  {
    forall x | x in a ensures x.gradePoint.Some? {
      var k :| 0 <= k < 3 && a[k] == x;
    }
  }

  /**
   * As written, a Learning Engagement "P" is stored without a grade point (it is taken for a
   * special sessional grade) and nothing ever resolves it, so the course gets no wgp unless it is
   * forced to F.
   */
  lemma LePassAsWrittenNeverScores(c: Course)
    requires StandardShape(c.assessments)
    ensures var r := Recalculate(c, WithGradeAsWritten(c.assessments, 2, "P"));
      r.wgp.None? || (r.wgp == Some(0) && r.letterGrade == Some("F"))
  {
    var na := WithGradeAsWritten(c.assessments, 2, "P");
    LePassStoredAsWritten(c.assessments);
    UnresolvedLeScoresAtMostF(c, na);
  }

  /** A Learning Engagement without a grade point leaves a standard course without a wgp, or forced to F. */
  lemma UnresolvedLeScoresAtMostF(c: Course, na: seq<Assessment>)
    requires StandardShape(na) && na[2].gradePoint.None?
    ensures var r := Recalculate(c, na);
      r.wgp.None? || (r.wgp == Some(0) && r.letterGrade == Some("F"))
  {
    DeriveCases(na, EffectiveLab(c));
    if !Pending(na) && !CheckForFGrade(na).isF {
      var x := Resolved(na);
      assert x[2] == na[2];
      assert x[2] in x;
    }
  }

  /** Numeric sessional grades and a Learning Engagement that is not "L/AB": nothing waits,
      nothing is resolved, nothing forces F. */
  lemma PlainStandardGrades(na: seq<Assessment>)
    requires StandardShape(na)
    requires forall k :: 0 <= k < 2 ==> !IsSpecialLabel(na[k].gradeLabel)
    requires na[2].gradeLabel != Some("L/AB")
    ensures !HasIorAbR(na) && !HasOnlyP(na) && !Pending(na)
    ensures FCheckDefined(na) && !CheckForFGrade(na).isF
    ensures Resolved(na) == na
  {
    StandardFinds(na);
    assert !IsSpecialLabel(na[0].gradeLabel) && !IsSpecialLabel(na[1].gradeLabel);
    assert na[0].gradeLabel != Some("I") && na[0].gradeLabel != Some("Ab/R") && na[0].gradeLabel != Some("P");
    assert na[1].gradeLabel != Some("I") && na[1].gradeLabel != Some("Ab/R") && na[1].gradeLabel != Some("P");
    NoFWithoutLabOrI(na);
  }

  /** A standard course with numeric grades throughout scores wgp = ⌈(30·S1 + 45·S2 + 25·LE) / 100⌉, capped at 10. */
  lemma StandardScore(na: seq<Assessment>, lab: Option<real>)
    requires StandardShape(na)
    requires na[0].gradePoint.Some? && na[1].gradePoint.Some? && na[2].gradePoint.Some?
    requires forall k :: 0 <= k < 2 ==> !IsSpecialLabel(na[k].gradeLabel)
    requires na[2].gradeLabel != Some("L/AB")
    ensures Derive(na, lab).wgp == Some(Min(10, Ceil((30 * na[0].gradePoint.value
      + 45 * na[1].gradePoint.value + 25 * na[2].gradePoint.value) as real / 100.0)))
  {
    DerivePlain(na, lab);
    StandardScoreWgp(na, lab);
  }

  /** Scoring the three numeric grades gives the weighted formula. */
  lemma StandardScoreWgp(na: seq<Assessment>, lab: Option<real>)
    requires StandardShape(na)
    requires na[0].gradePoint.Some? && na[1].gradePoint.Some? && na[2].gradePoint.Some?
    ensures Score(na, lab).wgp == Some(Min(10, Ceil((30 * na[0].gradePoint.value
      + 45 * na[1].gradePoint.value + 25 * na[2].gradePoint.value) as real / 100.0)))
  {
    StandardResolved(na);
    StandardWeightedSum(na);
    RawWgp(na);
    ScoreWgp(na, lab);
  }

  /** Numeric grades throughout: re-derivation only scores. */
  lemma DerivePlain(na: seq<Assessment>, lab: Option<real>)
    requires StandardShape(na)
    requires forall k :: 0 <= k < 2 ==> !IsSpecialLabel(na[k].gradeLabel)
    requires na[2].gradeLabel != Some("L/AB")
    ensures Derive(na, lab) == Score(na, lab)
  {
    PlainStandardGrades(na);
    DeriveCases(na, lab);
  }

  /** The wgp that scoring gives: the raw WGP rounded up and capped at 10. */
  lemma ScoreWgp(assessments: seq<Assessment>, lab: Option<real>)
    requires CalculateWgp(assessments).Some?
    ensures Score(assessments, lab).wgp == Some(Min(10, Ceil(CalculateWgp(assessments).value)))
  {
  }

  lemma RawWgp(assessments: seq<Assessment>)
    requires |assessments| > 0 && AllResolved(assessments)
    ensures CalculateWgp(assessments) == Some(WeightedSum(assessments) as real / 100.0)
  {
  }

  lemma LePassOption()
    ensures FindOption(LeGradeOptions, "P") == Some(GradeOption("P", 4))
  {
    FindOptionAt(LeGradeOptions, "P", 6);
  }

  /** The corrected grade handler stores a Learning Engagement "P" with its value 4. */
  lemma LePassStored(a: seq<Assessment>)
    requires StandardShape(a)
    ensures var na := WithGrade(a, 2, "P");
      StandardShape(na) && na[0] == a[0] && na[1] == a[1]
      && na[2].gradePoint == Some(4) && na[2].gradeLabel == Some("P")
  {
    LePassOption();
  }

  /** A course whose Learning Engagement is a "P" worth 4 scores like any other standard course. */
  lemma LePassScores(c: Course, na: seq<Assessment>)
    requires StandardShape(na)
    requires forall k :: 0 <= k < 2 ==> na[k].gradePoint.Some? && !IsSpecialLabel(na[k].gradeLabel)
    requires na[2].gradePoint == Some(4) && na[2].gradeLabel == Some("P")
    ensures Recalculate(c, na).wgp
      == Some(Min(10, Ceil((30 * na[0].gradePoint.value + 45 * na[1].gradePoint.value + 100) as real / 100.0)))
  {
    DerivePlain(na, EffectiveLab(c));
    LePassScoreWgp(na, EffectiveLab(c));
  }

  lemma LePassScoreWgp(na: seq<Assessment>, lab: Option<real>)
    requires StandardShape(na)
    requires na[0].gradePoint.Some? && na[1].gradePoint.Some? && na[2].gradePoint == Some(4)
    ensures Score(na, lab).wgp
      == Some(Min(10, Ceil((30 * na[0].gradePoint.value + 45 * na[1].gradePoint.value + 100) as real / 100.0)))
  {
    StandardScoreWgp(na, lab);
  }

  /** Sessional 1 "O", Sessional 2 "O" and a Learning Engagement "P" stored with its value 4
      (as the corrected handler stores it): wgp 9. */
  lemma LePassExample(c: Course, na: seq<Assessment>)
    requires StandardShape(na)
    requires na[0].gradePoint == Some(10) && na[0].gradeLabel == Some("O")
    requires na[1].gradePoint == Some(10) && na[1].gradeLabel == Some("O")
    requires na[2].gradePoint == Some(4) && na[2].gradeLabel == Some("P")
    ensures Recalculate(c, na).wgp == Some(9)
  {
    LePassScores(c, na);
    assert Ceil(850.0 / 100.0) == 9;
  }

  /** The grade handler as written stores a Learning Engagement "P" without a grade point. */
  lemma LePassStoredAsWritten(a: seq<Assessment>)
    requires StandardShape(a)
    ensures var na := WithGradeAsWritten(a, 2, "P");
      StandardShape(na) && na[0] == a[0] && na[1] == a[1]
      && na[2].gradePoint.None? && na[2].gradeLabel == Some("P")
  {
    LePassOption();
  }

  /** A Learning Engagement left without a grade point keeps the course without a wgp when
      nothing forces F: with Sessional 1 "O" and Sessional 2 "O", a "P" stored as written scores nothing. */
  lemma UnresolvedLeNeverScores(c: Course, na: seq<Assessment>)
    requires StandardShape(na)
    requires forall k :: 0 <= k < 2 ==> !IsSpecialLabel(na[k].gradeLabel)
    requires na[2].gradePoint.None? && na[2].gradeLabel != Some("L/AB")
    ensures Recalculate(c, na).wgp.None?
  {
    PlainStandardGrades(na);
    DeriveCases(na, EffectiveLab(c));
    assert na[2] in na;
  }

  /** S1 "A", S2 "A", LE "A": wgp 8; with lab marks 90 the final grade point is 9, an A+. */
  function LabCourse(): Course {
    Course("c1", "Physics", 3,
      [Assessment(Sessional1, 30, Some(8), Some("A"), None),
       Assessment(Sessional2, 45, Some(8), Some("A"), None),
       Assessment(LearningEngagement, 25, Some(8), Some("A"), None)],
      Some(8), Some(9), Some("A+"), true, Some(90.0))
  }

  /** A course is consistent exactly when its derived fields are what `Derive` gives. */
  lemma ConsistentIff(c: Course)
    ensures Consistent(c) <==>
      Derive(c.assessments, EffectiveLab(c)) == Derived(c.assessments, c.wgp, c.finalGradePoint, c.letterGrade)
  {
  }

  /** Re-deriving `LabCourse()`: wgp 8, then 9 "A+" with its lab marks 90, or 8 "A" without. */
  lemma LabCourseDerives()
    ensures var na := LabCourse().assessments;
      Derive(na, None) == Derived(na, Some(8), Some(8), Some("A"))
      && Derive(na, Some(90.0)) == Derived(na, Some(8), Some(9), Some("A+"))
  {
    var na := LabCourse().assessments;
    DerivePlain(na, None);
    DerivePlain(na, Some(90.0));
    StandardResolved(na);
    StandardWeightedSum(na);
    RawWgp(na);
    assert CalculateWgp(na) == Some(8 as real);
    ScoreOfWhole(na, None, 8);
    ScoreOfWhole(na, Some(90.0), 8);
    LabBlendExample();
    IntegerGradeLetters(8);
  }

  /** `LabCourse()` is what re-deriving it gives. */
  lemma LabCourseConsistent()
    ensures Consistent(LabCourse())
  {
    LabCourseDerives();
    ConsistentIff(LabCourse());
  }

  /** Scoring a whole raw WGP: no rounding, then the lab blend if any, then its band. */
  lemma ScoreOfWhole(a: seq<Assessment>, lab: Option<real>, w: int)
    requires CalculateWgp(a) == Some(w as real) && w <= 10
    ensures var eff := if lab.Some? then CalculateFinalGradePointWithLab(w as real, lab.value) else w;
      Score(a, lab) == Derived(a, Some(w), Some(eff), Some(GradeFromWgp(eff as real).letter))
  {
    assert Ceil(w as real) == w;
  }

  /**
   * As written, turning the lab off resets the final grade point to the wgp 8 but keeps the
   * letter "A+" of the blended 9, although grade point 8 is an "A".
   */
  lemma LabToggleAsWrittenLeavesStaleLetter()
    ensures Consistent(LabCourse())
    ensures var r := LabToggledAsWritten(LabCourse(), false);
      r.finalGradePoint == Some(8) && r.letterGrade == Some("A+")
      && GradeFromWgp(8.0).letter == "A" && !Consistent(r)
  {
    LabCourseConsistent();
    var r := LabToggledAsWritten(LabCourse(), false);
    assert r.finalGradePoint == Some(8) && r.letterGrade == Some("A+");
    LabCourseDerives();
    IntegerGradeLetters(8);
    ConsistentIff(r);
  }


  /** S1 "A", S2 "A", LE "L/AB": forced F, with a lab and no lab marks yet. */
  function ForcedFLabCourse(): Course {
    Course("c2", "Chemistry", 3,
      [Assessment(Sessional1, 30, Some(8), Some("A"), None),
       Assessment(Sessional2, 45, Some(8), Some("A"), None),
       Assessment(LearningEngagement, 25, Some(0), Some("L/AB"), None)],
      Some(0), Some(0), Some("F"), true, None)
  }

  /**
   * As written, lab marks 100 on a course forced to F blend wgp 0 into final grade point 3,
   * which re-deriving the course would put back to 0.
   */
  lemma LabMarksAsWrittenLiftForcedF()
    ensures Consistent(ForcedFLabCourse())
    ensures var r := LabMarksEnteredAsWritten(ForcedFLabCourse(), Some(100.0));
      r.finalGradePoint == Some(3) && !Consistent(r)
  {
    var c := ForcedFLabCourse();
    var na := c.assessments;
    StandardFinds(na);
    assert CheckForFGrade(na).isF && !HasIorAbR(na) && !HasOnlyP(na);
    RecalculateForcedF(c, na);
    var r := LabMarksEnteredAsWritten(c, Some(100.0));
    LabBlendOfZero();
    assert r.finalGradePoint == Some(3);
    RecalculateForcedF(r, na);
  }

  /** wgp 0 with lab marks 100: 0 % + 30 % = 30 %, grade point 3. */
  lemma LabBlendOfZero()
    ensures CalculateFinalGradePointWithLab(0.0, 100.0) == 3
  {
    assert Ceil(3.0) == 3;
  }

  /**
   * As written, clearing the lab marks of a lab course keeps the blended final grade point 9 and
   * its "A+", which re-deriving the course (with no lab marks, so no blend) would put back to 8.
   */
  lemma LabMarksClearedAsWrittenKeepsBlend()
    ensures Consistent(LabCourse())
    ensures var r := LabMarksEnteredAsWritten(LabCourse(), None);
      r.labMarks.None? && r.finalGradePoint == Some(9) && r.letterGrade == Some("A+") && !Consistent(r)
  {
    LabCourseConsistent();
    var r := LabMarksEnteredAsWritten(LabCourse(), None);
    assert r.finalGradePoint == Some(9) && r.letterGrade == Some("A+");
    LabCourseDerives();
    ConsistentIff(r);
  }


  /**
   * The corrected handler: clearing the lab marks of that course falls back to wgp 8, an "A"
   * (consistent, as `LabMarksKeepConsistent` shows for every lab course).
   */
  lemma LabMarksClearedFallsBack()
    ensures var r := LabMarksEntered(LabCourse(), None);
      r.labMarks.None? && r.finalGradePoint == Some(8) && r.letterGrade == Some("A")
  {
    PlainStandardGrades(LabCourse().assessments);
    IntegerGradeLetters(8);
  }

  /** Every CLAD option except "I" carries the grade point whose band has that same letter. */
  lemma CladLettersMatchBands()
    ensures forall o :: o in CladGradeOptions && o.grade != "I" ==> GradeFromWgp(o.value as real).letter == o.grade
    ensures GradeFromWgp(4.0).letter == "P"
  {
    forall o | o in CladGradeOptions && o.grade != "I"
      ensures GradeFromWgp(o.value as real).letter == o.grade
    {
      IntegerGradeLetters(o.value);
    }
    IntegerGradeLetters(4);
  }

  /** Surrounding blanks and capitals do not matter: "  Clad " is a CLAD course. */
  lemma IsCladExample()
    ensures IsClad("  Clad ")
  {
    TrimExample();
    LowerClad();
  }

  lemma LowerClad()
    ensures LowerAsciiAll("Clad") == "clad"
  {
    var l := LowerAsciiAll("Clad");
    assert |l| == 4 && l[0] == LowerAscii('C') == 'c';
    assert l[1] == 'l' && l[2] == 'a' && l[3] == 'd';
  }

  /** A longer name is not CLAD, however it is written. */
  lemma IsCladExactName(name: string)
    requires |Trim(name)| != 4
    ensures !IsClad(name)
  {
  }

  // ---------------------------------------------------------------------------
  // The card as an object whose handlers replace its course

  /** One course card: each handler hands the next course record to `onUpdate`. */
  class Card {
    var course: Course

    /**
     * The assessments are the standard three, or none once a CLAD grade is set, and every
     * grade point and mark is in range.
     */
    ghost predicate Valid()
      reads this
    {
      (StandardShape(course.assessments) || course.assessments == []) && ValuesInRange(course)
    }

    constructor (c: Course)
      requires StandardShape(c.assessments) || c.assessments == []
      requires ValuesInRange(c)
      ensures Valid() && course == c
    {
      course := c;
    }

    /** A grade chosen from the assessment's select. */
    method UpdateAssessmentGrade(i: nat, grade: string)
      requires Valid() && i < |course.assessments|
      modifies this
      ensures Valid()
      ensures course == Recalculate(old(course), WithGrade(old(course).assessments, i, grade))
      ensures Consistent(course)
    {
      var next := WithGrade(course.assessments, i, grade);
      WithGradeInRange(course.assessments, i, grade);
      RecalculateValuesInRange(course, next);
      RecalculateIsConsistent(course, next);
      ShapeKept(next, Recalculate(course, next).assessments);
      course := Recalculate(course, next);
    }

    /** Marks typed into a sessional's marks field (`None` for an empty field). */
    method UpdateAssessmentMarks(i: nat, input: Option<real>)
      requires Valid() && i < |course.assessments|
      modifies this
      ensures Valid()
      ensures course == Recalculate(old(course), WithMarks(old(course).assessments, i, ParseMarks(input)))
      ensures Consistent(course)
    {
      var next := WithMarks(course.assessments, i, ParseMarks(input));
      WithMarksInRange(course.assessments, i, ParseMarks(input));
      RecalculateValuesInRange(course, next);
      ShapeKept(course.assessments, next);
      RecalculateIsConsistent(course, next);
      ShapeKept(next, Recalculate(course, next).assessments);
      course := Recalculate(course, next);
    }

    /** The "This course has Lab" checkbox. */
    method HandleLabToggle(checked: bool)
      requires Valid()
      modifies this
      ensures Valid()
      ensures course == LabToggled(old(course), checked)
      ensures Consistent(old(course)) && (old(course).hasLab || old(course).labMarks.None?) ==> Consistent(course)
    {
      StandardOrEmptyFCheckDefined(course.assessments);
      LabHandlersInRange(course, checked, None);
      if Consistent(course) && (course.hasLab || course.labMarks.None?) {
        LabToggleKeepsConsistent(course, checked);
      }
      course := LabToggled(course, checked);
    }

    /** The lab marks field (`None` for an empty field). */
    method EnterLabMarks(input: Option<real>)
      requires Valid()
      modifies this
      ensures Valid()
      ensures course == LabMarksEntered(old(course), ParseMarks(input))
      ensures Consistent(old(course)) && old(course).hasLab ==> Consistent(course)
    {
      StandardOrEmptyFCheckDefined(course.assessments);
      LabHandlersInRange(course, true, ParseMarks(input));
      if Consistent(course) && course.hasLab {
        LabMarksKeepConsistent(course, ParseMarks(input));
      }
      course := LabMarksEntered(course, ParseMarks(input));
    }

    /** The CLAD "Final Grade" select. */
    method SelectCladGrade(grade: string)
      requires Valid()
      modifies this
      ensures Valid()
      ensures course == CladGradeSelected(old(course), grade)
    {
      CladGradeInRange(course, grade);
      course := CladGradeSelected(course, grade);
    }

    /** The course name field: the record changes and nothing is re-derived. */
    method Rename(name: string)
      requires Valid()
      modifies this
      ensures Valid()
      ensures course == old(course).(name := name)
    {
      course := course.(name := name);
    }

    /** The credits field: the record changes and nothing is re-derived. */
    method SetCredits(credits: int)
      requires Valid()
      modifies this
      ensures Valid()
      ensures course == old(course).(credits := credits)
    {
      course := course.(credits := credits);
    }
  }
}
