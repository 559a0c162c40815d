/**
 * The scoring primitives and aggregators of the grade calculator (src/types/calculator.ts):
 * the letter-band table, the weighted grade point, the 70/30 lab blend, the special
 * sessional grades, the forced-F rule, and the credit-weighted SGPA and CGPA.
 *
 * Arithmetic is exact. Grade points are integers; an assessment weight is kept in
 * hundredths (30, 45, 25), so the raw WGP is the weighted sum divided by 100.
 */
module Calculator {
  import opened Wrappers

  /** The three assessment names the source compares by string. */
  datatype Kind = Sessional1 | Sessional2 | LearningEngagement

  /** `weight` is in hundredths of the course grade (0.30 is 30). */
  datatype Assessment = Assessment(
    kind: Kind,
    weight: nat,
    gradePoint: Option<int>,
    gradeLabel: Option<string>,
    marks: Option<real>)

  /** `id` is the opaque key the page draws from `crypto.randomUUID`. */
  datatype Course = Course(
    id: string,
    name: string,
    credits: int,
    assessments: seq<Assessment>,
    wgp: Option<int>,
    finalGradePoint: Option<int>,
    letterGrade: Option<string>,
    hasLab: bool,
    labMarks: Option<real>)

  datatype Band = Band(letter: string, min: real, max: real, color: string)

  /** The 10-point letter bands, highest first. */
  const GradeMappings: seq<Band> := [
    Band("O", 9.5, 10.0, "grade-o"),
    Band("A+", 8.5, 9.49, "grade-a-plus"),
    Band("A", 7.5, 8.49, "grade-a"),
    Band("B+", 6.5, 7.49, "grade-b-plus"),
    Band("B", 5.5, 6.49, "grade-b"),
    Band("C", 4.5, 5.49, "grade-c"),
    Band("P", 4.0, 4.49, "grade-p"),
    Band("F", 0.0, 3.99, "grade-f")
  ]

  /** Sessional labels whose grade point waits for the sessional marks. */
  const SpecialSessionalGrades: seq<string> := ["I", "P", "Ab/R"]

  // ---------------------------------------------------------------------------
  // Rounding helpers

  function Min(a: int, b: int): (r: int)
    ensures r <= a && r <= b && (r == a || r == b)
  {
    if a <= b then a else b
  }

  /** `Math.ceil`: the least integer that is not below `x`. */
  function Ceil(x: real): (n: int)
    ensures (n - 1) as real < x <= n as real
  {
    -((-x).Floor)
  }

  // ---------------------------------------------------------------------------
  // Finding an assessment by name

  /** The index `assessments.find(a => a.name === k)` would stop at. */
  function FindIndex(assessments: seq<Assessment>, k: Kind): (r: Option<nat>)
    ensures r.Some? ==> r.value < |assessments| && assessments[r.value].kind == k
    ensures r.Some? ==> forall j :: 0 <= j < r.value ==> assessments[j].kind != k
    ensures r.None? ==> forall j :: 0 <= j < |assessments| ==> assessments[j].kind != k
  {
    if assessments == [] then None
    else if assessments[0].kind == k then Some(0)
    else match FindIndex(assessments[1..], k)
      case None => None
      case Some(j) => Some(j + 1)
  }

  /** `assessments.find(a => a.name === k)`, with `undefined` as `None`. */
  function Find(assessments: seq<Assessment>, k: Kind): (r: Option<Assessment>)
    ensures r.Some? ==> r.value in assessments && r.value.kind == k
    ensures r.Some? ==> exists j :: (0 <= j < |assessments| && assessments[j] == r.value
      && forall i :: 0 <= i < j ==> assessments[i].kind != k)
    ensures r.None? <==> forall a :: a in assessments ==> a.kind != k
  {
    match FindIndex(assessments, k)
    case None => None
    case Some(j) => Some(assessments[j])
  }

  /** `o?.gradeLabel === l`. */
  predicate LabelIs(o: Option<Assessment>, l: string) {
    o.Some? && o.value.gradeLabel == Some(l)
  }

  /** `o?.marks !== null`: true for a missing assessment too (`undefined !== null`). */
  predicate MarksNotNull(o: Option<Assessment>) {
    o.None? || o.value.marks.Some?
  }

  // ---------------------------------------------------------------------------
  // Weighted grade point

  predicate AllResolved(assessments: seq<Assessment>) {
    forall a :: a in assessments ==> a.gradePoint.Some?
  }

  /** Σ gradePoint × weight, in hundredths of a grade point. */
  function WeightedSum(assessments: seq<Assessment>): int
    requires AllResolved(assessments)
  {
    if assessments == [] then 0
    else assessments[0].gradePoint.value * assessments[0].weight + WeightedSum(assessments[1..])
  }

  /** `calculateWGP`: no value for an empty list or while any grade point is unresolved. */
  function CalculateWgp(assessments: seq<Assessment>): (r: Option<real>)
    ensures r.Some? <==> |assessments| > 0 && AllResolved(assessments)
    ensures r.Some? ==> r.value * 100.0 == WeightedSum(assessments) as real
  {
    if |assessments| == 0 || !AllResolved(assessments) then None
    else Some(WeightedSum(assessments) as real / 100.0)
  }

  predicate GradePointsInRange(assessments: seq<Assessment>) {
    forall a :: a in assessments && a.gradePoint.Some? ==> 0 <= a.gradePoint.value <= 10
  }

  function WeightTotal(assessments: seq<Assessment>): nat {
    if assessments == [] then 0 else assessments[0].weight + WeightTotal(assessments[1..])
  }

  /** With grade points in [0, 10], the weighted sum lies between 0 and 10 × the total weight. */
  lemma {:induction false} WeightedSumBounds(assessments: seq<Assessment>)
    requires AllResolved(assessments) && GradePointsInRange(assessments)
    ensures 0 <= WeightedSum(assessments) <= 10 * WeightTotal(assessments)
  {
    if assessments != [] {
      var a := assessments[0];
      assert a in assessments;
      WeightedSumBounds(assessments[1..]);
      assert 0 <= a.gradePoint.value * a.weight <= 10 * a.weight by {
        MulBounds(a.gradePoint.value, a.weight);
      }
    }
  }

  lemma MulBounds(g: int, w: nat)
    requires 0 <= g <= 10
    ensures 0 <= g * w <= 10 * w
  {
  }

  /** When the weights add up to the whole grade, the raw WGP is a grade point in [0, 10]. */
  lemma WgpInRange(assessments: seq<Assessment>)
    requires WeightTotal(assessments) == 100 && AllResolved(assessments) && GradePointsInRange(assessments)
    ensures CalculateWgp(assessments).Some?
    ensures 0.0 <= CalculateWgp(assessments).value <= 10.0
  {
    WeightedSumBounds(assessments);
  }

  // ---------------------------------------------------------------------------
  // Letter bands

  /** The first index at or after `j` whose band minimum is at most `v`, or `|t|`. */
  function FirstAtMost(t: seq<Band>, v: real, j: nat): (r: nat)
    requires j <= |t|
    decreases |t| - j
    ensures j <= r <= |t|
    ensures r < |t| ==> t[r].min <= v
    ensures forall k :: j <= k < r ==> v < t[k].min
  {
    if j == |t| then |t| else if t[j].min <= v then j else FirstAtMost(t, v, j + 1)
  }

  /** `getGradeFromWGP`: the first band, scanning O to F, whose minimum is at most `v`; F as fallback. */
  function GradeFromWgp(v: real): (b: Band)
    ensures b in GradeMappings
    ensures 0.0 <= v ==> b.min <= v
    ensures v < 4.0 ==> b.letter == "F"
  {
    var i := FirstAtMost(GradeMappings, v, 0);
    if i < |GradeMappings| then GradeMappings[i] else GradeMappings[|GradeMappings| - 1]
  }

  /** The loop of `getGradeFromWGP`, with its early return. */
  method GetGradeFromWgp(v: real) returns (b: Band)
    ensures b == GradeFromWgp(v)
  {
    for i := 0 to |GradeMappings|
      invariant forall k :: 0 <= k < i ==> v < GradeMappings[k].min
    {
      if v >= GradeMappings[i].min {
        return GradeMappings[i];
      }
    }
    return GradeMappings[|GradeMappings| - 1];
  }

  /** The band found is the first that fits: `v` is below the minimum of every higher band. */
  lemma GradeIsFirstFit(v: real)
    requires 0.0 <= v
    ensures exists i :: (0 <= i < |GradeMappings| && GradeMappings[i] == GradeFromWgp(v)
      && GradeMappings[i].min <= v
      && forall k :: 0 <= k < i ==> v < GradeMappings[k].min)
  {
    var i := FirstAtMost(GradeMappings, v, 0);
    assert GradeMappings[7].min == 0.0;
    assert i < |GradeMappings|;
  }

  /** Integer grade points from 4 to 10 get P, C, B, B+, A, A+, O. */
  lemma IntegerGradeLetters(n: int)
    requires 4 <= n <= 10
    ensures GradeFromWgp(n as real).letter == ["P", "C", "B", "B+", "A", "A+", "O"][n - 4]
  {
    var i := FirstAtMost(GradeMappings, n as real, 0);
    assert i == 10 - n;
  }

  /** A higher grade point never gets a lower band. */
  lemma {:induction false} FirstAtMostMonotone(t: seq<Band>, v: real, w: real, j: nat)
    requires j <= |t| && v <= w
    decreases |t| - j
    ensures FirstAtMost(t, w, j) <= FirstAtMost(t, v, j)
  {
    if j < |t| && !(t[j].min <= w) {
      FirstAtMostMonotone(t, v, w, j + 1);
    }
  }

  // ---------------------------------------------------------------------------
  // Lab blend

  /**
   * `calculateFinalGradePointWithLab`: theory is 70 % of `wgp` out of 10, lab is 30 % of the
   * marks out of 100, and the result is the blended percentage over 10 rounded UP, capped at 10.
   */
  function CalculateFinalGradePointWithLab(wgp: real, labMarks: real): (r: int)
    ensures r <= 10
    ensures var blended := (7.0 * wgp + 0.3 * labMarks) / 10.0;
      blended <= 10.0 ==> (r - 1) as real < blended <= r as real
    ensures var blended := (7.0 * wgp + 0.3 * labMarks) / 10.0;
      blended > 10.0 ==> r == 10
  {
    var theoryPercentage := (wgp / 10.0) * 100.0 * 0.7;
    var labPercentage := labMarks * 0.3;
    var finalPercentage := theoryPercentage + labPercentage;
    Min(10, Ceil(finalPercentage / 10.0))
  }

  /** For a grade point and marks in range the blend is a grade point in [0, 10]. */
  lemma LabBlendInRange(wgp: real, labMarks: real)
    requires 0.0 <= wgp <= 10.0 && 0.0 <= labMarks <= 100.0
    ensures 0 <= CalculateFinalGradePointWithLab(wgp, labMarks) <= 10
  {
  }

  /** wgp 8 with lab marks 90: 56 % + 27 % = 83 %, rounded up to grade point 9, an A+. */
  lemma LabBlendExample()
    ensures CalculateFinalGradePointWithLab(8.0, 90.0) == 9
    ensures GradeFromWgp(9.0).letter == "A+"
  {
    IntegerGradeLetters(9);
  }

  // ---------------------------------------------------------------------------
  // SGPA

  datatype SgpaResult = SgpaResult(sgpa: real, totalCredits: int, totalGradePoints: int)

  /** Σ credits over the courses that have a final grade point. */
  function CountedCredits(courses: seq<Course>): int {
    if courses == [] then 0
    else
      var last := courses[|courses| - 1];
      CountedCredits(courses[..|courses| - 1]) + (if last.finalGradePoint.Some? then last.credits else 0)
  }

  /** Σ credits × final grade point over the courses that have a final grade point. */
  function CountedPoints(courses: seq<Course>): int {
    if courses == [] then 0
    else
      var last := courses[|courses| - 1];
      CountedPoints(courses[..|courses| - 1])
        + (if last.finalGradePoint.Some? then last.credits * last.finalGradePoint.value else 0)
  }

  /** What `calculateSGPA` returns: no result without counted credits, else points over credits. */
  function Sgpa(courses: seq<Course>): (r: Option<SgpaResult>)
    ensures r.None? <==> CountedCredits(courses) == 0
    ensures r.Some? ==> (r.value.totalCredits == CountedCredits(courses)
      && r.value.totalGradePoints == CountedPoints(courses)
      && r.value.sgpa * r.value.totalCredits as real == r.value.totalGradePoints as real)
  {
    if |courses| == 0 then None
    else
      var credits := CountedCredits(courses);
      if credits == 0 then None
      else
        var points := CountedPoints(courses);
        Some(SgpaResult(points as real / credits as real, credits, points))
  }

  /** `calculateSGPA`: the loop that skips courses without a final grade point. */
  method CalculateSgpa(courses: seq<Course>) returns (r: Option<SgpaResult>)
    ensures r == Sgpa(courses)
  {
    if |courses| == 0 {
      return None;
    }
    var totalCredits := 0;
    var totalGradePoints := 0;
    for i := 0 to |courses|
      invariant totalCredits == CountedCredits(courses[..i])
      invariant totalGradePoints == CountedPoints(courses[..i])
    {
      assert courses[..i + 1][..i] == courses[..i];
      var course := courses[i];
      if course.finalGradePoint.None? {
        continue;
      }
      totalCredits := totalCredits + course.credits;
      totalGradePoints := totalGradePoints + course.credits * course.finalGradePoint.value;
    }
    assert courses[..|courses|] == courses;
    if totalCredits == 0 {
      return None;
    }
    return Some(SgpaResult(totalGradePoints as real / totalCredits as real, totalCredits, totalGradePoints));
  }

  /** Appending a course adds its credits only when it has a final grade point. */
  lemma CountedAppend(courses: seq<Course>, c: Course)
    ensures CountedCredits(courses + [c]) == CountedCredits(courses) + (if c.finalGradePoint.Some? then c.credits else 0)
    ensures CountedPoints(courses + [c]) == CountedPoints(courses)
      + (if c.finalGradePoint.Some? then c.credits * c.finalGradePoint.value else 0)
  {
    assert (courses + [c])[..|courses|] == courses;
  }

  predicate CountedInRange(courses: seq<Course>) {
    forall c :: c in courses && c.finalGradePoint.Some? ==> c.credits > 0 && 0 <= c.finalGradePoint.value <= 10
  }

  /** With positive credits and final grade points in [0, 10], the points lie in [0, 10 × credits]. */
  lemma {:induction false} CountedBounds(courses: seq<Course>)
    requires CountedInRange(courses)
    ensures 0 <= CountedCredits(courses)
    ensures 0 <= CountedPoints(courses) <= 10 * CountedCredits(courses)
  {
    if courses != [] {
      var init := courses[..|courses| - 1];
      var last := courses[|courses| - 1];
      assert forall c :: c in init ==> c in courses;
      assert last in courses;
      CountedBounds(init);
      if last.finalGradePoint.Some? {
        assert 0 <= last.credits * last.finalGradePoint.value <= 10 * last.credits by {
          MulBounds(last.finalGradePoint.value, last.credits);
        }
      }
    }
  }

  /** The SGPA of courses with positive credits and grade points in [0, 10] is itself in [0, 10]. */
  lemma SgpaInRange(courses: seq<Course>)
    requires CountedInRange(courses) && Sgpa(courses).Some?
    ensures 0.0 <= Sgpa(courses).value.sgpa <= 10.0
  {
    CountedBounds(courses);
    var r := Sgpa(courses).value;
    RatioInRange(r.totalGradePoints, r.totalCredits, r.sgpa);
  }

  /** Points in [0, 10 × credits] over positive credits give a ratio in [0, 10]. */
  lemma RatioInRange(points: int, credits: int, q: real)
    requires credits > 0 && 0 <= points <= 10 * credits
    requires q * credits as real == points as real
    ensures 0.0 <= q <= 10.0
  {
    var t := credits as real;
    assert 0.0 * t <= q * t;
    assert points as real <= (10 * credits) as real == 10.0 * t;
    CancelPositive(0.0, q, t);
    CancelPositive(q, 10.0, t);
  }

  /** A positive factor can be cancelled from both sides of an inequality. */
  lemma CancelPositive(a: real, b: real, t: real)
    requires t > 0.0 && a * t <= b * t
    ensures a <= b
  {
  }

  /** Credits 3 at grade point 8 and 4 at grade point 6: 48 points over 7 credits. */
  lemma SgpaExample(c1: Course, c2: Course)
    requires c1.credits == 3 && c1.finalGradePoint == Some(8)
    requires c2.credits == 4 && c2.finalGradePoint == Some(6)
    ensures Sgpa([c1, c2]).Some?
    ensures Sgpa([c1, c2]).value.totalCredits == 7 && Sgpa([c1, c2]).value.totalGradePoints == 48
    ensures Sgpa([c1, c2]).value.sgpa == 48.0 / 7.0
  {
    assert [c1, c2][..1] == [c1];
    assert [c1][..0] == [];
    assert CountedCredits([c1]) == 3 && CountedPoints([c1]) == 24;
    assert CountedCredits([c1, c2]) == 7 && CountedPoints([c1, c2]) == 48;
  }

  // ---------------------------------------------------------------------------
  // CGPA

  datatype CgpaResult = CgpaResult(cgpa: real, totalCredits: int, totalGradePoints: real)

  /** `calculateCGPA`: the credit-weighted blend of the previous CGPA and the current SGPA. */
  function CalculateCgpa(currentSgpa: real, currentCredits: int, previousCgpa: real, previousCredits: int): (r: CgpaResult)
    requires previousCredits + currentCredits != 0
    ensures r.totalCredits == previousCredits + currentCredits
    ensures r.totalGradePoints == previousCgpa * previousCredits as real + currentSgpa * currentCredits as real
    ensures r.cgpa * r.totalCredits as real == r.totalGradePoints
  {
    var previousGradePoints := previousCgpa * previousCredits as real;
    var currentGradePoints := currentSgpa * currentCredits as real;
    var totalGradePoints := previousGradePoints + currentGradePoints;
    var totalCredits := previousCredits + currentCredits;
    CgpaResult(totalGradePoints / totalCredits as real, totalCredits, totalGradePoints)
  }

  /** With positive credits on both sides the new CGPA lies between the previous CGPA and the SGPA. */
  lemma CgpaBetween(currentSgpa: real, currentCredits: int, previousCgpa: real, previousCredits: int)
    requires currentCredits > 0 && previousCredits > 0
    ensures var r := CalculateCgpa(currentSgpa, currentCredits, previousCgpa, previousCredits);
      (if currentSgpa <= previousCgpa then currentSgpa else previousCgpa) <= r.cgpa
      && r.cgpa <= (if currentSgpa <= previousCgpa then previousCgpa else currentSgpa)
  {
    var r := CalculateCgpa(currentSgpa, currentCredits, previousCgpa, previousCredits);
    var lo := if currentSgpa <= previousCgpa then currentSgpa else previousCgpa;
    var hi := if currentSgpa <= previousCgpa then previousCgpa else currentSgpa;
    var cc, pc := currentCredits as real, previousCredits as real;
    var t := cc + pc;
    assert r.cgpa * t == previousCgpa * pc + currentSgpa * cc;
    MulMonotone(lo, previousCgpa, pc);
    MulMonotone(previousCgpa, hi, pc);
    MulMonotone(lo, currentSgpa, cc);
    MulMonotone(currentSgpa, hi, cc);
    AddBounds(lo * pc, previousCgpa * pc, hi * pc, lo * cc, currentSgpa * cc, hi * cc);
    assert lo * t == lo * pc + lo * cc && hi * t == hi * pc + hi * cc;
    CancelPositive(lo, r.cgpa, t);
    CancelPositive(r.cgpa, hi, t);
  }

  /** Bounds add up. */
  lemma AddBounds(l1: real, x1: real, h1: real, l2: real, x2: real, h2: real)
    requires l1 <= x1 <= h1 && l2 <= x2 <= h2
    ensures l1 + l2 <= x1 + x2 <= h1 + h2
  {
  }

  /** Multiplying by a non-negative factor keeps an inequality. */
  lemma MulMonotone(a: real, b: real, t: real)
    requires a <= b && t >= 0.0
    ensures a * t <= b * t
  {
    assert (b - a) * t >= 0.0;
  }

  /** CGPA 8.0 over 60 credits with SGPA 7.5 over 20: (480 + 150) / 80 = 7.875. */
  lemma CgpaExample()
    ensures CalculateCgpa(7.5, 20, 8.0, 60) == CgpaResult(7.875, 80, 630.0)
  {
  }

  // ---------------------------------------------------------------------------
  // Forced F

  datatype FCheck = FCheck(isF: bool, reason: string)

  /** The sessional-total rule of `checkForFGrade` reads `s1.marks` and `s2.marks`; it is
      defined unless it is reached with a sessional missing from the list (the source throws). */
  predicate FCheckDefined(assessments: seq<Assessment>) {
    var s1 := Find(assessments, Sessional1);
    var s2 := Find(assessments, Sessional2);
    (LabelIs(s1, "I") || LabelIs(s2, "I")) && MarksNotNull(s1) && MarksNotNull(s2) ==> s1.Some? && s2.Some?
  }

  /** `checkForFGrade`: F when Learning Engagement is "L/AB", or when a sessional is "I",
      both sessional marks are entered and they add up to less than 25. */
  function CheckForFGrade(assessments: seq<Assessment>): (r: FCheck)
    requires FCheckDefined(assessments)
    ensures r.isF <==> r.reason != ""
    ensures r.isF ==> (LabelIs(Find(assessments, LearningEngagement), "L/AB")
      || LabelIs(Find(assessments, Sessional1), "I") || LabelIs(Find(assessments, Sessional2), "I"))
    ensures LabelIs(Find(assessments, LearningEngagement), "L/AB") ==> r.isF
    ensures ((LabelIs(Find(assessments, Sessional1), "I") || LabelIs(Find(assessments, Sessional2), "I"))
      && SessionalTotalMarks(assessments).bothEntered && SessionalTotalMarks(assessments).total < 25.0) ==> r.isF
  {
    var le := Find(assessments, LearningEngagement);
    if le.Some? && le.value.gradeLabel == Some("L/AB") then
      FCheck(true, "Learning Engagement is L/AB")
    else
      var s1 := Find(assessments, Sessional1);
      var s2 := Find(assessments, Sessional2);
      if (LabelIs(s1, "I") || LabelIs(s2, "I")) && MarksNotNull(s1) && MarksNotNull(s2) then
        var total := s1.value.marks.GetOr(0.0) + s2.value.marks.GetOr(0.0);
        if total < 25.0 then FCheck(true, "Sessional total < 25 with I grade") else FCheck(false, "")
      else
        FCheck(false, "")
  }

  /** "Ab/R" and "P" never force F: without "L/AB" and without a sessional "I" there is no F. */
  lemma NoFWithoutLabOrI(assessments: seq<Assessment>)
    requires FCheckDefined(assessments)
    requires !LabelIs(Find(assessments, LearningEngagement), "L/AB")
    requires !LabelIs(Find(assessments, Sessional1), "I") && !LabelIs(Find(assessments, Sessional2), "I")
    ensures !CheckForFGrade(assessments).isF
  {
  }

  /** F through the sessional rule needs both marks entered and a total below 25. */
  lemma FBySessionalsNeedsLowTotal(assessments: seq<Assessment>)
    requires FCheckDefined(assessments)
    requires !LabelIs(Find(assessments, LearningEngagement), "L/AB")
    requires CheckForFGrade(assessments).isF
    ensures SessionalTotalMarks(assessments).bothEntered
    ensures SessionalTotalMarks(assessments).total < 25.0
  {
  }

  // ---------------------------------------------------------------------------
  // Special sessional grades

  /** `requiresMarksInput`: exactly the special sessional grades other than "P". */
  function RequiresMarksInput(gradeLabel: Option<string>): (r: bool)
    ensures r <==> gradeLabel.Some? && gradeLabel.value in SpecialSessionalGrades && gradeLabel.value != "P"
  {
    gradeLabel.Some? && gradeLabel.value in ["I", "Ab/R"]
  }

  datatype SessionalTotals = SessionalTotals(total: real, s1Marks: Option<real>, s2Marks: Option<real>, bothEntered: bool)

  /** `getSessionalTotalMarks`: a missing mark counts as 0 in the total. */
  function SessionalTotalMarks(assessments: seq<Assessment>): (r: SessionalTotals)
    ensures r.bothEntered <==> r.s1Marks.Some? && r.s2Marks.Some?
    ensures r.s1Marks.Some? ==> Find(assessments, Sessional1).Some?
    ensures r.s2Marks.Some? ==> Find(assessments, Sessional2).Some?
    ensures r.total == r.s1Marks.GetOr(0.0) + r.s2Marks.GetOr(0.0)
  {
    var s1 := Find(assessments, Sessional1);
    var s2 := Find(assessments, Sessional2);
    var s1Marks := if s1.Some? then s1.value.marks else None;
    var s2Marks := if s2.Some? then s2.value.marks else None;
    var bothEntered := s1Marks.Some? && s2Marks.Some?;
    var total := s1Marks.GetOr(0.0) + s2Marks.GetOr(0.0);
    SessionalTotals(total, s1Marks, s2Marks, bothEntered)
  }

  /** `getSessionalGradePoint`: "P" is 4, "I" is 4 from a total of 25 on, anything else is 0. */
  function SessionalGradePoint(gradeLabel: Option<string>, totalMarks: real): (r: int)
    ensures r == 0 || r == 4
    ensures r == 4 <==> gradeLabel == Some("P") || (gradeLabel == Some("I") && totalMarks >= 25.0)
  {
    if gradeLabel.None? || gradeLabel.value == "" then 0
    else if gradeLabel.value == "Ab/R" then 0
    else if gradeLabel.value == "I" then (if totalMarks >= 25.0 then 4 else 0)
    else if gradeLabel.value == "P" then 4
    else 0
  }

  // ---------------------------------------------------------------------------
  // New courses

  /** The assessment list of a regular course: Sessional 1, Sessional 2, Learning Engagement. */
  predicate StandardShape(assessments: seq<Assessment>) {
    |assessments| == 3
    && assessments[0].kind == Sessional1 && assessments[0].weight == 30
    && assessments[1].kind == Sessional2 && assessments[1].weight == 45
    && assessments[2].kind == LearningEngagement && assessments[2].weight == 25
  }

  /** `createDefaultAssessments`. */
  function DefaultAssessments(): (r: seq<Assessment>)
    ensures StandardShape(r)
    ensures WeightTotal(r) == 100
    ensures forall a :: a in r ==> a.gradePoint.None? && a.gradeLabel.None? && a.marks.None?
  {
    [
      Assessment(Sessional1, 30, None, None, None),
      Assessment(Sessional2, 45, None, None, None),
      Assessment(LearningEngagement, 25, None, None, None)
    ]
  }

  /** `createNewCourse`, with the random id passed in. */
  function NewCourse(id: string): (c: Course)
    ensures c.id == id && c.name == "" && c.credits == 3
    ensures c.assessments == DefaultAssessments()
    ensures c.wgp.None? && c.finalGradePoint.None? && c.letterGrade.None?
    ensures !c.hasLab && c.labMarks.None?
  {
    Course(id, "", 3, DefaultAssessments(), None, None, None, false, None)
  }
}
