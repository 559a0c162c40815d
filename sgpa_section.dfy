/**
 * The SGPA section (src/components/calculator/SGPASection.tsx): which courses enter the
 * SGPA, whether the section can show a result, and the result it shows.
 */
module SgpaSection {
  import opened Wrappers
  import opened Calculator
  import opened Strings

  /** A course is listed when it has a final grade point and a name that is not blank. */
  predicate IsValid(c: Course) {
    c.finalGradePoint.Some? && Trim(c.name) != ""
  }

  /** `courses.filter(c => c.finalGradePoint !== null && c.name.trim() !== '')`. */
  function ValidCourses(courses: seq<Course>): (r: seq<Course>)
    ensures |r| <= |courses|
    ensures forall c :: c in r <==> c in courses && IsValid(c)
  {
    if courses == [] then []
    else
      var init := ValidCourses(courses[..|courses| - 1]);
      var last := courses[|courses| - 1];
      assert forall c :: c in courses <==> c in courses[..|courses| - 1] || c == last;
      if IsValid(last) then init + [last] else init
  }

  /** Filtering a concatenation filters each part, in order. */
  lemma {:induction false} ValidCoursesConcat(a: seq<Course>, b: seq<Course>)
    ensures ValidCourses(a + b) == ValidCourses(a) + ValidCourses(b)
  {
    if b != [] {
      var b' := b[..|b| - 1];
      assert (a + b)[..|a + b| - 1] == a + b';
      assert (a + b)[|a + b| - 1] == b[|b| - 1];
      ValidCoursesConcat(a, b');
    } else {
      assert a + b == a;
    }
  }

  /** Filtering twice is filtering once. */
  lemma {:induction false} ValidCoursesIdempotent(courses: seq<Course>)
    ensures ValidCourses(ValidCourses(courses)) == ValidCourses(courses)
  {
    if courses != [] {
      var init := courses[..|courses| - 1];
      var last := courses[|courses| - 1];
      ValidCoursesIdempotent(init);
      if IsValid(last) {
        ValidCoursesConcat(ValidCourses(init), [last]);
        assert [last][..0] == [];
      }
    }
  }

  /** `canCalculate`: at least one course is listed. */
  function CanCalculate(courses: seq<Course>): (r: bool)
    ensures r <==> exists c :: c in courses && IsValid(c)
  {
    var valid := ValidCourses(courses);
    assert valid != [] ==> valid[0] in valid;
    |valid| > 0
  }

  /** `result = calculateSGPA(validCourses)`. */
  function Result(courses: seq<Course>): (r: Option<SgpaResult>)
    ensures r.Some? ==> CanCalculate(courses)
  {
    Sgpa(ValidCourses(courses))
  }

  /** A course without a final grade point or with a blank name changes nothing, wherever it sits. */
  lemma UnlistedCourseIgnored(a: seq<Course>, c: Course, b: seq<Course>)
    requires !IsValid(c)
    ensures ValidCourses(a + [c] + b) == ValidCourses(a + b)
    ensures Result(a + [c] + b) == Result(a + b)
  {
    ValidCoursesConcat(a + [c], b);
    ValidCoursesConcat(a, [c]);
    ValidCoursesConcat(a, b);
    assert [c][..0] == [];
  }

  /** Listed courses with positive credits always give a result once one is listed. */
  lemma {:induction false} PositiveCreditsGiveResult(courses: seq<Course>)
    requires forall c :: c in courses && IsValid(c) ==> c.credits > 0
    ensures CanCalculate(courses) ==> Result(courses).Some? && Result(courses).value.totalCredits > 0
  {
    if courses != [] {
      var init := courses[..|courses| - 1];
      var last := courses[|courses| - 1];
      assert forall c :: c in init ==> c in courses;
      PositiveCreditsGiveResult(init);
      CountedNonNegative(ValidCourses(init));
      if IsValid(last) {
        CountedAppend(ValidCourses(init), last);
      }
    }
  }

  /** The counted credits of courses with positive credits are never negative. */
  lemma {:induction false} CountedNonNegative(courses: seq<Course>)
    requires forall c :: c in courses && c.finalGradePoint.Some? ==> c.credits > 0
    ensures CountedCredits(courses) >= 0
  {
    if courses != [] {
      var init := courses[..|courses| - 1];
      assert forall c :: c in init ==> c in courses;
      assert courses[|courses| - 1] in courses;
      CountedNonNegative(init);
    }
  }

  /** The "Cr × GP" column of the table: one product per listed course. */
  function RowProducts(valid: seq<Course>): (r: seq<int>)
    ensures |r| == |valid|
  {
    seq(|valid|, i requires 0 <= i < |valid| => valid[i].credits * valid[i].finalGradePoint.GetOr(0))
  }

  function Total(s: seq<int>): int {
    if s == [] then 0 else Total(s[..|s| - 1]) + s[|s| - 1]
  }

  /** The products over courses that all have a final grade point add up to the counted points. */
  lemma {:induction false} RowProductsTotal(valid: seq<Course>)
    requires forall c :: c in valid ==> c.finalGradePoint.Some?
    ensures Total(RowProducts(valid)) == CountedPoints(valid)
  {
    if valid != [] {
      var init := valid[..|valid| - 1];
      assert forall c :: c in init ==> c in valid;
      assert valid[|valid| - 1] in valid;
      RowProductsTotal(init);
      assert RowProducts(valid)[..|valid| - 1] == RowProducts(init);
    }
  }

  /** The rows of the SGPA table add up to the total grade points the formula shows. */
  lemma RowsAddUpToTotal(courses: seq<Course>)
    requires Result(courses).Some?
    ensures Total(RowProducts(ValidCourses(courses))) == Result(courses).value.totalGradePoints
  {
    RowProductsTotal(ValidCourses(courses));
  }

  /** With positive credits and final grade points in [0, 10] the SGPA shown is in [0, 10]. */
  lemma ResultInRange(courses: seq<Course>)
    requires CountedInRange(courses) && Result(courses).Some?
    ensures 0.0 <= Result(courses).value.sgpa <= 10.0
  {
    SgpaInRange(ValidCourses(courses));
  }
}
