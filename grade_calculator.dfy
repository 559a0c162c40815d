/**
 * The grade calculator page (src/pages/GradeCalculator.tsx): the list of course records,
 * adding, removing and replacing them, the step indicator derived from them, and what the
 * page hands to the CGPA section.
 */
module GradeCalculator {
  import opened Wrappers
  import opened Calculator
  import opened Lists
  import SgpaSection
  import opened CgpaSection

  /** Course ids are React keys: no two courses share one. */
  predicate DistinctIds(courses: seq<Course>) {
    forall i, j :: 0 <= i < j < |courses| ==> courses[i].id != courses[j].id
  }

  /** `courses.some(c => c.wgp !== null)`. */
  predicate HasAnyWgp(courses: seq<Course>) {
    exists c :: c in courses && c.wgp.Some?
  }

  /** `courses.some(c => c.letterGrade !== null)`. */
  predicate HasAnyLetter(courses: seq<Course>) {
    exists c :: c in courses && c.letterGrade.Some?
  }

  /** Every step the indicator marks complete is a step from 1 to 4, listed in increasing order. */
  predicate StepsInOrder(completed: seq<int>) {
    (forall k :: 0 <= k < |completed| ==> 1 <= completed[k] <= 4)
    && (forall i, j :: 0 <= i < j < |completed| ==> completed[i] < completed[j])
  }

  /** The step the indicator highlights, from what has been reached. */
  function CurrentStep(hasWgp: bool, hasLetter: bool, hasSgpa: bool, cgpaOpen: bool): int {
    if cgpaOpen then 4 else if hasLetter || hasSgpa then 3 else if hasWgp then 2 else 1
  }

  /** The steps marked complete, from what has been reached. */
  function Completed(hasWgp: bool, hasLetter: bool, hasCgpa: bool): seq<int> {
    (if hasWgp then [1] else []) + (if hasLetter then [2] else []) + (if hasCgpa then [3, 4] else [])
  }

  /**
   * Step 1 is complete exactly with a wgp, step 2 exactly with a letter, steps 3 and 4 exactly
   * with a reported CGPA; the list is increasing; and when a CGPA is only reported while its
   * section is open, no completed step lies beyond the current one.
   */
  lemma StepsAgree(hasWgp: bool, hasLetter: bool, hasSgpa: bool, cgpaOpen: bool, hasCgpa: bool)
    requires hasCgpa ==> cgpaOpen
    ensures var c := Completed(hasWgp, hasLetter, hasCgpa);
      (1 in c <==> hasWgp) && (2 in c <==> hasLetter) && (3 in c <==> hasCgpa) && (4 in c <==> hasCgpa)
      && StepsInOrder(c)
      && forall s :: s in c ==> s <= CurrentStep(hasWgp, hasLetter, hasSgpa, cgpaOpen)
    ensures 1 <= CurrentStep(hasWgp, hasLetter, hasSgpa, cgpaOpen) <= 4
  {
    var c := Completed(hasWgp, hasLetter, hasCgpa);
    var a := if hasWgp then [1] else [];
    var b := if hasLetter then [2] else [];
    var d := if hasCgpa then [3, 4] else [];
    assert c == a + b + d;
    assert forall x :: x in c <==> x in a || x in b || x in d;
  }

  /**
   * The CGPA section is rendered once it is open and there is an SGPA, and it is given that SGPA
   * and its total credits, which are never zero.
   */
  function CgpaProps(courses: seq<Course>, showCgpa: bool): (r: Option<(real, int)>)
    ensures r.Some? <==> showCgpa && SgpaSection.Result(courses).Some?
    ensures r.Some? ==> r.value.0 == SgpaSection.Result(courses).value.sgpa
    ensures r.Some? ==> r.value.1 == SgpaSection.Result(courses).value.totalCredits && r.value.1 != 0
  {
    var result := SgpaSection.Result(courses);
    if showCgpa && result.Some? then Some((result.value.sgpa, result.value.totalCredits)) else None
  }

  /** The page: its course records, whether the CGPA section is open, and the CGPA it was told. */
  class Page {
    var courses: seq<Course>
    var showCgpa: bool
    var cgpaData: Option<CgpaData>

    /**
     * There is always at least one course (the remove button is only offered while there are
     * two or more), ids are distinct, and CGPA data only arrives once the CGPA section is open.
     */
    ghost predicate Valid()
      reads this
    {
      |courses| >= 1 && DistinctIds(courses) && (cgpaData.Some? ==> showCgpa)
    }

    /** The page starts with one new course, the CGPA section closed and no CGPA. */
    constructor (id: string)
      ensures Valid()
      ensures courses == [NewCourse(id)] && !showCgpa && cgpaData.None?
    {
      courses := [NewCourse(id)];
      showCgpa := false;
      cgpaData := None;
    }

    /** `addCourse`: a new course, with an id no other course has, goes at the end. */
    method AddCourse(id: string)
      requires Valid()
      requires forall c :: c in courses ==> c.id != id
      modifies this
      ensures Valid()
      ensures courses == old(courses) + [NewCourse(id)]
      ensures showCgpa == old(showCgpa) && cgpaData == old(cgpaData)
    {
      courses := courses + [NewCourse(id)];
    }

    /** `removeCourse(index)`, offered only while there are at least two courses. */
    method RemoveCourse(index: int)
      requires Valid() && |courses| > 1
      modifies this
      ensures Valid()
      ensures courses == RemoveAt(old(courses), index)
      ensures showCgpa == old(showCgpa) && cgpaData == old(cgpaData)
    {
      courses := RemoveAt(courses, index);
    }

    /** `updateCourse(index, updated)`: a card's handler replaces its own course, keeping the id. */
    method UpdateCourse(index: int, updated: Course)
      requires Valid()
      requires 0 <= index < |courses| ==> updated.id == courses[index].id
      modifies this
      ensures Valid()
      ensures courses == ReplaceAt(old(courses), index, updated)
      ensures showCgpa == old(showCgpa) && cgpaData == old(cgpaData)
    {
      courses := ReplaceAt(courses, index, updated);
    }

    /** The SGPA section's button that opens the CGPA section. */
    method ShowCgpa()
      requires Valid()
      modifies this
      ensures Valid()
      ensures showCgpa && courses == old(courses) && cgpaData == old(cgpaData)
    {
      showCgpa := true;
    }

    /** `handleCGPACalculated`, called by the CGPA section, which is only rendered while it is open. */
    method CgpaCalculated(data: Option<CgpaData>)
      requires Valid() && showCgpa
      modifies this
      ensures Valid()
      ensures cgpaData == data && courses == old(courses) && showCgpa == old(showCgpa)
    {
      cgpaData := data;
    }

    /** The step indicator (`currentStep`, `completedSteps`) computed from the page state. */
    method Steps() returns (currentStep: int, completedSteps: seq<int>)
      ensures currentStep == CurrentStep(HasAnyWgp(courses), HasAnyLetter(courses),
                                         SgpaSection.Result(courses).Some?, showCgpa)
      ensures completedSteps == Completed(HasAnyWgp(courses), HasAnyLetter(courses), cgpaData.Some?)
    {
      var hasAnyCourseWgp := HasAnyWgp(courses);
      var hasAnyLetterGrade := HasAnyLetter(courses);
      var sgpaResult := SgpaSection.Result(courses);
      currentStep := 1;
      completedSteps := [];
      if hasAnyCourseWgp {
        completedSteps := completedSteps + [1];
        currentStep := 2;
      }
      ghost var reached := if hasAnyCourseWgp then [1] else [];
      assert completedSteps == reached;
      if hasAnyLetterGrade {
        completedSteps := completedSteps + [2];
        currentStep := 3;
      }
      reached := reached + if hasAnyLetterGrade then [2] else [];
      assert completedSteps == reached;
      if sgpaResult.Some? {
        currentStep := 3;
      }
      if showCgpa {
        currentStep := 4;
      }
      if cgpaData.Some? {
        completedSteps := completedSteps + [3, 4];
      }
    }

    /** In a valid page the indicator's completed steps never run ahead of its current step. */
    lemma StepsConsistent()
      requires Valid()
      ensures var current := CurrentStep(HasAnyWgp(courses), HasAnyLetter(courses), SgpaSection.Result(courses).Some?, showCgpa);
        forall s :: s in Completed(HasAnyWgp(courses), HasAnyLetter(courses), cgpaData.Some?) ==> s <= current
    {
      StepsAgree(HasAnyWgp(courses), HasAnyLetter(courses), SgpaSection.Result(courses).Some?, showCgpa, cgpaData.Some?);
    }
  }
}
