/**
 * The CGPA section (src/components/calculator/CGPASection.tsx): the previous record the
 * student enters, when the new CGPA can be calculated, and what the page is told.
 * The two text fields are held as their parsed values: `None` for an empty or non-numeric
 * field, the `parseFloat` / `parseInt` value otherwise.
 */
module CgpaSection {
  import opened Wrappers
  import opened Calculator

  /** `canCalculate`: a previous CGPA in [0, 10] and a positive number of previous credits. */
  predicate CanCalculate(previousCgpa: Option<real>, previousCredits: Option<int>) {
    previousCgpa.Some? && previousCredits.Some?
    && 0.0 <= previousCgpa.value <= 10.0 && previousCredits.value > 0
  }

  /**
   * `result`: the blend of the previous record and the current semester, when it can be
   * calculated and the combined credits are not zero.
   */
  function SectionResult(currentSgpa: real, currentCredits: int, previousCgpa: Option<real>, previousCredits: Option<int>)
    : (r: Option<CgpaResult>)
    ensures r.Some? <==> CanCalculate(previousCgpa, previousCredits) && previousCredits.value + currentCredits != 0
    ensures r.Some? ==> (r.value.totalCredits == previousCredits.value + currentCredits
      && r.value.cgpa * r.value.totalCredits as real
         == previousCgpa.value * previousCredits.value as real + currentSgpa * currentCredits as real)
  {
    if !CanCalculate(previousCgpa, previousCredits) || previousCredits.value + currentCredits == 0 then None
    else Some(CalculateCgpa(currentSgpa, currentCredits, previousCgpa.value, previousCredits.value))
  }

  /** With a current semester of positive credits the CGPA shown lies between the previous CGPA and the SGPA. */
  lemma SectionResultBetween(currentSgpa: real, currentCredits: int, previousCgpa: Option<real>, previousCredits: Option<int>)
    requires currentCredits > 0 && CanCalculate(previousCgpa, previousCredits)
    ensures var r := SectionResult(currentSgpa, currentCredits, previousCgpa, previousCredits);
      r.Some?
      && (if currentSgpa <= previousCgpa.value then currentSgpa else previousCgpa.value) <= r.value.cgpa
      && r.value.cgpa <= (if currentSgpa <= previousCgpa.value then previousCgpa.value else currentSgpa)
  {
    CgpaBetween(currentSgpa, currentCredits, previousCgpa.value, previousCredits.value);
  }

  /** What the page keeps of a calculated CGPA. */
  datatype CgpaData = CgpaData(cgpa: real, previousCgpa: real, previousCredits: int, newTotalCredits: int)

  /** The effect on `onCGPACalculated`: called with data or with null, or not called. */
  datatype Notice = Notify(data: Option<CgpaData>) | Silent

  /** The notifying effect: data while a result is shown, null while it is hidden. */
  function Notification(showResult: bool, currentSgpa: real, currentCredits: int,
                        previousCgpa: Option<real>, previousCredits: Option<int>): (n: Notice)
    ensures !showResult ==> n == Notify(None)
    ensures n.Notify? && n.data.Some? <==> showResult && SectionResult(currentSgpa, currentCredits, previousCgpa, previousCredits).Some?
    ensures n.Notify? && n.data.Some? ==>
      var r := SectionResult(currentSgpa, currentCredits, previousCgpa, previousCredits).value;
      n.data.value == CgpaData(r.cgpa, previousCgpa.value, previousCredits.value, r.totalCredits)
  {
    var result := SectionResult(currentSgpa, currentCredits, previousCgpa, previousCredits);
    if showResult && result.Some? then
      Notify(Some(CgpaData(result.value.cgpa, previousCgpa.value, previousCredits.value, result.value.totalCredits)))
    else if !showResult then Notify(None)
    else Silent
  }

  /** The section's state: the two fields, the shown flag, and the current semester it is given. */
  class Section {
    var currentSgpa: real
    var currentCredits: int
    var previousCgpa: Option<real>
    var previousCredits: Option<int>
    var showResult: bool

    /** A result is only ever shown for a record that can be calculated. */
    ghost predicate Valid()
      reads this
    {
      showResult ==> CanCalculate(previousCgpa, previousCredits)
    }

    /** What the page is told in the current state. */
    function CurrentNotice(): (n: Notice)
      reads this
      ensures Valid() && showResult && previousCredits.value + currentCredits != 0 ==>
        n == Notify(Some(CgpaData(SectionResult(currentSgpa, currentCredits, previousCgpa, previousCredits).value.cgpa,
                                  previousCgpa.value, previousCredits.value, previousCredits.value + currentCredits)))
    {
      Notification(showResult, currentSgpa, currentCredits, previousCgpa, previousCredits)
    }

    constructor (sgpa: real, credits: int)
      ensures Valid()
      ensures currentSgpa == sgpa && currentCredits == credits
      ensures previousCgpa.None? && previousCredits.None? && !showResult
    {
      currentSgpa := sgpa;
      currentCredits := credits;
      previousCgpa := None;
      previousCredits := None;
      showResult := false;
    }

    /** The previous CGPA field: the value changes and the result is hidden. */
    method EditPreviousCgpa(value: Option<real>)
      requires Valid()
      modifies this
      ensures Valid()
      ensures previousCgpa == value && !showResult
      ensures previousCredits == old(previousCredits)
      ensures currentSgpa == old(currentSgpa) && currentCredits == old(currentCredits)
      ensures CurrentNotice() == Notify(None)
    {
      previousCgpa := value;
      showResult := false;
    }

    /** The previous credits field: the value changes and the result is hidden. */
    method EditPreviousCredits(value: Option<int>)
      requires Valid()
      modifies this
      ensures Valid()
      ensures previousCredits == value && !showResult
      ensures previousCgpa == old(previousCgpa)
      ensures currentSgpa == old(currentSgpa) && currentCredits == old(currentCredits)
      ensures CurrentNotice() == Notify(None)
    {
      previousCredits := value;
      showResult := false;
    }

    /** The "Calculate New CGPA" button, which is disabled while the record cannot be calculated. */
    method Calculate()
      requires Valid()
      modifies this
      ensures Valid()
      ensures showResult == (old(showResult) || CanCalculate(previousCgpa, previousCredits))
      ensures previousCgpa == old(previousCgpa) && previousCredits == old(previousCredits)
      ensures currentSgpa == old(currentSgpa) && currentCredits == old(currentCredits)
    {
      if CanCalculate(previousCgpa, previousCredits) {
        showResult := true;
      }
    }

    /** New props from the page after a course changed: the shown flag stays as it is. */
    method Rerender(sgpa: real, credits: int)
      requires Valid()
      modifies this
      ensures Valid()
      ensures currentSgpa == sgpa && currentCredits == credits
      ensures previousCgpa == old(previousCgpa) && previousCredits == old(previousCredits)
      ensures showResult == old(showResult)
    {
      currentSgpa := sgpa;
      currentCredits := credits;
    }
  }

  /** Previous CGPA 8.0 over 60 credits, SGPA 7.5 over 20: the page is told CGPA 7.875 over 80 credits. */
  lemma NotificationExample()
    ensures Notification(true, 7.5, 20, Some(8.0), Some(60)) == Notify(Some(CgpaData(7.875, 8.0, 60, 80)))
  {
    CgpaExample();
  }
}
