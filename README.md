# Grade calculator and habit grid, modelled in Dafny

This project models the logic of a small client-side web application with two tools.

- **Grade calculator.** A student enters, for each course:
  - a grade label for each of three assessments: Sessional 1, Sessional 2 and Learning Engagement;
  - sessional marks when a sessional carries a special label ("I", "P", "Ab/R");
  - optionally a lab and its marks.

  The calculator works out the course's weighted grade point (WGP), its final grade point and its letter grade. It then rolls the listed courses into a semester GPA (SGPA), and the SGPA and a previous record into a cumulative GPA (CGPA).
  A course named "CLAD" takes a single overall grade and one credit instead.
- **Habit grid.** A weekly tracker holds a list of habits and a check box per habit and weekday. It shows daily and weekly completion percentages.

The modules follow the program's files:

| module | file | what it holds |
|---|---|---|
| `Calculator` | `calculator.dfy` | the grade engine of `src/types/calculator.ts`: grade bands, WGP, the lab blend, SGPA, CGPA, the forced-F check, sessional grade points, new courses |
| `CourseCard` | `course_card.dfy` | the card of `CourseCard.tsx`: grade option tables, `recalculateCourse` (as `Derive` / `Recalculate`), every edit handler, and the class `Card`, whose methods replace the card's course |
| `SgpaSection` | `sgpa_section.dfy` | which courses enter the SGPA, whether it can be shown, and the table's rows |
| `CgpaSection` | `cgpa_section.dfy` | the previous-record gate, the CGPA result, and what the page is told (class `Section`) |
| `GradeCalculator` | `grade_calculator.dfy` | the page: the course list and the step indicator (class `Page`) |
| `HabitTracker` | `habit_tracker.dfy` | the habit grid of `src/pages/Index.tsx` (class `Tracker`) and its percentages |
| `Lists`, `Strings`, `Wrappers` | | removal and replacement by index, JavaScript `trim` and ASCII lower-casing, `Option` |

Numbers are modelled exactly:
- Grade points, WGP, final grade points and credits are integers, as they always are in the program.
- Marks, lab marks, the raw WGP, SGPA and CGPA are exact reals.
- Weights are whole hundredths: 30, 45 and 25.
- `Math.ceil` is written out as `Ceil`, and `Math.round` on non-negative values as `RoundHalfUp`.

Text fields that the program parses with `parseFloat`, `parseInt` or `Number` arrive already parsed. They are `None` for an empty field and `Some(v)` otherwise.

In these points the model follows the code:
- **Pending marks beat L/AB.** A course with a sessional "I" or "Ab/R" whose two marks are not both entered stays unresolved, even when Learning Engagement is "L/AB". The code checks for pending marks before it runs the forced-F check.
- **Marks inputs.** Only "I" and "Ab/R" ask for marks (`RequiresMarksInput`). A sessional "P" is worth 4 at once.
- **Learning Engagement "P".** It is not worth 4 as written. See finding 1.

## Model

| member | source | states |
|---|---|---|
| `Calculator.Find` | src/types/calculator.ts:106 | `assessments.find` by name: the FIRST assessment of that kind in the list (no earlier one has that kind), and `None` exactly when there is none |
| `Calculator.Ceil` | src/types/calculator.ts:59 | `Math.ceil`: the least integer not below `x` |
| `Calculator.CalculateWgp` | src/types/calculator.ts:38-43 | null exactly for an empty list or one with an unresolved grade point; otherwise 100 × WGP is the weighted sum of grade points |
| `Calculator.WeightedSumBounds` | src/types/calculator.ts:42 | with grade points in [0, 10] the weighted sum lies between 0 and 10 × the total weight |
| `Calculator.WgpInRange` | src/types/calculator.ts:38-43 | for weights summing to 1 and resolved grade points in [0, 10], the WGP exists and lies in [0, 10] |
| `Calculator.GradeFromWgp` | src/types/calculator.ts:46-51 | the band is one of the eight mappings; for a non-negative value its minimum is at most the value; below 4 it is "F" |
| `Calculator.GetGradeFromWgp` | src/types/calculator.ts:46-51 | the loop over the mappings returns the band `GradeFromWgp` specifies |
| `Calculator.GradeIsFirstFit` | src/types/calculator.ts:46-51 | for a non-negative value the band is the first mapping, in the order of the table at lines 23-32, whose minimum is at most the value |
| `Calculator.IntegerGradeLetters` | src/types/calculator.ts:23-32 | integer grade points 4…10 fall in bands P, C, B, B+, A, A+, O |
| `Calculator.FirstAtMostMonotone` | src/types/calculator.ts:46-51 | a higher value never falls in a later (lower) band |
| `Calculator.CalculateFinalGradePointWithLab` | src/types/calculator.ts:55-61 | with blended = (7 × WGP + 0.3 × lab marks) / 10: when blended is at most 10 the result is the least integer not below it (ceil); above 10 it is 10 |
| `Calculator.LabBlendInRange` | src/types/calculator.ts:55-61 | with WGP in [0, 10] and lab marks in [0, 100] the blend lies in [0, 10] |
| `Calculator.LabBlendExample` | src/types/calculator.ts:55-61 | WGP 8 with lab marks 90 blends to 9, band "A+" |
| `Calculator.Sgpa` | src/types/calculator.ts:64-83 | null exactly when the courses with a final grade point carry zero credits; otherwise SGPA × credits = total grade points over those courses |
| `Calculator.CalculateSgpa` | src/types/calculator.ts:64-83 | the loop, which skips courses without a final grade point, returns `Sgpa` |
| `Calculator.CountedAppend` | src/types/calculator.ts:70-74 | one more course adds its credits and credits × grade point only when it has a final grade point |
| `Calculator.CountedBounds` | src/types/calculator.ts:70-74 | with positive credits and final grade points in [0, 10], credits are non-negative and the points lie between 0 and 10 × the credits |
| `Calculator.SgpaInRange` | src/types/calculator.ts:64-83 | under the same bounds the SGPA lies in [0, 10] |
| `Calculator.SgpaExample` | src/types/calculator.ts:64-83 | 3 credits at 8 and 4 credits at 6 give 7 credits, 48 points, SGPA 48/7 |
| `Calculator.CalculateCgpa` | src/types/calculator.ts:86-102 | total credits are the sum; total points are previous CGPA × credits + SGPA × credits; CGPA × total credits = total points |
| `Calculator.CgpaBetween` | src/types/calculator.ts:86-102 | with positive credits on both sides the CGPA lies between the previous CGPA and the SGPA |
| `Calculator.CgpaExample` | src/types/calculator.ts:86-102 | SGPA 7.5 over 20 with CGPA 8.0 over 60 gives 7.875 over 80 with 630 points |
| `Calculator.CheckForFGrade` | src/types/calculator.ts:105-126 | a reason is given exactly when F is forced; Learning Engagement "L/AB" forces F, and so does a sessional "I" with both marks entered and a total below 25; no F without "L/AB" or a sessional "I" |
| `Calculator.NoFWithoutLabOrI` | src/types/calculator.ts:105-126 | without "L/AB" and without a sessional "I", F is never forced |
| `Calculator.FBySessionalsNeedsLowTotal` | src/types/calculator.ts:115-123 | an F not caused by "L/AB" needs both sessional marks entered and a total below 25 |
| `Calculator.RequiresMarksInput` | src/types/calculator.ts:129-132 | true exactly for "I" and "Ab/R" |
| `Calculator.SessionalTotalMarks` | src/types/calculator.ts:135-149 | both entered exactly when both marks are present; a present mark comes from an existing sessional; the total counts a missing mark as 0 |
| `Calculator.SessionalGradePoint` | src/types/calculator.ts:152-164 | always 0 or 4; 4 exactly for "P", or for "I" with a total of at least 25 |
| `Calculator.DefaultAssessments` | src/types/calculator.ts:167-173 | Sessional 1, Sessional 2, Learning Engagement, weighted 30/45/25 (summing to 100), with nothing entered |
| `Calculator.NewCourse` | src/types/calculator.ts:176-188 | the given id, empty name, 3 credits, default assessments, nothing derived, no lab |
| `CourseCard.GradeOptionsForKinds` | src/components/calculator/CourseCard.tsx:74-77 | `getGradeOptions`: only Learning Engagement is offered "L/AB"; only the sessionals are offered "I" and "Ab/R" |
| `CourseCard.IsCladChars` | src/components/calculator/CourseCard.tsx:72 | a name is CLAD exactly when its trimmed form has four characters that lower-case to "clad" |
| `CourseCard.OptionValuesInRange` | src/components/calculator/CourseCard.tsx:23-55 | every Learning Engagement and CLAD option is worth [0, 10]; a sessional option is worth -1 exactly for "P", "I", "Ab/R" and [0, 10] otherwise |
| `CourseCard.FindOption` | src/components/calculator/CourseCard.tsx:201 | the option found carries the label, and `None` exactly when no option does |
| `CourseCard.FindOptionAt` | src/components/calculator/CourseCard.tsx:201 | the first option carrying a label is the one found |
| `CourseCard.SameEntriesAgree` | src/components/calculator/CourseCard.tsx:83-88 | lists that agree on names, labels and marks agree on every branch test, the sessional totals and the forced-F check |
| `CourseCard.MapProvisionalP` | src/components/calculator/CourseCard.tsx:142-148 | a sessional "P" gets grade point 4 (as also at lines 94-99), everything else is kept, and names, labels and marks do not change |
| `CourseCard.MapResolve` | src/components/calculator/CourseCard.tsx:106-121 | each sessional special label gets `getSessionalGradePoint(label, total)`, and names, labels and marks do not change |
| `CourseCard.Score` | src/components/calculator/CourseCard.tsx:123-138 | a WGP exactly when `calculateWGP` gives one; with it a final grade point and a letter, without it neither |
| `CourseCard.Derive` | src/components/calculator/CourseCard.tsx:79-197 | re-derivation changes only sessional grade points; names, labels and marks are kept |
| `CourseCard.Recalculate` | src/components/calculator/CourseCard.tsx:79-197 | id, name, credits and the lab are kept, and the new list agrees with the edited one on names, labels and marks |
| `CourseCard.NotPendingFCheckDefined` | src/components/calculator/CourseCard.tsx:104-175 | every call `recalculateCourse` makes to `checkForFGrade` is on a list where it cannot throw |
| `CourseCard.DeriveCases` | src/components/calculator/CourseCard.tsx:79-197 | the three branches collapse to two: marks pending (only the provisional "P"), or resolved and then forced F or scored |
| `CourseCard.DeriveIdempotent` | src/components/calculator/CourseCard.tsx:79-197 | re-deriving a re-derived list changes nothing |
| `CourseCard.RecalculateIsConsistent` | src/components/calculator/CourseCard.tsx:79-197 | every course `recalculateCourse` hands on is a fixed point of re-derivation |
| `CourseCard.RecalculatePending` | src/components/calculator/CourseCard.tsx:90-101 | while an "I"/"Ab/R" waits for both marks: no WGP, final grade point or letter, and only sessional "P" changes (to 4) |
| `CourseCard.RecalculateResolvesSpecials` | src/components/calculator/CourseCard.tsx:104-148 | once resolved, each branch changes exactly the sessional grade points the source sets, and the plain branch none |
| `CourseCard.RecalculateForcedF` | src/components/calculator/CourseCard.tsx:105-178 | a forced F gives WGP 0, final grade point 0 and "F", whatever the lab |
| `CourseCard.RecalculateWgp` | src/components/calculator/CourseCard.tsx:123-182 | without F, a WGP exactly when the list is nonempty and fully resolved, equal to min(10, ceil(raw WGP)); none means no final grade point or letter |
| `CourseCard.RecalculateLabAndLetter` | src/components/calculator/CourseCard.tsx:128-194 | the final grade point is the lab blend with a lab and marks, the WGP otherwise, and the letter is its band |
| `CourseCard.MapResolveInRange` | src/components/calculator/CourseCard.tsx:106-121 | resolving special labels keeps grade points in [0, 10] |
| `CourseCard.MapProvisionalPInRange` | src/components/calculator/CourseCard.tsx:142-148 | the provisional "P" (here and at lines 94-99) keeps grade points in [0, 10] |
| `CourseCard.ResolvedInRange` | src/components/calculator/CourseCard.tsx:94-121 | resolution keeps grade points in [0, 10] in every branch |
| `CourseCard.RecalculateInRange` | src/components/calculator/CourseCard.tsx:79-197 | with grade points in [0, 10] and non-negative lab marks, WGP and final grade point lie in [0, 10] |
| `CourseCard.WithGradeInRange` | src/components/calculator/CourseCard.tsx:199-223 | the corrected grade handler only stores grade points in [0, 10] |
| `CourseCard.WithMarksInRange` | src/components/calculator/CourseCard.tsx:225-232 | typing marks keeps grade points in [0, 10] |
| `CourseCard.RecalculateValuesInRange` | src/components/calculator/CourseCard.tsx:79-197 | re-deriving an in-range course from in-range assessments keeps grade points, WGP, final grade point and lab marks in range |
| `CourseCard.LabHandlersInRange` | src/components/calculator/CourseCard.tsx:565-574 | the corrected lab toggle and lab-marks handler keep every value in range, given marks in [0, 100] |
| `CourseCard.CladGradeInRange` | src/components/calculator/CourseCard.tsx:363-375 | a CLAD grade keeps every value in range |
| `CourseCard.StandardScore` | src/components/calculator/CourseCard.tsx:175-196 | for a plain standard course the WGP is min(10, ceil(0.30 S1 + 0.45 S2 + 0.25 LE)) |
| `CourseCard.UnresolvedLeNeverScores` | src/components/calculator/CourseCard.tsx:181-182 | a standard course whose Learning Engagement has no grade point never gets a WGP |
| `CourseCard.DeriveWithoutLab` | src/components/calculator/CourseCard.tsx:128-136 | without lab marks the final grade point is the WGP and the letter its band, with the same assessments and WGP |
| `CourseCard.WithGradeAsWritten` | src/components/calculator/CourseCard.tsx:199-223 | the grade handler as written; see finding 1 |
| `CourseCard.WithGrade` | src/components/calculator/CourseCard.tsx:199-223 | only the chosen assessment changes and its marks are cleared; a label is stored exactly when it is an option; a grade point is stored exactly for options that are not sessional specials, with the option's value |
| `CourseCard.LePassStored` | src/components/calculator/CourseCard.tsx:199-223 | choosing "P" for Learning Engagement stores grade point 4, the value of its option at line 42 |
| `CourseCard.LePassScores` | src/components/calculator/CourseCard.tsx:175-196 | a Learning Engagement "P" worth 4 (its option at line 42) enters the WGP at weight 25 |
| `CourseCard.LePassExample` | src/components/calculator/CourseCard.tsx:175-196 | S1 "O", S2 "O", Learning Engagement "P" give WGP 9 |
| `CourseCard.LePassStoredAsWritten` | src/components/calculator/CourseCard.tsx:211-216 | as written, Learning Engagement "P" is stored without a grade point |
| `CourseCard.LePassAsWrittenNeverScores` | src/components/calculator/CourseCard.tsx:211-216 | as written, a standard course with Learning Engagement "P" has no WGP, or is forced to F |
| `CourseCard.UnresolvedLeScoresAtMostF` | src/components/calculator/CourseCard.tsx:79-197 | a standard course whose Learning Engagement has no grade point gets no WGP, unless it is forced to F |
| `CourseCard.ClampMarks` | src/components/calculator/CourseCard.tsx:226 | `min(100, max(0, x))`: in range kept, below 0 gives 0, above 100 gives 100 |
| `CourseCard.ParseMarks` | src/components/calculator/CourseCard.tsx:226 | an empty field gives null; anything else a mark in [0, 100] |
| `CourseCard.WithMarks` | src/components/calculator/CourseCard.tsx:227-230 | only the chosen assessment's marks change |
| `CourseCard.LabToggledAsWritten` | src/components/calculator/CourseCard.tsx:242-249 | the toggle as written: the letter is always kept; checking keeps marks and final grade point; unchecking drops the marks and sets the final grade point to the WGP |
| `CourseCard.LabToggled` | src/components/calculator/CourseCard.tsx:242-249 | checking keeps the marks and grades; unchecking drops the lab marks and sets the final grade point to the WGP with its band as letter |
| `CourseCard.LabToggleKeepsConsistent` | src/components/calculator/CourseCard.tsx:242-249 | the corrected toggle keeps a consistent course consistent |
| `CourseCard.LabToggleAsWrittenLeavesStaleLetter` | src/components/calculator/CourseCard.tsx:242-249 | as written, unchecking a lab course graded "A+" through its lab leaves final grade point 8 with letter "A+", a course re-derivation would change |
| `CourseCard.LabMarksEntered` | src/components/calculator/CourseCard.tsx:565-574 | the corrected handler of findings 3 and 4: only marks, final grade point and letter change; without a WGP or under a forced F only the marks; otherwise the lab blend and its band when marks are entered, and the WGP and its band when the field is cleared |
| `CourseCard.LabMarksKeepConsistent` | src/components/calculator/CourseCard.tsx:565-574 | the corrected lab-marks handler keeps a consistent lab course consistent, whether marks are entered or cleared |
| `CourseCard.LabMarksEnteredAsWritten` | src/components/calculator/CourseCard.tsx:565-574 | the handler as written: the marks are stored; with a WGP and marks entered, the lab blend and its band; otherwise nothing else changes, even when the field is cleared or F is forced |
| `CourseCard.LabMarksClearedAsWrittenKeepsBlend` | src/components/calculator/CourseCard.tsx:565-574 | as written, clearing lab marks 90 on a course of WGP 8 keeps final grade point 9, "A+", which re-derivation would change |
| `CourseCard.LabMarksClearedFallsBack` | src/components/calculator/CourseCard.tsx:565-574 | the corrected handler gives that course final grade point 8, "A", the WGP and its band (consistency for every lab course is `LabMarksKeepConsistent`) |
| `CourseCard.LabMarksAsWrittenLiftForcedF` | src/components/calculator/CourseCard.tsx:565-574 | as written, lab marks 100 on a course forced to F by "L/AB" raise its final grade point to 3 |
| `CourseCard.CladGradeSelected` | src/components/calculator/CourseCard.tsx:363-375 | an unknown grade changes nothing; a known one sets 1 credit, WGP and final grade point to its value, its label as letter, no assessments and no lab |
| `CourseCard.CladLettersMatchBands` | src/components/calculator/CourseCard.tsx:46-55 | every CLAD option but "I" is worth a grade point whose band is its own letter |
| `CourseCard.IsCladExample` | src/components/calculator/CourseCard.tsx:72 | "  Clad " names a CLAD course (trimmed, case-insensitive) |
| `CourseCard.IsCladExactName` | src/components/calculator/CourseCard.tsx:72 | a name whose trimmed length is not 4 is never CLAD |
| `CourseCard.Card.constructor` | src/components/calculator/CourseCard.tsx:65-71 | a card holds the course it is given; its invariant is the shape and every grade point, WGP, final grade point in [0, 10] and lab marks in [0, 100] |
| `CourseCard.Card.UpdateAssessmentGrade` | src/components/calculator/CourseCard.tsx:199-223 | runs the corrected `WithGrade` of finding 1, not the code as written: the new course is the re-derivation of that edited list, it is consistent, and the invariant (values in range) is kept |
| `CourseCard.Card.UpdateAssessmentMarks` | src/components/calculator/CourseCard.tsx:225-232 | the new course is the re-derivation with the parsed, clamped marks, it is consistent, and values stay in range |
| `CourseCard.Card.HandleLabToggle` | src/components/calculator/CourseCard.tsx:242-249 | runs the corrected `LabToggled` of finding 2, not the code as written: the course is toggled, stays consistent and in range |
| `CourseCard.Card.EnterLabMarks` | src/components/calculator/CourseCard.tsx:565-574 | runs the corrected `LabMarksEntered` of findings 3 and 4, not the code as written: the parsed marks are entered, a consistent lab course stays consistent, values stay in range |
| `CourseCard.Card.SelectCladGrade` | src/components/calculator/CourseCard.tsx:363-375 | the CLAD grade is applied, and values stay in range |
| `CourseCard.Card.Rename` | src/components/calculator/CourseCard.tsx:316 | only the name changes |
| `CourseCard.Card.SetCredits` | src/components/calculator/CourseCard.tsx:349 | only the credits change |
| `SgpaSection.ValidCourses` | src/components/calculator/SGPASection.tsx:24 | a course is kept exactly when it has a final grade point and a name that is not blank |
| `SgpaSection.ValidCoursesConcat` | src/components/calculator/SGPASection.tsx:24 | the filter distributes over concatenation, keeping order |
| `SgpaSection.ValidCoursesIdempotent` | src/components/calculator/SGPASection.tsx:24 | filtering twice is filtering once |
| `SgpaSection.CanCalculate` | src/components/calculator/SGPASection.tsx:25 | true exactly when some course is listed |
| `SgpaSection.Result` | src/components/calculator/SGPASection.tsx:26 | a result is only shown when a course is listed |
| `SgpaSection.UnlistedCourseIgnored` | src/components/calculator/SGPASection.tsx:24-26 | a course without a final grade point or with a blank name changes neither the listed courses nor the result |
| `SgpaSection.PositiveCreditsGiveResult` | src/components/calculator/SGPASection.tsx:25-26 | with positive credits, a listed course always yields a result with positive credits |
| `SgpaSection.RowProductsTotal` | src/components/calculator/SGPASection.tsx:97-111 | the "Cr × GP" column adds up to the counted points |
| `SgpaSection.RowsAddUpToTotal` | src/components/calculator/SGPASection.tsx:97-111 | the table rows add up to the total grade points in the result |
| `SgpaSection.ResultInRange` | src/components/calculator/SGPASection.tsx:26 | with bounded inputs the SGPA shown lies in [0, 10] |
| `CgpaSection.SectionResult` | src/components/calculator/CGPASection.tsx:23-30 | a result exactly when the gate passes and the combined credits are not 0; then the combined credits and the weighted blend |
| `CgpaSection.SectionResultBetween` | src/components/calculator/CGPASection.tsx:23-30 | with a positive current semester the result exists and lies between the previous CGPA and the SGPA |
| `CgpaSection.Notification` | src/components/calculator/CGPASection.tsx:51-57 | hidden means null; data exactly while shown with a result, carrying that result and the previous record |
| `CgpaSection.NotificationExample` | src/components/calculator/CGPASection.tsx:51-57 | previous 8.0 over 60 and SGPA 7.5 over 20 report CGPA 7.875 over 80 credits |
| `CgpaSection.Section.CurrentNotice` | src/components/calculator/CGPASection.tsx:51-57 | a shown result reports its CGPA with the combined credits |
| `CgpaSection.Section.constructor` | src/components/calculator/CGPASection.tsx:17-20 | empty fields, nothing shown |
| `CgpaSection.Section.EditPreviousCgpa` | src/components/calculator/CGPASection.tsx:86 | the field changes, the result is hidden, and the page is told null |
| `CgpaSection.Section.EditPreviousCredits` | src/components/calculator/CGPASection.tsx:99 | the field changes, the result is hidden, and the page is told null |
| `CgpaSection.Section.Calculate` | src/components/calculator/CGPASection.tsx:120-121 | the result is shown only when the gate passes |
| `CgpaSection.Section.Rerender` | src/components/calculator/CGPASection.tsx:17 | new SGPA and credits from the page leave the fields and the shown flag alone |
| `GradeCalculator.StepsAgree` | src/pages/GradeCalculator.tsx:46-65 | step 1 complete iff a WGP, 2 iff a letter, 3 and 4 iff a CGPA; steps increase, none exceeds the current step, which is 1…4 |
| `GradeCalculator.Page.constructor` | src/pages/GradeCalculator.tsx:12-19 | one new course, CGPA section closed, no CGPA |
| `GradeCalculator.Page.AddCourse` | src/pages/GradeCalculator.tsx:21-23 | a new course is appended, ids stay distinct |
| `GradeCalculator.Page.RemoveCourse` | src/pages/GradeCalculator.tsx:25-27 | the course at the index is removed; at least one course remains, since removal is only offered with two or more (line 97) |
| `GradeCalculator.Page.UpdateCourse` | src/pages/GradeCalculator.tsx:29-31 | only the course at the index is replaced |
| `GradeCalculator.Page.ShowCgpa` | src/pages/GradeCalculator.tsx:118 | the CGPA section opens |
| `GradeCalculator.Page.CgpaCalculated` | src/pages/GradeCalculator.tsx:33-38 | the reported data is stored |
| `GradeCalculator.CgpaProps` | src/pages/GradeCalculator.tsx:123-130 | the CGPA section is rendered exactly when it is open and there is an SGPA; it gets that SGPA and that result's total credits, which are never zero |
| `GradeCalculator.Page.Steps` | src/pages/GradeCalculator.tsx:40-65 | the imperative step code computes `CurrentStep` and `Completed` |
| `GradeCalculator.Page.StepsConsistent` | src/pages/GradeCalculator.tsx:46-65 | on a valid page no completed step lies beyond the current one |
| `Lists.RemoveAt` | src/pages/GradeCalculator.tsx:26 | `filter((_, i) => i !== index)`: in range, the element at the index goes and the others keep their order; out of range, nothing changes |
| `Lists.RemoveAtMultiset` | src/pages/Index.tsx:53-54 | removal takes away exactly one occurrence of the removed element |
| `Lists.ReplaceAt` | src/pages/GradeCalculator.tsx:30 | `map((c, i) => i === index ? updated : c)`: only the element at the index changes |
| `Strings.TrimStart` | src/pages/Index.tsx:41 | drops exactly the leading whitespace |
| `Strings.TrimEnd` | src/pages/Index.tsx:41 | drops exactly the trailing whitespace |
| `Strings.Trim` | src/pages/Index.tsx:41 | the result is a slice `s[i..j]` with only whitespace before `i` and from `j` on, and it neither starts nor ends with whitespace |
| `Strings.TrimEmptyIffBlank` | src/components/calculator/SGPASection.tsx:24 | a trimmed name is empty exactly when the name is all whitespace |
| `Strings.TrimIdempotent` | src/pages/Index.tsx:41-43 | trimming a trimmed name changes nothing |
| `Strings.TrimExample` | src/components/calculator/CourseCard.tsx:72 | "  Clad " trims to "Clad" |
| `Strings.LowerAsciiAll` | src/components/calculator/CourseCard.tsx:72 | each letter A–Z becomes lower case; other characters are kept |
| `HabitTracker.EmptyRow` | src/pages/Index.tsx:48 | seven unchecked days |
| `HabitTracker.Toggled` | src/pages/Index.tsx:57-63 | exactly one cell flips |
| `HabitTracker.ToggleTwice` | src/pages/Index.tsx:57-63 | toggling twice restores the grid |
| `HabitTracker.CompletedOn` | src/pages/Index.tsx:68 | the count never exceeds the number of habits |
| `HabitTracker.CompletedOnExtremes` | src/pages/Index.tsx:68 | 0 exactly when nobody checked the day, every habit exactly when all did |
| `HabitTracker.RoundHalfUp` | src/pages/Index.tsx:69-75 | `Math.round(num / den)` for non-negative values: the nearest integer, halves up |
| `HabitTracker.RoundHalfUpAtMost` | src/pages/Index.tsx:69-75 | rounding a quotient at most `bound` stays at most `bound` |
| `HabitTracker.RoundHalfUpExact` | src/pages/Index.tsx:69-75 | an exact quotient rounds to itself |
| `HabitTracker.DailyPcts` | src/pages/Index.tsx:65-71 | seven zeros without habits; otherwise each day is the rounded percentage of habits done |
| `HabitTracker.DailyPctsRange` | src/pages/Index.tsx:65-71 | each day is in [0, 100], 0 when nothing was done, 100 when everything was |
| `HabitTracker.SumBounds` | src/pages/Index.tsx:75 | a sum of bounded terms is bounded by the count times the bound |
| `HabitTracker.WeeklyPct` | src/pages/Index.tsx:73-76 | 0 without habits; otherwise the daily percentages' sum divided by 7, rounded |
| `HabitTracker.WeeklyPctRange` | src/pages/Index.tsx:73-76 | the weekly figure is in [0, 100], and 100 when every cell is checked |
| `HabitTracker.Tracker.constructor` | src/pages/Index.tsx:34-37 | no habits, no checks, empty input |
| `HabitTracker.Tracker.TypeNewHabit` | src/pages/Index.tsx:125 | only the input changes |
| `HabitTracker.Tracker.AddHabit` | src/pages/Index.tsx:40-50 | a blank or duplicate name changes nothing; otherwise the trimmed name and an empty row are appended and the input is cleared |
| `HabitTracker.Tracker.RemoveHabit` | src/pages/Index.tsx:52-55 | the habit and its row go together |
| `HabitTracker.Tracker.ToggleCheck` | src/pages/Index.tsx:57-63 | one cell flips; names and input are kept |
| `HabitTracker.Tracker.Daily` | src/pages/Index.tsx:65-71 | seven percentages in [0, 100] |
| `HabitTracker.Tracker.Weekly` | src/pages/Index.tsx:73-76 | a percentage in [0, 100] |
| `HabitTracker.Tracker.DownloadRequest` | src/pages/Index.tsx:87-93 | no download without habits (the button is disabled at line 263); otherwise the names and the grid go to the spreadsheet writer |

## Left out

- Rendering, styling, confetti, toasts, the step indicator's drawing, the grade chart and the sign-in dialog: presentation only.
- The spreadsheet writer (`src/lib/excel-generator.ts`) is not part of this model. `DownloadRequest` stops at the data handed to it.
- Course ids come from `crypto.randomUUID()`, which is randomness. They are a parameter, and `AddCourse` requires the new id to be unused.
- Parsing of text fields (`parseFloat`, `parseInt`, `Number`, `NaN`): fields arrive as `Option` values already parsed. A `NaN` credit count or mark is not modelled.
- Floating point: arithmetic is exact. Results that IEEE-754 would round differently, such as a raw WGP a hair above an integer or a percentage exactly at .5, are not modelled.
- `Strings.LowerAsciiAll`: lower-cases ASCII letters only, not the full Unicode mapping of `toLowerCase`.
- `Calculator.CheckForFGrade`: requires `FCheckDefined`, the condition under which the source does not throw. With a sessional missing and the other labelled "I", the source reads a property of `undefined`. Every caller in the model meets the requirement.
- `Calculator.CalculateCgpa`: requires non-zero combined credits. The source divides by zero there. `CgpaSection.SectionResult` shows no result in that case instead.
- `CourseCard.LabMarksEntered`: requires `FCheckDefined`, since the corrected handler asks `checkForFGrade`.
- The SGPA section's own "show result" flag only controls display, so it is not modelled.
- React's asynchronous batching of state updates: each handler is one atomic step.
- Cloud persistence, authentication and the yearly chart of the habit tracker are outside the modelled core.

## Findings

| source | as written | input that shows it | evidently intended | confidence | as-written member | corrected member |
|---|---|---|---|---|---|---|
| src/components/calculator/CourseCard.tsx:211-216 | "P" is treated as a special sessional grade for every assessment, so a Learning Engagement "P" is stored without a grade point, and no branch of `recalculateCourse` ever resolves it | S1 "O", S2 "O", Learning Engagement "P" | the Learning Engagement option "P" is worth 4 (the option table at line 42), giving WGP 9 | not executed | `CourseCard.WithGradeAsWritten`, `CourseCard.LePassStoredAsWritten`, `CourseCard.LePassAsWrittenNeverScores` | `CourseCard.WithGrade`, `CourseCard.LePassStored`, `CourseCard.LePassScores`, `CourseCard.LePassExample` |
| src/components/calculator/CourseCard.tsx:242-249 | unchecking the lab sets the final grade point back to the WGP but keeps the letter of the blended grade point | WGP 8 (S1, S2, LE all "A"), lab marks 90, final 9 "A+"; uncheck the lab | the letter follows the final grade point: 8 gives "A" | not executed | `CourseCard.LabToggledAsWritten`, `CourseCard.LabToggleAsWrittenLeavesStaleLetter` | `CourseCard.LabToggled`, `CourseCard.LabToggleKeepsConsistent` |
| src/components/calculator/CourseCard.tsx:565-574 | entering lab marks blends them into any course with a WGP, including one forced to F (WGP 0) | Learning Engagement "L/AB", lab checked, lab marks 100 | a forced F stays at final grade point 0, "F", whatever the lab | not executed | `CourseCard.LabMarksEnteredAsWritten`, `CourseCard.LabMarksAsWrittenLiftForcedF` | `CourseCard.LabMarksEntered`, `CourseCard.LabMarksKeepConsistent` |
| src/components/calculator/CourseCard.tsx:565-574 | clearing the lab marks stores only the empty marks and keeps the blended final grade point and its letter | WGP 8 (S1, S2, LE all "A"), lab marks 90, final 9 "A+"; clear the lab marks field | with no lab marks the final grade point is the WGP with its band, as `recalculateCourse` gives (lines 128-136): 8, "A" | not executed | `CourseCard.LabMarksEnteredAsWritten`, `CourseCard.LabMarksClearedAsWrittenKeepsBlend` | `CourseCard.LabMarksEntered`, `CourseCard.LabMarksClearedFallsBack`, `CourseCard.LabMarksKeepConsistent` |
