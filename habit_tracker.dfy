/**
 * The weekly habit tracker (src/pages/Index.tsx): a list of habit names, a habit × day grid
 * of check marks, the daily and weekly completion percentages, and the download guard.
 * The spreadsheet itself is produced by src/lib/excel-generator.ts, which is not part of
 * this model: the download is modelled by the data it would be handed.
 */
module HabitTracker {
  import opened Wrappers
  import opened Strings
  import opened Lists

  /** `DAYS`: Mon … Sun. */
  const DayCount: nat := 7

  /** A fresh row: `Array(7).fill(false)`. */
  function EmptyRow(): (r: seq<bool>)
    ensures |r| == DayCount && forall d :: 0 <= d < |r| ==> !r[d]
  {
    seq(DayCount, _ => false)
  }

  /** `checkData[h]?.[d] ?? false` and `row[d]` in the filters: a missing cell is unchecked. */
  predicate Cell(row: seq<bool>, d: int) {
    0 <= d < |row| && row[d]
  }

  /** `next[h][d] = !next[h][d]` on a copy of the grid. */
  function Toggled(grid: seq<seq<bool>>, h: nat, d: nat): (r: seq<seq<bool>>)
    requires h < |grid| && d < |grid[h]|
    ensures |r| == |grid|
    ensures forall i :: 0 <= i < |grid| && i != h ==> r[i] == grid[i]
    ensures |r[h]| == |grid[h]|
    ensures forall e :: 0 <= e < |grid[h]| ==> r[h][e] == if e == d then !grid[h][d] else grid[h][e]
  {
    ReplaceAt(grid, h, grid[h][d := !grid[h][d]])
  }

  /** Clicking a check box twice gives the grid back. */
  lemma ToggleTwice(grid: seq<seq<bool>>, h: nat, d: nat)
    requires h < |grid| && d < |grid[h]|
    ensures Toggled(Toggled(grid, h, d), h, d) == grid
  {
    var once := Toggled(grid, h, d);
    var twice := Toggled(once, h, d);
    assert twice[h] == grid[h];
    assert forall i :: 0 <= i < |grid| ==> twice[i] == grid[i];
  }

  /** `checkData.filter((row) => row[d]).length`. */
  function CompletedOn(grid: seq<seq<bool>>, d: int): (c: nat)
    ensures c <= |grid|
  {
    if grid == [] then 0
    else CompletedOn(grid[..|grid| - 1], d) + (if Cell(grid[|grid| - 1], d) then 1 else 0)
  }

  /** No check on day `d` means 0 completed; a check in every row means every row completed. */
  lemma {:induction false} CompletedOnExtremes(grid: seq<seq<bool>>, d: int)
    ensures CompletedOn(grid, d) == 0 <==> forall i :: 0 <= i < |grid| ==> !Cell(grid[i], d)
    ensures CompletedOn(grid, d) == |grid| <==> forall i :: 0 <= i < |grid| ==> Cell(grid[i], d)
  {
    if grid != [] {
      var init := grid[..|grid| - 1];
      CompletedOnExtremes(init, d);
      assert forall i :: 0 <= i < |init| ==> init[i] == grid[i];
    }
  }

  /** `Math.round(num / den)` for non-negative `num` and positive `den`: the nearest integer, halves rounded up. */
  function RoundHalfUp(num: int, den: int): (r: int)
    requires num >= 0 && den > 0
    ensures r >= 0
    ensures 2 * den * r <= 2 * num + den < 2 * den * (r + 1)
  {
    (2 * num + den) / (2 * den)
  }

  /** A positive factor can be cancelled from both sides of a strict inequality. */
  lemma CancelLess(a: int, b: int, k: int)
    requires k > 0 && k * a < k * b
    ensures a < b
  {
  }

  /** Rounding keeps an upper bound that is a whole number. */
  lemma RoundHalfUpAtMost(num: int, den: int, bound: nat)
    requires num >= 0 && den > 0 && num <= bound * den
    ensures RoundHalfUp(num, den) <= bound
  {
    var r := RoundHalfUp(num, den);
    assert 2 * den * (bound + 1) == 2 * (bound * den) + 2 * den;
    CancelLess(r, bound + 1, 2 * den);
  }

  /** Rounding a whole quotient gives it back. */
  lemma RoundHalfUpExact(q: nat, den: int)
    requires den > 0
    ensures RoundHalfUp(q * den, den) == q
  {
    var r := RoundHalfUp(q * den, den);
    assert 2 * den * (q + 1) == 2 * (q * den) + 2 * den;
    assert 2 * den * q == 2 * (q * den);
    CancelLess(r, q + 1, 2 * den);
    CancelLess(q, r + 1, 2 * den);
  }

  /** `dailyPcts`: per day, the share of habits checked, in whole percent; all 0 without habits. */
  function DailyPcts(habitCount: nat, grid: seq<seq<bool>>): (p: seq<int>)
    ensures |p| == DayCount
    ensures habitCount == 0 ==> forall d :: 0 <= d < DayCount ==> p[d] == 0
    ensures habitCount > 0 ==> forall d :: 0 <= d < DayCount ==> p[d] == RoundHalfUp(100 * CompletedOn(grid, d), habitCount)
  {
    if habitCount == 0 then seq(DayCount, _ => 0)
    else seq(DayCount, d requires 0 <= d < DayCount => RoundHalfUp(100 * CompletedOn(grid, d), habitCount))
  }

  /** With one row per habit, every daily percentage is in [0, 100]; 0 when nothing is checked that
      day and 100 when every habit is. */
  lemma DailyPctsRange(habitCount: nat, grid: seq<seq<bool>>, d: nat)
    requires |grid| == habitCount && d < DayCount
    ensures 0 <= DailyPcts(habitCount, grid)[d] <= 100
    ensures (forall i :: 0 <= i < |grid| ==> !Cell(grid[i], d)) ==> DailyPcts(habitCount, grid)[d] == 0
    ensures habitCount > 0 && (forall i :: 0 <= i < |grid| ==> Cell(grid[i], d)) ==> DailyPcts(habitCount, grid)[d] == 100
  {
    if habitCount > 0 {
      var c := CompletedOn(grid, d);
      RoundHalfUpAtMost(100 * c, habitCount, 100);
      CompletedOnExtremes(grid, d);
      RoundHalfUpExact(0, habitCount);
      RoundHalfUpExact(100, habitCount);
    }
  }

  function Sum(s: seq<int>): int {
    if s == [] then 0 else Sum(s[..|s| - 1]) + s[|s| - 1]
  }

  lemma {:induction false} SumBounds(s: seq<int>, lo: int, hi: int)
    requires forall k :: 0 <= k < |s| ==> lo <= s[k] <= hi
    ensures lo * |s| <= Sum(s) <= hi * |s|
  {
    if s != [] {
      SumBounds(s[..|s| - 1], lo, hi);
    }
  }

  lemma {:induction false} SumNonNegative(s: seq<int>)
    requires forall k :: 0 <= k < |s| ==> 0 <= s[k]
    ensures Sum(s) >= 0
  {
    if s != [] {
      SumNonNegative(s[..|s| - 1]);
    }
  }

  /** `weeklyPct`: the average of the seven daily percentages, rounded; 0 without habits. */
  function WeeklyPct(habitCount: nat, grid: seq<seq<bool>>): (w: int)
    ensures habitCount == 0 ==> w == 0
    ensures habitCount > 0 ==> 14 * w <= 2 * Sum(DailyPcts(habitCount, grid)) + 7 < 14 * (w + 1)
  {
    if habitCount == 0 then 0
    else
      var daily := DailyPcts(habitCount, grid);
      SumNonNegative(daily);
      RoundHalfUp(Sum(daily), DayCount)
  }

  /** With one row per habit the weekly percentage is in [0, 100], and 100 when every box is checked. */
  lemma WeeklyPctRange(habitCount: nat, grid: seq<seq<bool>>)
    requires |grid| == habitCount
    ensures 0 <= WeeklyPct(habitCount, grid) <= 100
    ensures habitCount > 0 && (forall i, d :: 0 <= i < |grid| && 0 <= d < DayCount ==> Cell(grid[i], d))
      ==> WeeklyPct(habitCount, grid) == 100
  {
    if habitCount > 0 {
      var p := DailyPcts(habitCount, grid);
      forall d | 0 <= d < DayCount
        ensures 0 <= p[d] <= 100
        ensures (forall i :: 0 <= i < |grid| ==> Cell(grid[i], d)) ==> p[d] == 100
      {
        DailyPctsRange(habitCount, grid, d);
      }
      SumBounds(p, 0, 100);
      RoundHalfUpAtMost(Sum(p), DayCount, 100);
      if forall i, d :: 0 <= i < |grid| && 0 <= d < DayCount ==> Cell(grid[i], d) {
        SumBounds(p, 100, 100);
        RoundHalfUpExact(100, DayCount);
      }
    }
  }

  /** Habit names are stored trimmed, non-empty and without duplicates. */
  predicate NamesOk(habits: seq<string>) {
    (forall i :: 0 <= i < |habits| ==> habits[i] != [] && Trim(habits[i]) == habits[i])
    && (forall i, j :: 0 <= i < j < |habits| ==> habits[i] != habits[j])
  }

  /** The tracker page's state. */
  class Tracker {
    var habits: seq<string>
    var checkData: seq<seq<bool>>
    var newHabit: string

    /** One row of seven days per habit, and well-formed names. */
    ghost predicate Valid()
      reads this
    {
      |checkData| == |habits|
      && (forall i :: 0 <= i < |checkData| ==> |checkData[i]| == DayCount)
      && NamesOk(habits)
    }

    constructor ()
      ensures Valid() && habits == [] && checkData == [] && newHabit == ""
    {
      habits := [];
      checkData := [];
      newHabit := "";
    }

    /** The new-habit input field. */
    method TypeNewHabit(text: string)
      requires Valid()
      modifies this
      ensures Valid()
      ensures newHabit == text && habits == old(habits) && checkData == old(checkData)
    {
      newHabit := text;
    }

    /**
     * `addHabit`: a blank name is ignored, a duplicate is refused (with a toast) and leaves the
     * input as it is; otherwise the trimmed name and an empty row are appended and the input cleared.
     */
    method AddHabit()
      requires Valid()
      modifies this
      ensures Valid()
      ensures var trimmed := Trim(old(newHabit));
        if trimmed == [] || trimmed in old(habits) then
          habits == old(habits) && checkData == old(checkData) && newHabit == old(newHabit)
        else
          habits == old(habits) + [trimmed] && checkData == old(checkData) + [EmptyRow()] && newHabit == ""
    {
      var trimmed := Trim(newHabit);
      if trimmed == [] {
        return;
      }
      if trimmed in habits {
        return;
      }
      TrimIdempotent(newHabit);
      habits := habits + [trimmed];
      checkData := checkData + [EmptyRow()];
      newHabit := "";
    }

    /** `removeHabit(index)`: the name and its row go together. */
    method RemoveHabit(index: int)
      requires Valid()
      modifies this
      ensures Valid()
      ensures habits == RemoveAt(old(habits), index) && checkData == RemoveAt(old(checkData), index)
      ensures newHabit == old(newHabit)
    {
      habits := RemoveAt(habits, index);
      checkData := RemoveAt(checkData, index);
    }

    /** `toggleCheck(h, d)` from the check box of habit `h` on day `d`. */
    method ToggleCheck(h: nat, d: nat)
      requires Valid() && h < |checkData| && d < DayCount
      modifies this
      ensures Valid()
      ensures checkData == Toggled(old(checkData), h, d)
      ensures habits == old(habits) && newHabit == old(newHabit)
    {
      checkData := Toggled(checkData, h, d);
    }

    /** The daily completion percentages shown in the chart. */
    function Daily(): (p: seq<int>)
      reads this
      requires Valid()
      ensures |p| == DayCount && forall d :: 0 <= d < DayCount ==> 0 <= p[d] <= 100
    {
      var p := DailyPcts(|habits|, checkData);
      assert forall d :: 0 <= d < DayCount ==> 0 <= p[d] <= 100 by {
        forall d | 0 <= d < DayCount ensures 0 <= p[d] <= 100 {
          DailyPctsRange(|habits|, checkData, d);
        }
      }
      p
    }

    /** The weekly completion percentage. */
    function Weekly(): (w: int)
      reads this
      requires Valid()
      ensures 0 <= w <= 100
    {
      WeeklyPctRange(|habits|, checkData);
      WeeklyPct(|habits|, checkData)
    }

    /** `handleDownload`: refused without habits; otherwise the names and grid go to the spreadsheet. */
    function DownloadRequest(): (r: Option<(seq<string>, seq<seq<bool>>)>)
      reads this
      ensures r.None? <==> habits == []
      ensures r.Some? ==> r.value == (habits, checkData)
    {
      if |habits| == 0 then None else Some((habits, checkData))
    }
  }
}
