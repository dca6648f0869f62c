/**
 * The dashboard (`ContentView`): the expenses of the selected day or month,
 * the drill-down list of one category, the grouped breakdown with its
 * percentages, and the date navigation with its forward guard. The current
 * instant `now` is an input of every operation that reads the clock.
 */
module Dashboard {
  import opened Wrappers
  import opened Calendar
  import opened Expenses
  import opened Numeric

  datatype TimeRange = Day | Month

  /** The step `moveDate` and `canNavigateForward` take: a day or a month. */
  function UnitOf(range: TimeRange): Unit {
    if range == Day then Days else Months
  }

  // ---------------------------------------------------------------------
  // Filtering

  /** The test of `filteredExpenses`: a dated expense on the selected day or in the selected month. */
  predicate InRange(e: Expense, selectedDate: DateTime, range: TimeRange) {
    match e.date
    case None => false
    case Some(date) => if range == Day then SameDay(date, selectedDate) else SameMonth(date, selectedDate)
  }

  /** `filteredExpenses`: the expenses in range, in their fetched order. */
  function FilteredExpenses(all: seq<Expense>, selectedDate: DateTime, range: TimeRange): (r: seq<Expense>)
    ensures forall e :: e in r <==> e in all && InRange(e, selectedDate, range)
    ensures |r| <= |all|
  {
    if all == [] then []
    else
      var rest := FilteredExpenses(all[1..], selectedDate, range);
      assert forall e :: e in all <==> e == all[0] || e in all[1..];
      if InRange(all[0], selectedDate, range) then [all[0]] + rest else rest
  }

  /** Filtering keeps the fetched order: it distributes over concatenation. */
  lemma {:induction false} FilteredAppend(a: seq<Expense>, b: seq<Expense>, selectedDate: DateTime, range: TimeRange)
    ensures FilteredExpenses(a + b, selectedDate, range)
         == FilteredExpenses(a, selectedDate, range) + FilteredExpenses(b, selectedDate, range)
  {
    if a == [] {
      assert a + b == b;
    } else {
      assert (a + b)[0] == a[0];
      assert (a + b)[1..] == a[1..] + b;
      FilteredAppend(a[1..], b, selectedDate, range);
    }
  }

  /** A day's list is the month's list filtered to the day, in the same order. */
  lemma {:induction false} DayWithinMonth(all: seq<Expense>, selectedDate: DateTime)
    ensures FilteredExpenses(FilteredExpenses(all, selectedDate, Month), selectedDate, Day)
         == FilteredExpenses(all, selectedDate, Day)
  {
    if all != [] {
      DayWithinMonth(all[1..], selectedDate);
      var month := FilteredExpenses(all, selectedDate, Month);
      if InRange(all[0], selectedDate, Month) {
        assert month[0] == all[0] && month[1..] == FilteredExpenses(all[1..], selectedDate, Month);
      }
    }
  }

  /**
   * `categoryFilteredExpenses`: nothing without a selected category,
   * otherwise the listed expenses whose category equals the selection (an
   * expense without a category equals no selection).
   */
  function CategoryFiltered(filtered: seq<Expense>, selectedCategory: Option<string>): (r: seq<Expense>)
    ensures selectedCategory.None? ==> r == []
    ensures selectedCategory.Some? ==>
      forall e :: e in r <==> e in filtered && e.category == selectedCategory
    ensures |r| <= |filtered|
  {
    match selectedCategory
    case None => []
    case Some(category) => WithCategory(filtered, category)
  }

  function WithCategory(es: seq<Expense>, category: string): (r: seq<Expense>)
    ensures forall e :: e in r <==> e in es && e.category == Some(category)
    ensures |r| <= |es|
  {
    if es == [] then []
    else
      var rest := WithCategory(es[1..], category);
      assert forall e :: e in es <==> e == es[0] || e in es[1..];
      if es[0].category == Some(category) then [es[0]] + rest else rest
  }

  /**
   * The drill-down list of a named category holds exactly the members of
   * that category's breakdown row: as many expenses, adding up to the same
   * amount.
   */
  lemma {:induction false} DrillDownMatchesRow(filtered: seq<Expense>, category: string)
    requires category != OtherCategory
    ensures |CategoryFiltered(filtered, Some(category))| == CountFor(category, filtered)
    ensures Total(CategoryFiltered(filtered, Some(category))) == SumFor(category, filtered)
  {
    if filtered != [] {
      DrillDownMatchesRow(filtered[1..], category);
    }
  }

  /**
   * An expense without a category sits in the "Other" row of the breakdown
   * but is never in the drill-down list, not even the one for "Other".
   */
  lemma UncategorisedNeverListed(filtered: seq<Expense>, e: Expense, selectedCategory: Option<string>)
    requires e in filtered && e.category.None?
    ensures GroupKey(e) == OtherCategory && OtherCategory in Categories(Group(filtered))
    ensures e !in CategoryFiltered(filtered, selectedCategory)
  {
    GroupSpec(filtered);
    assert GroupKey(e) in KeySet(filtered);
  }

  // ---------------------------------------------------------------------
  // The breakdown percentage

  /**
   * `Int((item.amount / totalAmount) * 100)` as written: a zero total gives
   * NaN (or an infinity), and converting that to `Int` stops the program,
   * written here as `None`.
   */
  function PercentageAsWritten(amount: real, total: real): (p: Option<int>)
    ensures p.None? <==> total == 0.0
  {
    if total == 0.0 then None else Some(Truncate(amount / total * 100.0))
  }

  /**
   * The percentage with the zero total handled: 0 when there is nothing to
   * divide by, otherwise the truncated share.
   */
  function Percentage(amount: real, total: real): (p: int)
    ensures total != 0.0 ==> PercentageAsWritten(amount, total) == Some(p)
    ensures total == 0.0 ==> p == 0
  {
    if total == 0.0 then 0 else Truncate(amount / total * 100.0)
  }

  /** A share of a positive total is a whole percentage between 0 and 100, and 100 only for all of it. */
  lemma PercentageBounds(amount: real, total: real)
    requires total > 0.0 && 0.0 <= amount <= total
    ensures 0 <= Percentage(amount, total) <= 100
    ensures Percentage(amount, total) == 100 <==> amount == total
  {
    ShareBounds(amount, total);
  }

  lemma ShareBounds(amount: real, total: real)
    requires total > 0.0 && 0.0 <= amount <= total
    ensures 0.0 <= amount / total * 100.0 <= 100.0
    ensures amount / total * 100.0 == 100.0 <==> amount == total
  {
    assert amount / total * total == amount;
  }

  /**
   * A day whose only expense has an amount of 0 (the add form accepts "0")
   * makes the as-written percentage stop the program, where the corrected
   * one shows 0%.
   */
  lemma ZeroAmountDayTraps(d: DateTime)
    ensures var e := Expense(0, Some("Tea"), 0.0, Some(d), Some("Food"));
      var filtered := FilteredExpenses([e], d, Day);
      && filtered == [e]
      && Total(filtered) == 0.0
      && PercentageAsWritten(e.amount, Total(filtered)).None?
      && Percentage(e.amount, Total(filtered)) == 0
  {
    var e := Expense(0, Some("Tea"), 0.0, Some(d), Some("Food"));
    assert [e][1..] == [];
  }

  /** The sum of the percentages of `rows` against `total`. */
  function PercentageSum(rows: seq<CategoryTotal>, total: real): int {
    if rows == [] then 0 else Percentage(rows[0].amount, total) + PercentageSum(rows[1..], total)
  }

  lemma {:induction false} PercentageSumNear(rows: seq<CategoryTotal>, total: real)
    requires total > 0.0
    requires forall i :: 0 <= i < |rows| ==> rows[i].amount >= 0.0
    ensures PercentageSum(rows, total) as real <= AmountSum(rows) / total * 100.0
    ensures PercentageSum(rows, total) as real > AmountSum(rows) / total * 100.0 - |rows| as real
              || rows == []
  {
    if rows != [] {
      PercentageSumNear(rows[1..], total);
      var a, rest := rows[0].amount, AmountSum(rows[1..]);
      assert (a + rest) / total == a / total + rest / total;
      assert a / total >= 0.0;
    }
  }

  /**
   * Over the breakdown of a list with no negative amount and a positive
   * total, the percentages add up to at most 100, and each truncation loses
   * less than one point: the sum is at least 100 - (rows - 1).
   */
  lemma BreakdownPercentages(filtered: seq<Expense>)
    requires NonNegative(filtered) && Total(filtered) > 0.0
    ensures var rows := Group(filtered);
      && (forall i :: 0 <= i < |rows| ==> 0 <= Percentage(rows[i].amount, Total(filtered)) <= 100)
      && PercentageSum(rows, Total(filtered)) <= 100
      && PercentageSum(rows, Total(filtered)) >= 100 - (|rows| - 1)
  {
    GroupOrderAndSums(filtered);
    GroupNonNegative(filtered);
    RowPercentages(Group(filtered), Total(filtered));
  }

  /** The same, for any rows whose non-negative amounts add up to `total`. */
  lemma RowPercentages(rows: seq<CategoryTotal>, total: real)
    requires total > 0.0 && AmountSum(rows) == total
    requires forall i :: 0 <= i < |rows| ==> rows[i].amount >= 0.0
    ensures forall i :: 0 <= i < |rows| ==> 0 <= Percentage(rows[i].amount, total) <= 100
    ensures PercentageSum(rows, total) <= 100
    ensures PercentageSum(rows, total) >= 100 - (|rows| - 1)
  {
    forall i | 0 <= i < |rows| ensures 0 <= Percentage(rows[i].amount, total) <= 100 {
      RowBelowSum(rows, i);
      PercentageBounds(rows[i].amount, total);
    }
    PercentageSumNear(rows, total);
    WholeShare(total);
    assert rows != [];
    var sum := PercentageSum(rows, total);
    assert sum as real <= 100.0;
    assert sum as real > 100.0 - |rows| as real;
  }

  lemma WholeShare(total: real)
    requires total > 0.0
    ensures total / total * 100.0 == 100.0
  {
    assert total / total == 1.0;
  }

  /** With no negative row, one row is at most the sum of all. */
  lemma {:induction false} RowBelowSum(rows: seq<CategoryTotal>, i: nat)
    requires i < |rows|
    requires forall j :: 0 <= j < |rows| ==> rows[j].amount >= 0.0
    ensures rows[i].amount <= AmountSum(rows)
  {
    if i == 0 {
      AmountSumNonNegative(rows[1..]);
    } else {
      assert rows[1..][i - 1] == rows[i];
      RowBelowSum(rows[1..], i - 1);
    }
  }

  lemma {:induction false} AmountSumNonNegative(rows: seq<CategoryTotal>)
    requires forall j :: 0 <= j < |rows| ==> rows[j].amount >= 0.0
    ensures AmountSum(rows) >= 0.0
  {
    if rows != [] {
      AmountSumNonNegative(rows[1..]);
    }
  }

  // ---------------------------------------------------------------------
  // Navigation

  /** `canNavigateForward`: one unit after the selected date is no later than now. */
  predicate CanNavigateForward(selectedDate: DateTime, range: TimeRange, now: DateTime)
    requires Valid(selectedDate)
  {
    NotAfter(Step(selectedDate, UnitOf(range), Forward), now)
  }

  /**
   * Forward navigation is blocked while the selected day (month) is today's
   * day (month): it is possible only from an earlier day or month.
   */
  lemma ForwardBlockedInCurrentPeriod(selectedDate: DateTime, range: TimeRange, now: DateTime)
    requires Valid(selectedDate)
    requires range == Day ==> SameDay(selectedDate, now)
    requires range == Month ==> SameMonth(selectedDate, now)
    ensures !CanNavigateForward(selectedDate, range, now)
  {
    if CanNavigateForward(selectedDate, range, now) {
      StepForwardLeavesPeriod(selectedDate, UnitOf(range), now);
    }
  }

  class DashboardState {
    var selectedDate: DateTime
    var timeRange: TimeRange
    var selectedCategory: Option<string>

    /** The dashboard opens on now, by day, with no category drilled into. */
    constructor (now: DateTime)
      requires Valid(now)
      ensures selectedDate == now && timeRange == Day && selectedCategory == None
    {
      selectedDate, timeRange, selectedCategory := now, Day, None;
    }

    /**
     * `moveDate(by:)`: the date one unit back or forward is taken only when
     * it is no later than now, and then the drill-down is cleared; otherwise
     * nothing changes. Stepping back from a date no later than now always
     * succeeds, and the selected date never passes now.
     */
    method MoveDate(dir: Direction, now: DateTime)
      requires Valid(selectedDate)
      modifies this`selectedDate, this`selectedCategory
      ensures var newDate := Step(old(selectedDate), UnitOf(timeRange), dir);
        if NotAfter(newDate, now) then selectedDate == newDate && selectedCategory == None
        else selectedDate == old(selectedDate) && selectedCategory == old(selectedCategory)
      ensures Valid(selectedDate)
      ensures dir == Forward ==> (selectedDate != old(selectedDate) <==> CanNavigateForward(old(selectedDate), timeRange, now))
      ensures dir == Backward && NotAfter(old(selectedDate), now) ==>
        selectedDate == Step(old(selectedDate), UnitOf(timeRange), Backward)
      ensures NotAfter(old(selectedDate), now) ==> NotAfter(selectedDate, now)
    {
      var component := UnitOf(timeRange);
      var newDate := Step(selectedDate, component, dir);
      if NotAfter(newDate, now) {
        selectedDate := newDate;
        selectedCategory := None;
      }
      if dir == Backward && NotAfter(old(selectedDate), now) {
        NotAfterTransitive(newDate, old(selectedDate), now);
      }
    }

    /**
     * The swipe gesture: a swipe left of more than 50 points moves forward
     * when allowed, one right of more than 50 points moves back, and a
     * shorter one does nothing. A move takes the new date and clears the
     * drill-down exactly when the new date is no later than now.
     */
    method Swipe(translationWidth: real, now: DateTime)
      requires Valid(selectedDate)
      modifies this`selectedDate, this`selectedCategory
      ensures -50.0 <= translationWidth <= 50.0 ==>
        selectedDate == old(selectedDate) && selectedCategory == old(selectedCategory)
      ensures translationWidth < -50.0 ==>
        var newDate := Step(old(selectedDate), UnitOf(timeRange), Forward);
        if NotAfter(newDate, now) then selectedDate == newDate && selectedCategory == None
        else selectedDate == old(selectedDate) && selectedCategory == old(selectedCategory)
      ensures translationWidth > 50.0 ==>
        var newDate := Step(old(selectedDate), UnitOf(timeRange), Backward);
        if NotAfter(newDate, now) then selectedDate == newDate && selectedCategory == None
        else selectedDate == old(selectedDate) && selectedCategory == old(selectedCategory)
      ensures translationWidth < -50.0 ==>
        (selectedDate != old(selectedDate) <==> CanNavigateForward(old(selectedDate), timeRange, now))
      ensures translationWidth > 50.0 && NotAfter(old(selectedDate), now) ==>
        selectedDate == Step(old(selectedDate), UnitOf(timeRange), Backward) && selectedCategory == None
      ensures Valid(selectedDate)
    {
      if translationWidth < -50.0 {
        if CanNavigateForward(selectedDate, timeRange, now) {
          MoveDate(Forward, now);
        }
      } else if translationWidth > 50.0 {
        MoveDate(Backward, now);
      }
    }

    /** The `onChange(of: timeRange)` handler: a new range clears the drill-down. */
    method ChangeTimeRange(newRange: TimeRange)
      modifies this`timeRange, this`selectedCategory
      ensures timeRange == newRange
      ensures newRange != old(timeRange) ==> selectedCategory == None
      ensures newRange == old(timeRange) ==> selectedCategory == old(selectedCategory)
    {
      if newRange != timeRange {
        timeRange := newRange;
        selectedCategory := None;
      }
    }

    /** Tapping a breakdown row drills into its category. */
    method SelectCategory(category: string)
      modifies this`selectedCategory
      ensures selectedCategory == Some(category)
    {
      selectedCategory := Some(category);
    }
  }
}
