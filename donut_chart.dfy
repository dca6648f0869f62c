/**
 * The donut chart (`DonutChartView`): the per-category totals it draws, the
 * total and caption shown in its centre for the current selection, and the
 * tap handler that maps a point on the ring to a slice and toggles that
 * slice's category in the selection.
 *
 * Points are in the chart's 280 x 280 frame, whose centre is (140, 140).
 * The distance guard is stated on squared distances, and the angle
 * `atan2(dy, dx) * 180 / pi` (degrees) is an input of the tap.
 */
module DonutChart {
  import opened Wrappers
  import opened Expenses
  import opened Numeric
  import Text

  // ---------------------------------------------------------------------
  // The centre display

  /** Sum of the amounts of the rows whose category is selected. */
  function SelectedSum(rows: seq<CategoryTotal>, selected: set<string>): real {
    if rows == [] then 0.0
    else (if rows[0].category in selected then rows[0].amount else 0.0) + SelectedSum(rows[1..], selected)
  }

  /**
   * `totalAmount`: every row when nothing is selected, otherwise only the
   * selected categories' rows.
   */
  function TotalAmount(rows: seq<CategoryTotal>, selected: set<string>): real {
    if selected == {} then AmountSum(rows) else SelectedSum(rows, selected)
  }

  predicate RowsNonNegative(rows: seq<CategoryTotal>) {
    forall i :: 0 <= i < |rows| ==> rows[i].amount >= 0.0
  }

  /** With non-negative rows a selection's total lies between 0 and the full total. */
  lemma {:induction false} SelectedSumBounded(rows: seq<CategoryTotal>, selected: set<string>)
    requires RowsNonNegative(rows)
    ensures 0.0 <= SelectedSum(rows, selected) <= AmountSum(rows)
  {
    if rows != [] {
      SelectedSumBounded(rows[1..], selected);
    }
  }

  /** Selecting every category shown gives the full total. */
  lemma {:induction false} SelectedSumAll(rows: seq<CategoryTotal>, selected: set<string>)
    requires Categories(rows) <= selected
    ensures SelectedSum(rows, selected) == AmountSum(rows)
  {
    if rows != [] {
      assert rows[0] in rows;
      assert Categories(rows[1..]) <= Categories(rows) by {
        forall c | c in Categories(rows[1..]) ensures c in Categories(rows) {
          var r :| r in rows[1..] && r.category == c;
          assert r in rows;
        }
      }
      SelectedSumAll(rows[1..], selected);
    }
  }

  /** With one row per category, selecting one category gives that row's amount. */
  lemma {:induction false} SelectedSumSingle(rows: seq<CategoryTotal>, i: nat)
    requires DistinctCategories(rows)
    requires i < |rows|
    ensures SelectedSum(rows, {rows[i].category}) == rows[i].amount
  {
    if i == 0 {
      SelectedSumNone(rows[1..], {rows[0].category});
    } else {
      assert rows[1..][i - 1] == rows[i];
      SelectedSumSingle(rows[1..], i - 1);
    }
  }

  /** Categories not shown contribute nothing. */
  lemma {:induction false} SelectedSumNone(rows: seq<CategoryTotal>, selected: set<string>)
    requires forall i :: 0 <= i < |rows| ==> rows[i].category !in selected
    ensures SelectedSum(rows, selected) == 0.0
  {
    if rows != [] {
      SelectedSumNone(rows[1..], selected);
    }
  }

  /** The expenses grouped under a selected category, in their original order. */
  function SelectedExpenses(es: seq<Expense>, selected: set<string>): (sel: seq<Expense>)
    ensures forall e :: e in sel <==> e in es && GroupKey(e) in selected
  {
    if es == [] then []
    else
      var rest := SelectedExpenses(es[1..], selected);
      assert forall e :: e in es <==> e == es[0] || e in es[1..];
      if GroupKey(es[0]) in selected then [es[0]] + rest else rest
  }

  /** The categories of `rows`, in row order. */
  function RowCategories(rows: seq<CategoryTotal>): (names: seq<string>)
    ensures |names| == |rows|
    ensures forall i :: 0 <= i < |rows| ==> names[i] == rows[i].category
  {
    if rows == [] then [] else [rows[0].category] + RowCategories(rows[1..])
  }

  /** Keeping only the selected expenses keeps a selected key's sum and empties the others. */
  lemma {:induction false} SumForSelected(k: string, es: seq<Expense>, selected: set<string>)
    ensures SumFor(k, SelectedExpenses(es, selected)) == if k in selected then SumFor(k, es) else 0.0
  {
    if es != [] {
      SumForSelected(k, es[1..], selected);
      var rest := SelectedExpenses(es[1..], selected);
      if GroupKey(es[0]) in selected {
        assert ([es[0]] + rest)[1..] == rest;
      }
    }
  }

  /** Over rows that carry the per-key sums of `es`, a selection's sum is a sum over the selected expenses. */
  lemma {:induction false} SelectedSumOverKeys(rows: seq<CategoryTotal>, es: seq<Expense>, selected: set<string>)
    requires forall i :: 0 <= i < |rows| ==> rows[i].amount == SumFor(rows[i].category, es)
    ensures SelectedSum(rows, selected) == SumOverKeys(RowCategories(rows), SelectedExpenses(es, selected))
  {
    if rows != [] {
      assert forall i :: 0 <= i < |rows[1..]| ==> rows[1..][i] == rows[i + 1];
      SelectedSumOverKeys(rows[1..], es, selected);
      SumForSelected(rows[0].category, es, selected);
      assert RowCategories(rows)[1..] == RowCategories(rows[1..]);
    }
  }

  /** On the chart's rows, a selection's sum is the total of the expenses in the selected categories. */
  lemma SelectedTotal(es: seq<Expense>, selected: set<string>)
    ensures SelectedSum(Group(es), selected) == Total(SelectedExpenses(es, selected))
  {
    var rows := Group(es);
    var sel := SelectedExpenses(es, selected);
    GroupSpec(es);
    SelectedSumOverKeys(rows, es, selected);
    var ks := RowCategories(rows);
    assert DistinctKeys(ks);
    forall e | e in sel ensures GroupKey(e) in ks {
      assert GroupKey(e) in Categories(rows);
      var r :| r in rows && r.category == GroupKey(e);
      var i :| 0 <= i < |rows| && rows[i] == r;
      assert ks[i] == GroupKey(e);
    }
    SumOverKeysComplete(ks, sel);
  }

  /**
   * `totalAmount` on the chart's own rows: an empty selection shows the
   * total of all expenses, any other selection the total of the expenses
   * in the selected categories; selecting every category shown gives the
   * full total again, and with no negative expense any selection shows
   * between 0 and the full total.
   */
  lemma TotalAmountOfExpenses(es: seq<Expense>, selected: set<string>)
    ensures selected == {} ==> TotalAmount(Group(es), selected) == Total(es)
    ensures selected != {} ==> TotalAmount(Group(es), selected) == Total(SelectedExpenses(es, selected))
    ensures KeySet(es) <= selected ==> TotalAmount(Group(es), selected) == Total(es)
    ensures NonNegative(es) ==> 0.0 <= TotalAmount(Group(es), selected) <= Total(es)
  {
    var rows := Group(es);
    GroupSpec(es);
    if selected != {} {
      SelectedTotal(es, selected);
      if KeySet(es) <= selected {
        SelectedSumAll(rows, selected);
      }
    }
    if NonNegative(es) {
      GroupNonNegative(es);
      SelectedSumBounded(rows, selected);
    }
  }

  /** A single selected category shows exactly that category's spending. */
  lemma SingleCategoryTotal(es: seq<Expense>, c: string)
    requires c in KeySet(es)
    ensures TotalAmount(Group(es), {c}) == SumFor(c, es)
  {
    var rows := Group(es);
    GroupSpec(es);
    assert c in Categories(rows);
    var r :| r in rows && r.category == c;
    var i :| 0 <= i < |rows| && rows[i] == r;
    SelectedSumSingle(rows, i);
  }

  /** A set with one element has only that element. */
  lemma SingletonUnique<T>(s: set<T>)
    requires |s| == 1
    ensures forall a, b :: a in s && b in s ==> a == b
  {
    var x :| x in s;
    assert s == {x} by {
      assert |s - {x}| == 0;
    }
  }

  const CategoriesSuffix := " Categories"

  /**
   * `selectedCategoryNames`: "Total" for an empty selection, the category
   * itself for one, "<count> Categories" for more.
   */
  function SelectedCategoryNames(selected: set<string>): (caption: string)
    ensures selected == {} ==> caption == "Total"
    ensures |selected| == 1 ==> selected == {caption}
    ensures |selected| >= 2 ==>
      && |caption| > |CategoriesSuffix|
      && caption[|caption| - |CategoriesSuffix|..] == CategoriesSuffix
  {
    if selected == {} then "Total"
    else if |selected| == 1 then
      SingletonUnique(selected);
      var c :| c in selected;
      c
    else
      Text.NatToString(|selected|) + CategoriesSuffix
  }

  /** The count in a caption for several categories reads back as the selection's size. */
  lemma CaptionCount(selected: set<string>)
    requires |selected| >= 2
    ensures var caption := SelectedCategoryNames(selected);
      var digits := caption[..|caption| - |CategoriesSuffix|];
      Text.AllDigits(digits) && Text.DigitsValue(digits) == |selected|
  {
    var caption := SelectedCategoryNames(selected);
    assert caption[..|caption| - |CategoriesSuffix|] == Text.NatToString(|selected|);
    Text.NatToStringRoundTrip(|selected|);
  }

  // ---------------------------------------------------------------------
  // The tap: ring guard and angle

  const Center: real := 140.0
  const InnerRadius: real := 70.0
  const OuterRadius: real := 140.0

  /**
   * `distance >= 70 && distance <= 140` with `distance = sqrt(dx^2 + dy^2)`:
   * both sides are non-negative, so comparing squares decides the same.
   */
  predicate OnRing(x: real, y: real) {
    var dx := x - Center;
    var dy := y - Center;
    InnerRadius * InnerRadius <= dx * dx + dy * dy <= OuterRadius * OuterRadius
  }

  /** Both radii are on the ring; the centre and the frame's corner are not. */
  lemma RingBoundsInclusive()
    ensures OnRing(Center + InnerRadius, Center) && OnRing(Center, Center - OuterRadius)
    ensures !OnRing(Center, Center) && !OnRing(0.0, 0.0)
  {
  }

  /**
   * The atan2 angle (degrees) turned into a clockwise angle from the top of
   * the chart: add a turn when negative, then add 90 and take the truncating
   * remainder by 360.
   */
  function NormalizeAngle(raw: real): (angle: real)
    ensures raw >= -450.0 ==> 0.0 <= angle < 360.0
    ensures var turns := (raw + 90.0 - angle) / 360.0; turns == turns.Floor as real
  {
    var a := if raw < 0.0 then raw + 360.0 else raw;
    var r := TruncatingRemainder360(a + 90.0);
    WholeTurns(raw, a, r);
    r
  }

  lemma WholeTurns(raw: real, a: real, r: real)
    requires a == if raw < 0.0 then raw + 360.0 else raw
    requires r == TruncatingRemainder360(a + 90.0)
    ensures var turns := (raw + 90.0 - r) / 360.0; turns == turns.Floor as real
  {
    var n := Truncate((a + 90.0) / 360.0);
    assert (a + 90.0 - r) / 360.0 == n as real;
    var k := if raw < 0.0 then n - 1 else n;
    assert (raw + 90.0 - r) / 360.0 == k as real;
  }

  /** Every angle atan2 can produce lands in [0, 360). */
  lemma NormalizeAtan2Range(raw: real)
    requires -180.0 <= raw <= 180.0
    ensures 0.0 <= NormalizeAngle(raw) < 360.0
  {
  }

  // ---------------------------------------------------------------------
  // The tap: slices

  /** `(item.amount / total) * 360`. */
  function Width(amount: real, total: real): real
    requires total != 0.0
  {
    amount / total * 360.0
  }

  /**
   * The loop of `handleTap` from a given running angle: the category of the
   * first slice `[current, current + width)` that holds `angle`.
   */
  function HitFrom(rows: seq<CategoryTotal>, angle: real, current: real, total: real): Option<string>
    requires total != 0.0
  {
    if rows == [] then None
    else
      var width := Width(rows[0].amount, total);
      if angle >= current && angle < current + width then Some(rows[0].category)
      else HitFrom(rows[1..], angle, current + width, total)
  }

  /**
   * The category a tap at (x, y) with atan2 angle `raw` toggles, if any:
   * none off the ring, none when the total is zero (with non-negative
   * amounts every width is then 0/0, and a comparison with NaN is false).
   */
  function TapTarget(rows: seq<CategoryTotal>, x: real, y: real, raw: real): (target: Option<string>)
    ensures !OnRing(x, y) ==> target.None?
    ensures target.Some? ==> target.value in Categories(rows)
  {
    var total := AmountSum(rows);
    if !OnRing(x, y) || total == 0.0 then None
    else
      var r := HitFrom(rows, NormalizeAngle(raw), 0.0, total);
      HitFromCategory(rows, NormalizeAngle(raw), 0.0, total);
      r
  }

  lemma {:induction false} HitFromCategory(rows: seq<CategoryTotal>, angle: real, current: real, total: real)
    requires total != 0.0
    ensures HitFrom(rows, angle, current, total).Some? ==> HitFrom(rows, angle, current, total).value in Categories(rows)
  {
    if rows != [] {
      assert rows[0] in rows;
      var width := Width(rows[0].amount, total);
      if !(angle >= current && angle < current + width) {
        HitFromCategory(rows[1..], angle, current + width, total);
        var h := HitFrom(rows[1..], angle, current + width, total);
        if h.Some? {
          var r :| r in rows[1..] && r.category == h.value;
          assert r in rows;
        }
      }
    }
  }

  /** Where slice `i` starts: the widths of the slices before it, added up. */
  function SliceStart(rows: seq<CategoryTotal>, i: nat, total: real): real
    requires i <= |rows| && total != 0.0
  {
    if i == 0 then 0.0 else SliceStart(rows, i - 1, total) + Width(rows[i - 1].amount, total)
  }

  /** Slice `i` is the half-open arc `[start, start + width)`. */
  predicate InSlice(rows: seq<CategoryTotal>, i: nat, angle: real, total: real)
    requires i < |rows| && total != 0.0
  {
    SliceStart(rows, i, total) <= angle < SliceStart(rows, i + 1, total)
  }

  function PrefixAmount(rows: seq<CategoryTotal>, i: nat): real
    requires i <= |rows|
  {
    if i == 0 then 0.0 else PrefixAmount(rows, i - 1) + rows[i - 1].amount
  }

  lemma {:induction false} SliceStartScaled(rows: seq<CategoryTotal>, i: nat, total: real)
    requires i <= |rows| && total != 0.0
    ensures SliceStart(rows, i, total) == PrefixAmount(rows, i) / total * 360.0
  {
    if i > 0 {
      SliceStartScaled(rows, i - 1, total);
      var p, a := PrefixAmount(rows, i - 1), rows[i - 1].amount;
      assert (p + a) / total == p / total + a / total;
    }
  }

  lemma {:induction false} PrefixAmountSplit(rows: seq<CategoryTotal>, i: nat)
    requires i <= |rows|
    ensures PrefixAmount(rows, i) + AmountSum(rows[i..]) == AmountSum(rows)
  {
    if i > 0 {
      PrefixAmountSplit(rows, i - 1);
      assert rows[i - 1..][1..] == rows[i..];
    } else {
      assert rows[0..] == rows;
    }
  }

  /** The slices together make one full turn. */
  lemma SlicesFullTurn(rows: seq<CategoryTotal>)
    requires AmountSum(rows) != 0.0
    ensures SliceStart(rows, |rows|, AmountSum(rows)) == 360.0
  {
    var total := AmountSum(rows);
    SliceStartScaled(rows, |rows|, total);
    PrefixAmountSplit(rows, |rows|);
    assert rows[|rows|..] == [];
    assert PrefixAmount(rows, |rows|) == total;
    FullShare(total);
  }

  lemma FullShare(total: real)
    requires total != 0.0
    ensures total / total * 360.0 == 360.0
  {
  }

  /** With non-negative amounts and a positive total the slices follow each other. */
  lemma {:induction false} SliceStartMonotone(rows: seq<CategoryTotal>, i: nat, j: nat, total: real)
    requires RowsNonNegative(rows) && total > 0.0
    requires i <= j <= |rows|
    ensures SliceStart(rows, i, total) <= SliceStart(rows, j, total)
  {
    if i < j {
      SliceStartMonotone(rows, i, j - 1, total);
      assert rows[j - 1].amount / total >= 0.0;
    }
  }

  /** Two slices never share an angle. */
  lemma SlicesDisjoint(rows: seq<CategoryTotal>, i: nat, j: nat, angle: real, total: real)
    requires RowsNonNegative(rows) && total > 0.0
    requires i < |rows| && j < |rows|
    requires InSlice(rows, i, angle, total) && InSlice(rows, j, angle, total)
    ensures i == j
  {
    if i < j {
      SliceStartMonotone(rows, i + 1, j, total);
    } else if j < i {
      SliceStartMonotone(rows, j + 1, i, total);
    }
  }

  /** An angle between slice `i`'s start and the full turn lies in some slice from `i` on. */
  lemma {:induction false} SomeSliceFrom(rows: seq<CategoryTotal>, i: nat, angle: real, total: real)
    requires total != 0.0 && i < |rows|
    requires SliceStart(rows, i, total) <= angle < SliceStart(rows, |rows|, total)
    ensures exists j :: i <= j < |rows| && InSlice(rows, j, angle, total)
    decreases |rows| - i
  {
    if angle >= SliceStart(rows, i + 1, total) {
      SomeSliceFrom(rows, i + 1, angle, total);
    } else {
      assert InSlice(rows, i, angle, total);
    }
  }

  /** The running angle of the loop is the start of the current slice. */
  lemma {:induction false} HitFromFinds(rows: seq<CategoryTotal>, i: nat, j: nat, angle: real, total: real)
    requires total != 0.0 && i <= j < |rows|
    requires InSlice(rows, j, angle, total)
    requires forall k :: i <= k < j ==> !InSlice(rows, k, angle, total)
    ensures HitFrom(rows[i..], angle, SliceStart(rows, i, total), total) == Some(rows[j].category)
    decreases j - i
  {
    assert rows[i..][0] == rows[i];
    if i < j {
      assert !InSlice(rows, i, angle, total);
      assert rows[i..][1..] == rows[i + 1..];
      HitFromFinds(rows, i + 1, j, angle, total);
    }
  }

  /**
   * With a positive total, non-negative amounts and an angle in [0, 360),
   * exactly one slice holds the angle, it has a positive amount (a zero
   * amount is an empty arc), and it is the slice the loop finds.
   */
  lemma SlicePartition(rows: seq<CategoryTotal>, angle: real)
    requires RowsNonNegative(rows) && AmountSum(rows) > 0.0
    requires 0.0 <= angle < 360.0
    ensures exists j :: 0 <= j < |rows| && InSlice(rows, j, angle, AmountSum(rows))
    ensures forall j :: 0 <= j < |rows| && InSlice(rows, j, angle, AmountSum(rows)) ==>
      && rows[j].amount > 0.0
      && HitFrom(rows, angle, 0.0, AmountSum(rows)) == Some(rows[j].category)
      && (forall k :: 0 <= k < |rows| && InSlice(rows, k, angle, AmountSum(rows)) ==> k == j)
  {
    var total := AmountSum(rows);
    SlicesFullTurn(rows);
    assert rows != [];
    SomeSliceFrom(rows, 0, angle, total);
    forall j | 0 <= j < |rows| && InSlice(rows, j, angle, total)
      ensures && rows[j].amount > 0.0
              && HitFrom(rows, angle, 0.0, total) == Some(rows[j].category)
              && (forall k :: 0 <= k < |rows| && InSlice(rows, k, angle, total) ==> k == j)
    {
      forall k | 0 <= k < |rows| && InSlice(rows, k, angle, total) ensures k == j {
        SlicesDisjoint(rows, j, k, angle, total);
      }
      assert rows[j].amount / total * 360.0 > 0.0;
      assert rows[0..] == rows;
      HitFromFinds(rows, 0, j, angle, total);
    }
  }

  /**
   * A tap on the ring always finds a slice when the chart has a positive
   * total and no negative amount: the category of the one slice under the
   * normalised angle.
   */
  lemma TapOnRingHits(rows: seq<CategoryTotal>, x: real, y: real, raw: real)
    requires RowsNonNegative(rows) && AmountSum(rows) > 0.0
    requires OnRing(x, y) && -180.0 <= raw <= 180.0
    ensures exists j :: 0 <= j < |rows| && InSlice(rows, j, NormalizeAngle(raw), AmountSum(rows)) &&
                        rows[j].amount > 0.0 && TapTarget(rows, x, y, raw) == Some(rows[j].category)
  {
    SlicePartition(rows, NormalizeAngle(raw));
  }

  /** A chart with a single positive category selects it wherever the ring is tapped. */
  lemma SingleCategoryAlwaysHit(rows: seq<CategoryTotal>, x: real, y: real, raw: real)
    requires |rows| == 1 && rows[0].amount > 0.0
    requires OnRing(x, y) && -180.0 <= raw <= 180.0
    ensures TapTarget(rows, x, y, raw) == Some(rows[0].category)
  {
    assert rows[1..] == [];
    assert AmountSum(rows) == rows[0].amount;
    TapOnRingHits(rows, x, y, raw);
  }

  // ---------------------------------------------------------------------
  // The tap: toggling

  /** `contains ? remove : insert`. */
  function Toggle(selected: set<string>, c: string): (result: set<string>)
    ensures c in result <==> c !in selected
    ensures forall other :: other != c ==> (other in result <==> other in selected)
  {
    if c in selected then selected - {c} else selected + {c}
  }

  function Toggled(selected: set<string>, target: Option<string>): set<string> {
    match target
    case None => selected
    case Some(c) => Toggle(selected, c)
  }

  /** Two taps on the same slice restore the selection. */
  lemma {:induction false} ToggleTwice(selected: set<string>, target: Option<string>)
    ensures Toggled(Toggled(selected, target), target) == selected
  {
    if target.Some? {
      var c := target.value;
      var once := Toggle(selected, c);
      assert Toggle(once, c) == selected by {
        forall other ensures other in Toggle(once, c) <==> other in selected {
        }
      }
    }
  }

  class DonutChartView {
    const expenses: seq<Expense>
    var selectedCategories: set<string>

    constructor (expenses: seq<Expense>)
      ensures this.expenses == expenses && selectedCategories == {}
    {
      this.expenses := expenses;
      selectedCategories := {};
    }

    /**
     * `handleTap(at:)`: the category under the tap, if any, has its
     * membership in the selection toggled; nothing else changes.
     */
    method HandleTap(x: real, y: real, rawAngle: real)
      modifies this`selectedCategories
      ensures selectedCategories == Toggled(old(selectedCategories), TapTarget(Group(expenses), x, y, rawAngle))
    {
      var hit := LocateTap(Group(expenses), x, y, rawAngle);
      match hit {
        case None =>
        case Some(category) =>
          if category in selectedCategories {
            selectedCategories := selectedCategories - {category};
          } else {
            selectedCategories := selectedCategories + {category};
          }
      }
    }
  }

  /**
   * Steps 1 to 4 of `handleTap`: off the ring there is no target; otherwise
   * the angle is normalised and the slices are walked in chart order.
   */
  method LocateTap(categoryTotals: seq<CategoryTotal>, x: real, y: real, rawAngle: real) returns (hit: Option<string>)
    ensures hit == TapTarget(categoryTotals, x, y, rawAngle)
  {
    // the distance guard, on squared distances
    if !OnRing(x, y) {
      return None;
    }

    var angle := rawAngle;
    if angle < 0.0 {
      angle := angle + 360.0;
    }
    angle := TruncatingRemainder360(angle + 90.0);
    assert angle == NormalizeAngle(rawAngle);

    var total := AmountSum(categoryTotals);
    if total == 0.0 {
      // every width is NaN: no comparison holds
      return None;
    }
    hit := FindSlice(categoryTotals, angle, total);
  }

  /**
   * The `for` loop of `handleTap`: walk the slices with a running angle and
   * stop at the first one holding `angle` (the loop's `break`).
   */
  method FindSlice(categoryTotals: seq<CategoryTotal>, angle: real, total: real) returns (hit: Option<string>)
    requires total != 0.0
    ensures hit == HitFrom(categoryTotals, angle, 0.0, total)
  {
    var currentAngle := 0.0;
    assert categoryTotals[0..] == categoryTotals;
    var i := 0;
    while i < |categoryTotals|
      invariant 0 <= i <= |categoryTotals|
      invariant HitFrom(categoryTotals[i..], angle, currentAngle, total) == HitFrom(categoryTotals, angle, 0.0, total)
    {
      var item := categoryTotals[i];
      var itemAngle := (item.amount / total) * 360.0;
      assert categoryTotals[i..][0] == item;
      if angle >= currentAngle && angle < currentAngle + itemAngle {
        return Some(item.category);
      }
      assert categoryTotals[i..][1..] == categoryTotals[i + 1..];
      currentAngle := currentAngle + itemAngle;
      i := i + 1;
    }
    return None;
  }
}
