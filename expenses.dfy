/**
 * The expense record and the aggregation shared by the dashboard's
 * `groupedExpenses` and the donut chart's `categoryTotals`: group the
 * expenses by category (a missing category counts as "Other"), sum each
 * group and count its members, then order the groups by amount, largest
 * first. Amounts are exact reals.
 */
module Expenses {
  import opened Wrappers
  import opened Calendar

  datatype Expense = Expense(
    id: nat,
    title: Option<string>,
    amount: real,
    date: Option<DateTime>,
    category: Option<string>)

  /** One row of a grouping: a category, the sum of its expenses and how many there are. */
  datatype CategoryTotal = CategoryTotal(category: string, amount: real, count: nat)

  const OtherCategory := "Other"

  /** The dictionary key an expense is grouped under: `category ?? "Other"`. */
  function GroupKey(e: Expense): string {
    e.category.GetOr(OtherCategory)
  }

  predicate NonNegative(es: seq<Expense>) {
    forall i :: 0 <= i < |es| ==> es[i].amount >= 0.0
  }

  /** `expenses.reduce(0) { $0 + $1.amount }`. */
  function Total(es: seq<Expense>): real {
    if es == [] then 0.0 else es[0].amount + Total(es[1..])
  }

  /** Sum of the amounts of the expenses grouped under `k`. */
  function SumFor(k: string, es: seq<Expense>): real {
    if es == [] then 0.0
    else (if GroupKey(es[0]) == k then es[0].amount else 0.0) + SumFor(k, es[1..])
  }

  /** Number of expenses grouped under `k`. */
  function CountFor(k: string, es: seq<Expense>): nat {
    if es == [] then 0
    else (if GroupKey(es[0]) == k then 1 else 0) + CountFor(k, es[1..])
  }

  function KeySet(es: seq<Expense>): set<string> {
    set e | e in es :: GroupKey(e)
  }

  lemma {:induction false} TotalAppend(a: seq<Expense>, b: seq<Expense>)
    ensures Total(a + b) == Total(a) + Total(b)
  {
    if a != [] {
      assert (a + b)[1..] == a[1..] + b;
      TotalAppend(a[1..], b);
    } else {
      assert a + b == b;
    }
  }

  lemma {:induction false} TotalNonNegative(es: seq<Expense>)
    requires NonNegative(es)
    ensures Total(es) >= 0.0
  {
    if es != [] {
      TotalNonNegative(es[1..]);
    }
  }

  lemma {:induction false} SumForNonNegative(k: string, es: seq<Expense>)
    requires NonNegative(es)
    ensures SumFor(k, es) >= 0.0
  {
    if es != [] {
      SumForNonNegative(k, es[1..]);
    }
  }

  /** With no negative amount, every expense's amount is at most the total. */
  lemma {:induction false} MemberBelowTotal(es: seq<Expense>, e: Expense)
    requires NonNegative(es) && e in es
    ensures e.amount <= Total(es)
  {
    if es[0] == e {
      TotalNonNegative(es[1..]);
    } else {
      MemberBelowTotal(es[1..], e);
    }
  }

  // ---------------------------------------------------------------------
  // Rows of a grouping

  predicate DistinctCategories(rows: seq<CategoryTotal>) {
    forall i, j :: 0 <= i < j < |rows| ==> rows[i].category != rows[j].category
  }

  /** Non-increasing by amount: `sorted { $0.amount > $1.amount }`. */
  predicate SortedByAmount(rows: seq<CategoryTotal>) {
    forall i, j :: 0 <= i < j < |rows| ==> rows[i].amount >= rows[j].amount
  }

  function Categories(rows: seq<CategoryTotal>): set<string> {
    set r | r in rows :: r.category
  }

  function AmountSum(rows: seq<CategoryTotal>): real {
    if rows == [] then 0.0 else rows[0].amount + AmountSum(rows[1..])
  }

  function CountSum(rows: seq<CategoryTotal>): nat {
    if rows == [] then 0 else rows[0].count + CountSum(rows[1..])
  }

  // ---------------------------------------------------------------------
  // Grouping: distinct keys, one row per key, then the sort

  predicate DistinctKeys(ks: seq<string>) {
    forall i, j :: 0 <= i < j < |ks| ==> ks[i] != ks[j]
  }

  /** The distinct dictionary keys of `es`. */
  function Keys(es: seq<Expense>): (ks: seq<string>)
    ensures DistinctKeys(ks)
    ensures forall k :: k in ks <==> k in KeySet(es)
  {
    if es == [] then []
    else
      var rest := Keys(es[1..]);
      assert forall k :: k in KeySet(es) <==> k == GroupKey(es[0]) || k in KeySet(es[1..]) by {
        forall k ensures k in KeySet(es) <==> k == GroupKey(es[0]) || k in KeySet(es[1..]) {
          if k in KeySet(es) {
            var e :| e in es && GroupKey(e) == k;
            if e != es[0] {
              var i :| 0 <= i < |es| && es[i] == e;
              assert es[1..][i - 1] == e;
            }
          }
          if k in KeySet(es[1..]) {
            var e :| e in es[1..] && GroupKey(e) == k;
            assert e in es;
          }
        }
      }
      if GroupKey(es[0]) in rest then rest else [GroupKey(es[0])] + rest
  }

  /** `grouped.map { (category, sum, count) }` over the keys `ks`. */
  function Rows(ks: seq<string>, es: seq<Expense>): (rows: seq<CategoryTotal>)
    ensures |rows| == |ks|
    ensures forall i :: 0 <= i < |ks| ==> rows[i] == CategoryTotal(ks[i], SumFor(ks[i], es), CountFor(ks[i], es))
  {
    if ks == [] then [] else [CategoryTotal(ks[0], SumFor(ks[0], es), CountFor(ks[0], es))] + Rows(ks[1..], es)
  }

  /** Insert `r` into rows sorted by non-increasing amount. */
  function Insert(r: CategoryTotal, rows: seq<CategoryTotal>): (out: seq<CategoryTotal>)
    ensures multiset(out) == multiset([r] + rows)
  {
    if rows == [] || r.amount >= rows[0].amount then [r] + rows
    else
      assert multiset([r] + rows) == multiset([rows[0]] + ([r] + rows[1..])) by {
        assert rows == [rows[0]] + rows[1..];
      }
      [rows[0]] + Insert(r, rows[1..])
  }

  function SortByAmount(rows: seq<CategoryTotal>): (out: seq<CategoryTotal>)
    ensures multiset(out) == multiset(rows)
  {
    if rows == [] then []
    else
      assert rows == [rows[0]] + rows[1..];
      Insert(rows[0], SortByAmount(rows[1..]))
  }

  /**
   * `Dictionary(grouping: es) { $0.category ?? "Other" }`, summed and counted
   * per key, sorted by amount, largest first. The order among equal amounts
   * is left unspecified by the source (dictionary order); this definition
   * fixes one. `GroupSpec` states only what holds in every order, but the
   * chart's slices are laid out in this order, so among equal-amount
   * categories which slice a tap hits follows it.
   */
  function Group(es: seq<Expense>): seq<CategoryTotal> {
    SortByAmount(Rows(Keys(es), es))
  }

  // ---------------------------------------------------------------------
  // Lemmas about the sort

  lemma InsertMembers(r: CategoryTotal, rows: seq<CategoryTotal>)
    ensures forall x :: x in Insert(r, rows) <==> x == r || x in rows
  {
    var out := Insert(r, rows);
    forall x ensures x in out <==> x == r || x in rows {
      calc {
        x in out;
        x in multiset(out);
        x in multiset([r] + rows);
        x == r || x in rows;
      }
    }
  }

  lemma SortMembers(rows: seq<CategoryTotal>)
    ensures forall x :: x in SortByAmount(rows) <==> x in rows
  {
    var out := SortByAmount(rows);
    forall x ensures x in out <==> x in rows {
      calc {
        x in out;
        x in multiset(out);
        x in multiset(rows);
      }
    }
  }

  lemma {:induction false} InsertSorted(r: CategoryTotal, rows: seq<CategoryTotal>)
    requires SortedByAmount(rows)
    ensures SortedByAmount(Insert(r, rows))
  {
    if rows != [] && r.amount < rows[0].amount {
      var tail := Insert(r, rows[1..]);
      InsertSorted(r, rows[1..]);
      InsertMembers(r, rows[1..]);
      forall j | 0 <= j < |tail| ensures rows[0].amount >= tail[j].amount {
        assert tail[j] in tail;
      }
    }
  }

  lemma {:induction false} InsertDistinct(r: CategoryTotal, rows: seq<CategoryTotal>)
    requires DistinctCategories(rows)
    requires forall x :: x in rows ==> x.category != r.category
    ensures DistinctCategories(Insert(r, rows))
  {
    if rows != [] && r.amount < rows[0].amount {
      var tail := Insert(r, rows[1..]);
      InsertDistinct(r, rows[1..]);
      InsertMembers(r, rows[1..]);
      forall j | 0 <= j < |tail| ensures rows[0].category != tail[j].category {
        assert tail[j] in tail;
        if tail[j] != r {
          var k :| 0 <= k < |rows[1..]| && rows[1..][k] == tail[j];
          assert rows[k + 1] == tail[j];
        }
      }
    }
  }

  lemma {:induction false} InsertSums(r: CategoryTotal, rows: seq<CategoryTotal>)
    ensures AmountSum(Insert(r, rows)) == r.amount + AmountSum(rows)
    ensures CountSum(Insert(r, rows)) == r.count + CountSum(rows)
  {
    if rows != [] && r.amount < rows[0].amount {
      InsertSums(r, rows[1..]);
      var out := Insert(r, rows);
      assert out[1..] == Insert(r, rows[1..]);
    } else {
      assert ([r] + rows)[1..] == rows;
    }
  }

  lemma {:induction false} SortSorted(rows: seq<CategoryTotal>)
    ensures SortedByAmount(SortByAmount(rows))
  {
    if rows != [] {
      SortSorted(rows[1..]);
      InsertSorted(rows[0], SortByAmount(rows[1..]));
    }
  }

  lemma {:induction false} SortDistinct(rows: seq<CategoryTotal>)
    requires DistinctCategories(rows)
    ensures DistinctCategories(SortByAmount(rows))
  {
    if rows != [] {
      var tail := SortByAmount(rows[1..]);
      SortDistinct(rows[1..]);
      SortMembers(rows[1..]);
      forall x | x in tail ensures x.category != rows[0].category {
        var k :| 0 <= k < |rows[1..]| && rows[1..][k] == x;
        assert rows[k + 1] == x;
      }
      InsertDistinct(rows[0], tail);
    }
  }

  lemma {:induction false} SortSums(rows: seq<CategoryTotal>)
    ensures AmountSum(SortByAmount(rows)) == AmountSum(rows)
    ensures CountSum(SortByAmount(rows)) == CountSum(rows)
  {
    if rows != [] {
      SortSums(rows[1..]);
      InsertSums(rows[0], SortByAmount(rows[1..]));
    }
  }

  // ---------------------------------------------------------------------
  // Conservation: the per-key sums add up to the total

  /** Sum over the keys `ks` of the per-key sums. */
  function SumOverKeys(ks: seq<string>, es: seq<Expense>): real {
    if ks == [] then 0.0 else SumFor(ks[0], es) + SumOverKeys(ks[1..], es)
  }

  function CountOverKeys(ks: seq<string>, es: seq<Expense>): nat {
    if ks == [] then 0 else CountFor(ks[0], es) + CountOverKeys(ks[1..], es)
  }

  lemma {:induction false} RowsSums(ks: seq<string>, es: seq<Expense>)
    ensures AmountSum(Rows(ks, es)) == SumOverKeys(ks, es)
    ensures CountSum(Rows(ks, es)) == CountOverKeys(ks, es)
  {
    if ks != [] {
      RowsSums(ks[1..], es);
      assert Rows(ks, es)[1..] == Rows(ks[1..], es);
    }
  }

  /** Adding one expense in front adds its amount to exactly the one key it is grouped under. */
  lemma {:induction false} SumOverKeysCons(ks: seq<string>, e: Expense, es: seq<Expense>)
    requires DistinctKeys(ks)
    ensures SumOverKeys(ks, [e] + es) == SumOverKeys(ks, es) + (if GroupKey(e) in ks then e.amount else 0.0)
    ensures CountOverKeys(ks, [e] + es) == CountOverKeys(ks, es) + (if GroupKey(e) in ks then 1 else 0)
  {
    if ks != [] {
      assert ([e] + es)[1..] == es;
      assert DistinctKeys(ks[1..]);
      SumOverKeysCons(ks[1..], e, es);
      assert GroupKey(e) in ks <==> GroupKey(e) == ks[0] || GroupKey(e) in ks[1..];
      if GroupKey(e) == ks[0] {
        assert GroupKey(e) !in ks[1..];
      }
    }
  }

  lemma {:induction false} SumOverKeysComplete(ks: seq<string>, es: seq<Expense>)
    requires DistinctKeys(ks)
    requires forall e :: e in es ==> GroupKey(e) in ks
    ensures SumOverKeys(ks, es) == Total(es)
    ensures CountOverKeys(ks, es) == |es|
  {
    if es == [] {
      ZeroOverKeys(ks, es);
    } else {
      assert es == [es[0]] + es[1..];
      SumOverKeysCons(ks, es[0], es[1..]);
      assert forall e :: e in es[1..] ==> e in es;
      SumOverKeysComplete(ks, es[1..]);
    }
  }

  lemma {:induction false} ZeroOverKeys(ks: seq<string>, es: seq<Expense>)
    requires es == []
    ensures SumOverKeys(ks, es) == 0.0 && CountOverKeys(ks, es) == 0
  {
    if ks != [] {
      ZeroOverKeys(ks[1..], es);
    }
  }

  lemma {:induction false} CountForPositive(k: string, es: seq<Expense>)
    requires k in KeySet(es)
    ensures CountFor(k, es) >= 1
  {
    var e :| e in es && GroupKey(e) == k;
    if es[0] != e {
      assert e in es[1..];
      CountForPositive(k, es[1..]);
    }
  }

  lemma GroupRows(es: seq<Expense>)
    ensures forall x :: x in Group(es) <==> x in Rows(Keys(es), es)
  {
    SortMembers(Rows(Keys(es), es));
  }

  /**
   * What `Dictionary(grouping:)`, the per-group `reduce` and the sort
   * together promise: one row per distinct key, each row the sum and the
   * count of exactly that key's expenses, rows ordered by amount, the row
   * amounts adding up to the total of all expenses and the counts to their
   * number.
   */
  lemma GroupSpec(es: seq<Expense>)
    ensures DistinctCategories(Group(es))
    ensures Categories(Group(es)) == KeySet(es)
    ensures forall i :: 0 <= i < |Group(es)| ==>
      var row := Group(es)[i];
      row.amount == SumFor(row.category, es) && row.count == CountFor(row.category, es) && row.count >= 1
    ensures SortedByAmount(Group(es))
    ensures AmountSum(Group(es)) == Total(es)
    ensures CountSum(Group(es)) == |es|
  {
    GroupOrderAndSums(es);
    GroupCategories(es);
    GroupRowValues(es);
  }

  lemma GroupOrderAndSums(es: seq<Expense>)
    ensures DistinctCategories(Group(es))
    ensures SortedByAmount(Group(es))
    ensures AmountSum(Group(es)) == Total(es)
    ensures CountSum(Group(es)) == |es|
  {
    var ks := Keys(es);
    var rows := Rows(ks, es);
    assert DistinctCategories(rows);
    SortDistinct(rows);
    SortSorted(rows);
    SortSums(rows);
    RowsSums(ks, es);
    SumOverKeysComplete(ks, es);
  }

  lemma GroupCategories(es: seq<Expense>)
    ensures Categories(Group(es)) == KeySet(es)
  {
    var ks := Keys(es);
    var rows := Rows(ks, es);
    var g := Group(es);
    GroupRows(es);
    forall c ensures c in Categories(g) <==> c in KeySet(es) {
      if c in KeySet(es) {
        var i :| 0 <= i < |ks| && ks[i] == c;
        assert rows[i] in rows;
      }
      if c in Categories(g) {
        var x :| x in g && x.category == c;
        var i :| 0 <= i < |rows| && rows[i] == x;
      }
    }
  }

  lemma GroupRowValues(es: seq<Expense>)
    ensures forall i :: 0 <= i < |Group(es)| ==>
      var row := Group(es)[i];
      row.amount == SumFor(row.category, es) && row.count == CountFor(row.category, es) && row.count >= 1
  {
    var ks := Keys(es);
    var rows := Rows(ks, es);
    var g := Group(es);
    GroupRows(es);
    forall i | 0 <= i < |g|
      ensures g[i].amount == SumFor(g[i].category, es) && g[i].count == CountFor(g[i].category, es) && g[i].count >= 1
    {
      assert g[i] in g;
      var j :| 0 <= j < |rows| && rows[j] == g[i];
      CountForPositive(ks[j], es);
    }
  }

  /** With no negative expense every row of the grouping is non-negative. */
  lemma GroupNonNegative(es: seq<Expense>)
    requires NonNegative(es)
    ensures forall i :: 0 <= i < |Group(es)| ==> Group(es)[i].amount >= 0.0
  {
    GroupRowValues(es);
    forall i | 0 <= i < |Group(es)| ensures Group(es)[i].amount >= 0.0 {
      SumForNonNegative(Group(es)[i].category, es);
    }
  }
}
