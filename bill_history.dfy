/** The history view of src/components/BillHistory.tsx: the sorted list of
    saved bills and its sort controls, the chart data (trends, category
    costs, monthly comparison), the summary statistics and the file name of
    an exported bill. */
module BillHistory {
  import opened Types
  import opened Text
  import opened Grouping
  import opened Lists
  import App
  import Calculations
  import Storage

  // ---------------------------------------------------------------------
  // Sorting (sortedBills)

  datatype SortField = ByDate | ByAmount | ByName
  datatype SortOrder = Asc | Desc

  /** The comparator's `comparison` for one field: the difference of the
      creation times or of the monthly bills, or the name comparison. */
  function Comparison(field: SortField, a: SavedBill, b: SavedBill): real {
    match field
    case ByDate => (a.createdAt - b.createdAt) as real
    case ByAmount => a.calculation.monthlyBill - b.calculation.monthlyBill
    case ByName => CompareStrings(a.name, b.name) as real
  }

  /** The value the comparator returns: `comparison`, negated for "desc". */
  function Compare(field: SortField, order: SortOrder, a: SavedBill, b: SavedBill): real {
    if order == Asc then Comparison(field, a, b) else -Comparison(field, a, b)
  }

  /** `a` may stand before `b`: the comparator does not ask to swap them. */
  predicate InOrder(field: SortField, order: SortOrder, a: SavedBill, b: SavedBill) {
    Compare(field, order, a, b) <= 0.0
  }

  /** Swapping the arguments negates the comparator, so of two bills one may
      always stand before the other. */
  lemma CompareAntisymmetric(field: SortField, order: SortOrder, a: SavedBill, b: SavedBill)
    ensures Compare(field, order, b, a) == -Compare(field, order, a, b)
    ensures InOrder(field, order, a, b) || InOrder(field, order, b, a)
  {
    CompareStringsAntisymmetric(a.name, b.name);
  }

  /** Standing before is transitive. */
  lemma InOrderTransitive(field: SortField, order: SortOrder, a: SavedBill, b: SavedBill, c: SavedBill)
    requires InOrder(field, order, a, b) && InOrder(field, order, b, c)
    ensures InOrder(field, order, a, c)
  {
    if field == ByName {
      CompareStringsAntisymmetric(a.name, b.name);
      CompareStringsAntisymmetric(b.name, c.name);
      CompareStringsAntisymmetric(a.name, c.name);
      if order == Asc {
        CompareStringsTransitive(a.name, b.name, c.name);
      } else {
        CompareStringsTransitive(c.name, b.name, a.name);
      }
    }
  }

  predicate Sorted(field: SortField, order: SortOrder, s: seq<SavedBill>) {
    forall i, j :: 0 <= i < j < |s| ==> InOrder(field, order, s[i], s[j])
  }

  /** One step of a stable insertion sort: `x` goes after every bill the
      comparator does not place after it. */
  function Insert(field: SortField, order: SortOrder, s: seq<SavedBill>, x: SavedBill): (r: seq<SavedBill>)
    ensures multiset(r) == multiset(s) + multiset{x}
    decreases |s|
  {
    if s == [] then [x]
    else if InOrder(field, order, s[|s| - 1], x) then s + [x]
    else
      assert s == s[..|s| - 1] + [s[|s| - 1]];
      Insert(field, order, s[..|s| - 1], x) + [s[|s| - 1]]
  }

  /** `[...bills].sort(compare)`: a new list, a permutation of `bills`. */
  function SortBills(field: SortField, order: SortOrder, bills: seq<SavedBill>): (r: seq<SavedBill>)
    ensures multiset(r) == multiset(bills)
    ensures |r| == |bills|
    decreases |bills|
  {
    if bills == [] then []
    else
      assert bills == bills[..|bills| - 1] + [bills[|bills| - 1]];
      Insert(field, order, SortBills(field, order, bills[..|bills| - 1]), bills[|bills| - 1])
  }

  /** Inserting into a sorted list keeps it sorted. */
  lemma {:induction false} InsertSorted(field: SortField, order: SortOrder, s: seq<SavedBill>, x: SavedBill)
    requires Sorted(field, order, s)
    ensures Sorted(field, order, Insert(field, order, s, x))
    decreases |s|
  {
    if s != [] {
      var last := s[|s| - 1];
      if InOrder(field, order, last, x) {
        forall i | 0 <= i < |s| ensures InOrder(field, order, s[i], x) {
          if i < |s| - 1 {
            InOrderTransitive(field, order, s[i], last, x);
          }
        }
        SortedSnoc(field, order, s, x);
      } else {
        var init := s[..|s| - 1];
        var r := Insert(field, order, init, x);
        assert Sorted(field, order, r) by {
          SortedInit(field, order, s);
          InsertSorted(field, order, init, x);
        }
        assert InOrder(field, order, x, last) by {
          CompareAntisymmetric(field, order, last, x);
        }
        forall i | 0 <= i < |r| ensures InOrder(field, order, r[i], last) {
          assert r[i] in multiset(r);
          if r[i] != x {
            assert r[i] in multiset(init);
            var k :| 0 <= k < |init| && init[k] == r[i];
            assert init[k] == s[k];
          }
        }
        SortedSnoc(field, order, r, last);
      }
    }
  }

  /** A sorted list followed by a bill that every element may stand before is sorted. */
  lemma SortedSnoc(field: SortField, order: SortOrder, r: seq<SavedBill>, last: SavedBill)
    requires Sorted(field, order, r)
    requires forall i :: 0 <= i < |r| ==> InOrder(field, order, r[i], last)
    ensures Sorted(field, order, r + [last])
  {
    forall i, j | 0 <= i < j < |r| + 1 ensures InOrder(field, order, (r + [last])[i], (r + [last])[j]) {
      if j < |r| {
        assert (r + [last])[i] == r[i] && (r + [last])[j] == r[j];
      }
    }
  }

  /** The sorted list is in the comparator's order. */
  lemma {:induction false} SortBillsSorted(field: SortField, order: SortOrder, bills: seq<SavedBill>)
    ensures Sorted(field, order, SortBills(field, order, bills))
    decreases |bills|
  {
    if bills != [] {
      SortBillsSorted(field, order, bills[..|bills| - 1]);
      InsertSorted(field, order, SortBills(field, order, bills[..|bills| - 1]), bills[|bills| - 1]);
    }
  }

  /** sortedBills holds the same bills, ordered by creation time, monthly bill
      or name, ascending or descending. */
  lemma SortBillsSpec(field: SortField, order: SortOrder, bills: seq<SavedBill>)
    ensures multiset(SortBills(field, order, bills)) == multiset(bills)
    ensures field == ByDate ==> forall i, j :: 0 <= i < j < |bills| ==>
              if order == Asc then SortBills(field, order, bills)[i].createdAt <= SortBills(field, order, bills)[j].createdAt
              else SortBills(field, order, bills)[i].createdAt >= SortBills(field, order, bills)[j].createdAt
    ensures field == ByAmount ==> forall i, j :: 0 <= i < j < |bills| ==>
              if order == Asc then BillMonthly(SortBills(field, order, bills)[i]) <= BillMonthly(SortBills(field, order, bills)[j])
              else BillMonthly(SortBills(field, order, bills)[i]) >= BillMonthly(SortBills(field, order, bills)[j])
    ensures field == ByName ==> forall i, j :: 0 <= i < j < |bills| ==>
              if order == Asc then CompareStrings(SortBills(field, order, bills)[i].name, SortBills(field, order, bills)[j].name) <= 0
              else CompareStrings(SortBills(field, order, bills)[i].name, SortBills(field, order, bills)[j].name) >= 0
  {
    SortBillsSorted(field, order, bills);
  }

  /** The first bills of a sorted list are sorted, and the last bill comes
      after the one before it. */
  lemma SortedInit(field: SortField, order: SortOrder, bills: seq<SavedBill>)
    requires Sorted(field, order, bills) && bills != []
    ensures Sorted(field, order, bills[..|bills| - 1])
    ensures |bills| > 1 ==> InOrder(field, order, bills[|bills| - 2], bills[|bills| - 1])
  {
    var init := bills[..|bills| - 1];
    forall i, j | 0 <= i < j < |init| ensures InOrder(field, order, init[i], init[j]) {
      assert init[i] == bills[i] && init[j] == bills[j];
    }
  }

  /** A bill that comes after the last one is inserted at the end. */
  lemma InsertAfterLast(field: SortField, order: SortOrder, s: seq<SavedBill>, x: SavedBill)
    requires s == [] || InOrder(field, order, s[|s| - 1], x)
    ensures Insert(field, order, s, x) == s + [x]
  {
  }

  /** A list already in order comes back as it is. */
  lemma {:induction false} SortKeepsSorted(field: SortField, order: SortOrder, bills: seq<SavedBill>)
    requires Sorted(field, order, bills)
    ensures SortBills(field, order, bills) == bills
    decreases |bills|
  {
    if bills != [] {
      var init := bills[..|bills| - 1];
      var last := bills[|bills| - 1];
      assert SortBills(field, order, init) == init by {
        SortedInit(field, order, bills);
        SortKeepsSorted(field, order, init);
      }
      assert Insert(field, order, init, last) == init + [last] by {
        SortedInit(field, order, bills);
        InsertAfterLast(field, order, init, last);
      }
      assert bills == init + [last];
    }
  }

  /** Sorting twice is sorting once. */
  lemma SortIdempotent(field: SortField, order: SortOrder, bills: seq<SavedBill>)
    ensures SortBills(field, order, SortBills(field, order, bills)) == SortBills(field, order, bills)
  {
    SortBillsSorted(field, order, bills);
    SortKeepsSorted(field, order, SortBills(field, order, bills));
  }

  // ---------------------------------------------------------------------
  // The sort controls (handleSort)

  /** The sort field and order after a click on the header of `field`. */
  function NextSort(sortBy: SortField, sortOrder: SortOrder, field: SortField): (r: (SortField, SortOrder))
    ensures r.0 == field
  {
    if sortBy == field then (sortBy, if sortOrder == Asc then Desc else Asc)
    else (field, Desc)
  }

  /** A click on the current field flips the order and a second click flips
      it back; a click on another field sorts by it in descending order, and
      a second click on it then sorts ascending. */
  lemma NextSortTwice(sortBy: SortField, sortOrder: SortOrder, field: SortField)
    ensures sortBy == field ==> NextSort(sortBy, sortOrder, field).1 != sortOrder
    ensures sortBy == field ==>
              NextSort(NextSort(sortBy, sortOrder, field).0, NextSort(sortBy, sortOrder, field).1, field) == (sortBy, sortOrder)
    ensures sortBy != field ==> NextSort(sortBy, sortOrder, field) == (field, Desc)
    ensures sortBy != field ==>
              NextSort(NextSort(sortBy, sortOrder, field).0, NextSort(sortBy, sortOrder, field).1, field) == (field, Asc)
  {
  }

  /** The view's sort state; the list it shows is `SortBills(sortBy, sortOrder, bills)`. */
  class HistoryView {
    var sortBy: SortField
    var sortOrder: SortOrder

    /** Newest first. */
    constructor ()
      ensures sortBy == ByDate && sortOrder == Desc
    {
      sortBy := ByDate;
      sortOrder := Desc;
    }

    /** handleSort. */
    method HandleSort(field: SortField)
      modifies this
      ensures (sortBy, sortOrder) == NextSort(old(sortBy), old(sortOrder), field)
    {
      if sortBy == field {
        sortOrder := if sortOrder == Asc then Desc else Asc;
      } else {
        sortBy := field;
        sortOrder := Desc;
      }
    }

    /** The list shown: the bills in the current order. */
    function SortedBills(bills: seq<SavedBill>): (r: seq<SavedBill>)
      reads this
      ensures multiset(r) == multiset(bills)
      ensures Sorted(sortBy, sortOrder, r)
    {
      SortBillsSorted(sortBy, sortOrder, bills);
      SortBills(sortBy, sortOrder, bills)
    }
  }

  // ---------------------------------------------------------------------
  // Trends (chartData.trends)

  /** One point of the trend charts; `date` is the creation time the label is
      formatted from. */
  datatype TrendPoint = TrendPoint(
    name: string,
    date: int,
    monthlyBill: real,
    monthlyKwh: real,
    appliances: nat,
    dailyAverage: real,
    index: nat)

  function TrendRow(b: SavedBill, index: nat): TrendPoint {
    TrendPoint(b.name, b.createdAt, b.calculation.monthlyBill, b.calculation.totalKwh,
               |b.appliances|, b.calculation.dailyAverage, index)
  }

  /** The bills oldest first, each with its position counted from one. */
  function Trends(bills: seq<SavedBill>): (r: seq<TrendPoint>)
    ensures |r| == |bills|
  {
    var sorted := SortBills(ByDate, Asc, bills);
    seq(|sorted|, i requires 0 <= i < |sorted| => TrendRow(sorted[i], i + 1))
  }

  /** Every bill has a point, numbered by its place in the oldest-first order. */
  lemma TrendsCover(bills: seq<SavedBill>)
    ensures forall b :: b in bills ==> exists i :: 0 <= i < |bills| && Trends(bills)[i] == TrendRow(b, i + 1)
  {
    var sorted := SortBills(ByDate, Asc, bills);
    SortBillsSorted(ByDate, Asc, bills);
    forall b | b in bills ensures exists i :: 0 <= i < |bills| && Trends(bills)[i] == TrendRow(b, i + 1) {
      assert b in multiset(bills);
      assert b in multiset(sorted);
      var i :| 0 <= i < |sorted| && sorted[i] == b;
      assert Trends(bills)[i] == TrendRow(b, i + 1);
    }
  }

  /** No bills give no points; otherwise there is one point per bill, the
      points are numbered 1, 2, ... and run from the oldest bill to the newest. */
  lemma TrendsSpec(bills: seq<SavedBill>)
    ensures bills == [] ==> Trends(bills) == []
    ensures forall i :: 0 <= i < |bills| ==> Trends(bills)[i].index == i + 1
    ensures forall i, j :: 0 <= i < j < |bills| ==> Trends(bills)[i].date <= Trends(bills)[j].date
    ensures forall b :: b in bills ==> exists i :: 0 <= i < |bills| && Trends(bills)[i] == TrendRow(b, i + 1)
  {
    assert forall i, j :: 0 <= i < j < |bills| ==> Trends(bills)[i].date <= Trends(bills)[j].date by {
      SortBillsSorted(ByDate, Asc, bills);
    }
    TrendsCover(bills);
  }

  // ---------------------------------------------------------------------
  // Category costs (chartData.categories)

  /** One slice of the category chart. */
  datatype CategoryPoint = CategoryPoint(category: string, cost: real, percentage: real)

  /** The percentages divide by the summed monthly bills once there is a category. */
  predicate Chartable(bills: seq<SavedBill>) {
    App.AllCategoryUsages(bills) != [] ==> Total(bills, BillMonthly) != 0.0
  }

  /** A category's slice: its summed cost over the number of all bills (not of
      the bills that have the category), and the sum as a percentage of the
      summed monthly bills. */
  function CategoryPointOf(items: seq<CategoryUsage>, c: string, billCount: real, totalMonthly: real): CategoryPoint
    requires billCount != 0.0 && totalMonthly != 0.0
  {
    var sum := KeySum(items, CategoryName, c, CategoryCost);
    CategoryPoint(c, sum / billCount, sum / totalMonthly * 100.0)
  }

  function CategoryPoints(cs: seq<string>, items: seq<CategoryUsage>, billCount: real, totalMonthly: real): (r: seq<CategoryPoint>)
    requires cs != [] ==> billCount != 0.0 && totalMonthly != 0.0
    ensures |r| == |cs|
    decreases |cs|
  {
    if cs == [] then []
    else CategoryPoints(cs[..|cs| - 1], items, billCount, totalMonthly)
         + [CategoryPointOf(items, cs[|cs| - 1], billCount, totalMonthly)]
  }

  /** `Array.from(categoryData.entries()).map(...)`. */
  function CategoryChart(bills: seq<SavedBill>): seq<CategoryPoint>
    requires Chartable(bills)
  {
    var items := App.AllCategoryUsages(bills);
    if bills == [] then []
    else
      App.KeysOfNothing(items, CategoryName);
      CategoryPoints(Keys(items, CategoryName), items, |bills| as real, Total(bills, BillMonthly))
  }

  /** The running sums of `categoryData` after the entries `items`: keys in
      insertion order, each mapped to the summed cost of its entries. */
  ghost predicate CostsSummed(order: seq<string>, sums: map<string, real>, items: seq<CategoryUsage>) {
    && order == Keys(items, CategoryName)
    && (forall c :: c in sums <==> c in order)
    && (forall c :: c in sums ==> sums[c] == KeySum(items, CategoryName, c, CategoryCost))
  }

  lemma CostsSummedStep(order: seq<string>, sums: map<string, real>, items: seq<CategoryUsage>, item: CategoryUsage)
    requires CostsSummed(order, sums, items)
    ensures item.category in sums ==>
              CostsSummed(order, sums[item.category := sums[item.category] + item.monthlyCost], items + [item])
    ensures item.category !in sums ==>
              CostsSummed(order + [item.category], sums[item.category := item.monthlyCost], items + [item])
  {
    KeysSnoc(items, CategoryName, item);
    AbsentKey(items, CategoryName, item.category, CategoryCost);
    forall c {
      KeySumSnoc(items, CategoryName, c, CategoryCost, item);
    }
  }

  /** The nested `forEach` that fills `categoryData`. */
  method SumCategoryCosts(bills: seq<SavedBill>) returns (order: seq<string>, sums: map<string, real>)
    ensures CostsSummed(order, sums, App.AllCategoryUsages(bills))
  {
    order := [];
    sums := map[];
    var b := 0;
    while b < |bills|
      invariant 0 <= b <= |bills|
      invariant CostsSummed(order, sums, App.AllCategoryUsages(bills[..b]))
    {
      var breakdown := bills[b].calculation.categoryBreakdown;
      ghost var seen := App.AllCategoryUsages(bills[..b]);
      var j := 0;
      assert seen + breakdown[..j] == seen;
      while j < |breakdown|
        invariant 0 <= j <= |breakdown|
        invariant CostsSummed(order, sums, seen + breakdown[..j])
      {
        var category := breakdown[j];
        CostsSummedStep(order, sums, seen + breakdown[..j], category);
        if category.category in sums {
          sums := sums[category.category := sums[category.category] + category.monthlyCost];
        } else {
          sums := sums[category.category := category.monthlyCost];
          order := order + [category.category];
        }
        AppendPrefixStep(seen, breakdown, j);
        j := j + 1;
      }
      assert breakdown[..j] == breakdown;
      App.AllUsagesExtend(bills, b);
      b := b + 1;
    }
    assert bills[..b] == bills;
  }

  /** The category chart: the summing loop, then one slice per category in
      the order the categories first appear. */
  method CalculateCategoryChart(bills: seq<SavedBill>) returns (r: seq<CategoryPoint>)
    requires Chartable(bills)
    ensures r == CategoryChart(bills)
  {
    if |bills| == 0 {
      return [];
    }
    var order, sums := SumCategoryCosts(bills);
    var totalMonthly := Total(bills, BillMonthly);
    App.KeysOfNothing(App.AllCategoryUsages(bills), CategoryName);
    r := [];
    var i := 0;
    while i < |order|
      invariant 0 <= i <= |order|
      invariant r == CategoryPoints(order[..i], App.AllCategoryUsages(bills), |bills| as real, totalMonthly)
    {
      var c := order[i];
      r := r + [CategoryPoint(c, sums[c] / |bills| as real, sums[c] / totalMonthly * 100.0)];
      assert order[..i + 1][..i] == order[..i];
      i := i + 1;
    }
    assert order[..i] == order;
  }

  /** Each slice is a category in order of first appearance, with its cost
      summed over the bills that have it and divided by the number of all
      bills, and that sum as a percentage of the summed monthly bills. */
  lemma {:induction false} CategoryPointsSpec(cs: seq<string>, items: seq<CategoryUsage>, billCount: real, totalMonthly: real)
    requires cs != [] ==> billCount != 0.0 && totalMonthly != 0.0
    ensures forall i :: 0 <= i < |cs| ==>
              && CategoryPoints(cs, items, billCount, totalMonthly)[i].category == cs[i]
              && CategoryPoints(cs, items, billCount, totalMonthly)[i].cost
                 == KeySum(items, CategoryName, cs[i], CategoryCost) / billCount
              && CategoryPoints(cs, items, billCount, totalMonthly)[i].percentage
                 == KeySum(items, CategoryName, cs[i], CategoryCost) / totalMonthly * 100.0
    decreases |cs|
  {
    if cs != [] {
      CategoryPointsSpec(cs[..|cs| - 1], items, billCount, totalMonthly);
    }
  }

  lemma CategoryPointAt(cs: seq<string>, items: seq<CategoryUsage>, billCount: real, totalMonthly: real, i: nat)
    requires cs != [] ==> billCount != 0.0 && totalMonthly != 0.0
    requires i < |cs|
    ensures CategoryPoints(cs, items, billCount, totalMonthly)[i].category == cs[i]
    ensures CategoryPoints(cs, items, billCount, totalMonthly)[i].cost
         == KeySum(items, CategoryName, cs[i], CategoryCost) / billCount
    ensures CategoryPoints(cs, items, billCount, totalMonthly)[i].percentage
         == KeySum(items, CategoryName, cs[i], CategoryCost) / totalMonthly * 100.0
  {
    CategoryPointsSpec(cs, items, billCount, totalMonthly);
  }

  /** No bills give no slices; otherwise there is one slice per category. */
  lemma CategoryChartLength(bills: seq<SavedBill>)
    requires Chartable(bills)
    ensures bills == [] ==> CategoryChart(bills) == []
    ensures bills != [] ==> |CategoryChart(bills)| == |Keys(App.AllCategoryUsages(bills), CategoryName)|
  {
    if bills != [] {
      CategoryChartIs(bills);
    }
  }

  /** Slice `i` is the `i`-th category to appear, with its summed cost over
      all bills divided by their number, and the sum as a percentage of the
      summed monthly bills. */
  lemma CategoryChartAt(bills: seq<SavedBill>, i: nat)
    requires Chartable(bills) && i < |CategoryChart(bills)|
    ensures CategoryChart(bills)[i].category == Keys(App.AllCategoryUsages(bills), CategoryName)[i]
    ensures CategoryChart(bills)[i].cost
         == KeySum(App.AllCategoryUsages(bills), CategoryName, CategoryChart(bills)[i].category, CategoryCost) / |bills| as real
    ensures CategoryChart(bills)[i].percentage
         == KeySum(App.AllCategoryUsages(bills), CategoryName, CategoryChart(bills)[i].category, CategoryCost)
            / Total(bills, BillMonthly) * 100.0
  {
    assert bills != [];
    CategoryChartIs(bills);
    CategoryPointAt(Keys(App.AllCategoryUsages(bills), CategoryName), App.AllCategoryUsages(bills),
                    |bills| as real, Total(bills, BillMonthly), i);
  }

  /** With bills, the chart is the slices of the categories in order of first appearance. */
  lemma CategoryChartIs(bills: seq<SavedBill>)
    requires Chartable(bills) && bills != []
    ensures Keys(App.AllCategoryUsages(bills), CategoryName) != [] ==> Total(bills, BillMonthly) != 0.0
    ensures CategoryChart(bills)
         == CategoryPoints(Keys(App.AllCategoryUsages(bills), CategoryName), App.AllCategoryUsages(bills),
                           |bills| as real, Total(bills, BillMonthly))
  {
    App.KeysOfNothing(App.AllCategoryUsages(bills), CategoryName);
  }

  /** Where the history chart and the aggregated results disagree: both sum
      a category's costs, but the chart divides the sum by the number of all
      bills and the aggregate by the number of entries merged; the chart's
      percentage is the sum's share of the total, the aggregate's that of the
      mean. */
  lemma ChartVersusAggregate(bills: seq<SavedBill>, i: nat)
    requires App.Averageable(bills)
    requires i < |App.Aggregate(bills).categoryBreakdown|
    ensures Chartable(bills) && i < |CategoryChart(bills)|
    ensures CategoryChart(bills)[i].category == App.Aggregate(bills).categoryBreakdown[i].category
    ensures KeyCount(App.AllCategoryUsages(bills), CategoryName, CategoryChart(bills)[i].category) > 0
    ensures CategoryChart(bills)[i].cost
         == KeySum(App.AllCategoryUsages(bills), CategoryName, CategoryChart(bills)[i].category, CategoryCost) / |bills| as real
    ensures App.Aggregate(bills).categoryBreakdown[i].monthlyCost
         == KeySum(App.AllCategoryUsages(bills), CategoryName, CategoryChart(bills)[i].category, CategoryCost)
            / KeyCount(App.AllCategoryUsages(bills), CategoryName, CategoryChart(bills)[i].category) as real
    ensures CategoryChart(bills)[i].percentage
         == KeySum(App.AllCategoryUsages(bills), CategoryName, CategoryChart(bills)[i].category, CategoryCost)
            / Total(bills, BillMonthly) * 100.0
    ensures App.Aggregate(bills).categoryBreakdown[i].percentage
         == App.Aggregate(bills).categoryBreakdown[i].monthlyCost / Total(bills, BillMonthly) * 100.0
  {
    App.AggregateCategoryAt(bills, i);
    CategoryChartLength(bills);
    CategoryChartAt(bills, i);
    AbsentKey(App.AllCategoryUsages(bills), CategoryName, CategoryChart(bills)[i].category, CategoryCost);
  }

  /** The bill's category costs add up to its monthly bill, as they do for
      every calculated bill (Calculations.BillFromCategoryTotals). */
  predicate CategoriesCoverBill(b: SavedBill) {
    Total(b.calculation.categoryBreakdown, CategoryCost) == b.calculation.monthlyBill
  }

  function SliceShare(p: CategoryPoint): real { p.percentage }

  /** When every bill's categories cover it, the slices' percentages add up to 100. */
  lemma ChartPercentagesAddUp(bills: seq<SavedBill>)
    requires forall i :: 0 <= i < |bills| ==> CategoriesCoverBill(bills[i])
    requires Total(bills, BillMonthly) != 0.0
    ensures Chartable(bills)
    ensures Total(CategoryChart(bills), SliceShare) == 100.0
  {
    assert bills != [];
    CategoryCostsCoverBills(bills);
    CategoryChartIs(bills);
    PointSharesTotal(Keys(App.AllCategoryUsages(bills), CategoryName), App.AllCategoryUsages(bills),
                     |bills| as real, Total(bills, BillMonthly));
    KeySumsAddUp(App.AllCategoryUsages(bills), CategoryName, CategoryCost);
    WholeShare(Total(bills, BillMonthly));
  }

  lemma WholeShare(t: real)
    requires t != 0.0
    ensures t / t * 100.0 == 100.0
  {
  }

  /** The slices' percentages add up to the summed costs of their categories
      as a percentage of the total. */
  lemma {:induction false} PointSharesTotal(cs: seq<string>, items: seq<CategoryUsage>, billCount: real, totalMonthly: real)
    requires billCount != 0.0 && totalMonthly != 0.0
    ensures Total(CategoryPoints(cs, items, billCount, totalMonthly), SliceShare)
         == SumOverKeys(cs, items, CategoryName, CategoryCost) / totalMonthly * 100.0
    decreases |cs|
  {
    if cs != [] {
      var init := cs[..|cs| - 1];
      PointSharesTotal(init, items, billCount, totalMonthly);
      assert CategoryPoints(cs, items, billCount, totalMonthly)[..|cs| - 1]
          == CategoryPoints(init, items, billCount, totalMonthly);
      SharesAdd(SumOverKeys(init, items, CategoryName, CategoryCost),
                KeySum(items, CategoryName, cs[|cs| - 1], CategoryCost), totalMonthly);
    }
  }

  lemma SharesAdd(a: real, b: real, t: real)
    requires t != 0.0
    ensures a / t * 100.0 + b / t * 100.0 == (a + b) / t * 100.0
  {
  }

  /** The costs of all category entries add up to the summed monthly bills. */
  lemma {:induction false} CategoryCostsCoverBills(bills: seq<SavedBill>)
    requires forall i :: 0 <= i < |bills| ==> CategoriesCoverBill(bills[i])
    ensures Total(App.AllCategoryUsages(bills), CategoryCost) == Total(bills, BillMonthly)
    decreases |bills|
  {
    if bills != [] {
      var init := bills[..|bills| - 1];
      CategoryCostsCoverBills(init);
      TotalAppend(App.AllCategoryUsages(init), bills[|bills| - 1].calculation.categoryBreakdown, CategoryCost);
      assert CategoriesCoverBill(bills[|bills| - 1]);
    }
  }

  /** A bill as calculateBill produced it has categories that cover it. */
  lemma CalculatedBillIsCovered(b: SavedBill)
    requires b.calculation == Calculations.Bill(b.appliances, b.settings)
    ensures CategoriesCoverBill(b)
  {
    Calculations.BillFromCategoryTotals(Calculations.Usages(b.appliances, b.settings, Calculations.EffectiveRate(b.settings)));
  }

  // ---------------------------------------------------------------------
  // Monthly comparison (chartData.comparison)

  /** One row of the monthly comparison. */
  datatype MonthGroup = MonthGroup(
    monthYear: string,
    totalBills: nat,
    totalCost: real,
    totalKwh: real,
    avgCost: real,
    avgKwh: real)

  /** `${bill.month || "N/A"} ${bill.year || "N/A"}`: an empty month and the
      year 0 are falsy and print as "N/A". */
  function MonthYear(b: SavedBill): string {
    (if b.month == "" then "N/A" else b.month) + " " + (if b.year == 0 then "N/A" else IntToString(b.year))
  }

  /** The row of `monthYear` after the bills `bills`: how many bills fall in
      it, their summed cost and energy, and the means of both. */
  function MonthGroupOf(bills: seq<SavedBill>, monthYear: string): MonthGroup
    requires monthYear in Keys(bills, MonthYear)
  {
    AbsentKey(bills, MonthYear, monthYear, BillMonthly);
    var n := KeyCount(bills, MonthYear, monthYear);
    var cost := KeySum(bills, MonthYear, monthYear, BillMonthly);
    var kwh := KeySum(bills, MonthYear, monthYear, BillKwh);
    MonthGroup(monthYear, n, cost, kwh, cost / n as real, kwh / n as real)
  }

  function MonthGroups(ks: seq<string>, bills: seq<SavedBill>): (r: seq<MonthGroup>)
    requires forall k :: k in ks ==> k in Keys(bills, MonthYear)
    ensures |r| == |ks|
    decreases |ks|
  {
    if ks == [] then []
    else
      assert forall k :: k in ks[..|ks| - 1] ==> k in ks;
      MonthGroups(ks[..|ks| - 1], bills) + [MonthGroupOf(bills, ks[|ks| - 1])]
  }

  /** `Object.values(monthlyComparison)`: the rows in the order their months
      first appear (the keys contain a space, so no key is an array index and
      insertion order is kept). */
  function MonthlyComparison(bills: seq<SavedBill>): seq<MonthGroup> {
    MonthGroups(Keys(bills, MonthYear), bills)
  }

  /** The body of the `reduce`: count the bill, add its cost and energy, and
      recompute the means. */
  function Tally(g: MonthGroup, b: SavedBill): MonthGroup {
    var n := g.totalBills + 1;
    var cost := g.totalCost + b.calculation.monthlyBill;
    var kwh := g.totalKwh + b.calculation.totalKwh;
    g.(totalBills := n, totalCost := cost, totalKwh := kwh, avgCost := cost / n as real, avgKwh := kwh / n as real)
  }

  /** The accumulator after the bills `seen`: its keys in insertion order,
      each holding the row of its month. */
  ghost predicate Tallied(order: seq<string>, acc: map<string, MonthGroup>, seen: seq<SavedBill>) {
    && order == Keys(seen, MonthYear)
    && (forall k :: k in acc <==> k in order)
    && (forall k :: k in acc ==> acc[k] == MonthGroupOf(seen, k))
  }

  lemma TallyStep(order: seq<string>, acc: map<string, MonthGroup>, seen: seq<SavedBill>, b: SavedBill)
    requires Tallied(order, acc, seen)
    ensures MonthYear(b) in acc ==>
              Tallied(order, acc[MonthYear(b) := Tally(acc[MonthYear(b)], b)], seen + [b])
    ensures MonthYear(b) !in acc ==>
              Tallied(order + [MonthYear(b)], acc[MonthYear(b) := Tally(MonthGroup(MonthYear(b), 0, 0.0, 0.0, 0.0, 0.0), b)], seen + [b])
  {
    var m := MonthYear(b);
    KeysSnoc(seen, MonthYear, b);
    if m in acc {
      var acc' := acc[m := Tally(acc[m], b)];
      forall k | k in acc' ensures acc'[k] == MonthGroupOf(seen + [b], k) {
        MonthGroupSnoc(seen, b, k);
      }
    } else {
      var acc' := acc[m := Tally(MonthGroup(m, 0, 0.0, 0.0, 0.0, 0.0), b)];
      forall k | k in acc' ensures acc'[k] == MonthGroupOf(seen + [b], k) {
        MonthGroupSnoc(seen, b, k);
      }
    }
  }

  /** Appending a bill tallies it into its own month's row, starting from an
      empty row for a new month, and leaves every other row as it was. */
  lemma MonthGroupSnoc(seen: seq<SavedBill>, b: SavedBill, k: string)
    requires k in Keys(seen + [b], MonthYear)
    ensures k != MonthYear(b) ==> k in Keys(seen, MonthYear) && MonthGroupOf(seen + [b], k) == MonthGroupOf(seen, k)
    ensures k == MonthYear(b) && k in Keys(seen, MonthYear) ==>
              MonthGroupOf(seen + [b], k) == Tally(MonthGroupOf(seen, k), b)
    ensures k == MonthYear(b) && k !in Keys(seen, MonthYear) ==>
              MonthGroupOf(seen + [b], k) == Tally(MonthGroup(k, 0, 0.0, 0.0, 0.0, 0.0), b)
  {
    KeysSnoc(seen, MonthYear, b);
    KeyCountSnoc(seen, MonthYear, k, b);
    KeySumSnoc(seen, MonthYear, k, BillMonthly, b);
    KeySumSnoc(seen, MonthYear, k, BillKwh, b);
    AbsentKey(seen, MonthYear, k, BillMonthly);
    AbsentKey(seen, MonthYear, k, BillKwh);
  }

  /** The `reduce` that fills `monthlyComparison`, and `Object.values`. */
  method CompareMonths(bills: seq<SavedBill>) returns (r: seq<MonthGroup>)
    ensures r == MonthlyComparison(bills)
  {
    var order: seq<string> := [];
    var acc: map<string, MonthGroup> := map[];
    var i := 0;
    while i < |bills|
      invariant 0 <= i <= |bills|
      invariant Tallied(order, acc, bills[..i])
    {
      var bill := bills[i];
      var monthYear := MonthYear(bill);
      TallyStep(order, acc, bills[..i], bill);
      if monthYear !in acc {
        acc := acc[monthYear := MonthGroup(monthYear, 0, 0.0, 0.0, 0.0, 0.0)];
        order := order + [monthYear];
      }
      acc := acc[monthYear := Tally(acc[monthYear], bill)];
      PrefixExtends(bills, i);
      i := i + 1;
    }
    assert bills[..i] == bills;
    r := [];
    var j := 0;
    while j < |order|
      invariant 0 <= j <= |order|
      invariant r == MonthGroups(order[..j], bills)
    {
      assert order[..j + 1][..j] == order[..j];
      r := r + [acc[order[j]]];
      j := j + 1;
    }
    assert order[..j] == order;
  }

  lemma {:induction false} MonthGroupsAt(ks: seq<string>, bills: seq<SavedBill>, i: nat)
    requires forall k :: k in ks ==> k in Keys(bills, MonthYear)
    requires i < |ks|
    ensures MonthGroups(ks, bills)[i] == MonthGroupOf(bills, ks[i])
    decreases |ks|
  {
    assert forall k :: k in ks[..|ks| - 1] ==> k in ks;
    if i < |ks| - 1 {
      MonthGroupsAt(ks[..|ks| - 1], bills, i);
    }
  }

  /** Row `i` is the month that appears `i`-th among the bills; it counts at
      least one bill, and its sums and means are those of that month's bills. */
  lemma MonthlyComparisonAt(bills: seq<SavedBill>, i: nat)
    requires i < |MonthlyComparison(bills)|
    ensures i < |Keys(bills, MonthYear)|
    ensures MonthlyComparison(bills)[i].monthYear == Keys(bills, MonthYear)[i]
    ensures MonthlyComparison(bills)[i].totalBills == KeyCount(bills, MonthYear, Keys(bills, MonthYear)[i]) >= 1
    ensures MonthlyComparison(bills)[i].totalCost == KeySum(bills, MonthYear, Keys(bills, MonthYear)[i], BillMonthly)
    ensures MonthlyComparison(bills)[i].totalKwh == KeySum(bills, MonthYear, Keys(bills, MonthYear)[i], BillKwh)
    ensures MonthlyComparison(bills)[i].avgCost
         == MonthlyComparison(bills)[i].totalCost / MonthlyComparison(bills)[i].totalBills as real
    ensures MonthlyComparison(bills)[i].avgKwh
         == MonthlyComparison(bills)[i].totalKwh / MonthlyComparison(bills)[i].totalBills as real
  {
    MonthGroupsAt(Keys(bills, MonthYear), bills, i);
    AbsentKey(bills, MonthYear, Keys(bills, MonthYear)[i], BillMonthly);
  }

  function GroupCost(g: MonthGroup): real { g.totalCost }
  function GroupKwh(g: MonthGroup): real { g.totalKwh }

  lemma {:induction false} MonthGroupsTotal(ks: seq<string>, bills: seq<SavedBill>)
    requires forall k :: k in ks ==> k in Keys(bills, MonthYear)
    ensures Total(MonthGroups(ks, bills), GroupCost) == SumOverKeys(ks, bills, MonthYear, BillMonthly)
    ensures Total(MonthGroups(ks, bills), GroupKwh) == SumOverKeys(ks, bills, MonthYear, BillKwh)
    decreases |ks|
  {
    if ks != [] {
      assert forall k :: k in ks[..|ks| - 1] ==> k in ks;
      MonthGroupsTotal(ks[..|ks| - 1], bills);
      var r := MonthGroups(ks, bills);
      assert r[..|r| - 1] == MonthGroups(ks[..|ks| - 1], bills);
    }
  }

  /** The rows' months are the distinct months of the bills, in order. */
  lemma MonthlyComparisonMonths(bills: seq<SavedBill>)
    ensures |MonthlyComparison(bills)| == |Keys(bills, MonthYear)|
    ensures forall i :: 0 <= i < |MonthlyComparison(bills)| ==>
              MonthlyComparison(bills)[i].monthYear == Keys(bills, MonthYear)[i]
  {
    forall i | 0 <= i < |MonthlyComparison(bills)| ensures MonthlyComparison(bills)[i].monthYear == Keys(bills, MonthYear)[i] {
      MonthlyComparisonAt(bills, i);
    }
  }

  /** Every bill's month has a row. */
  lemma MonthlyComparisonCovers(bills: seq<SavedBill>)
    ensures forall b :: b in bills ==> exists i :: 0 <= i < |MonthlyComparison(bills)| && MonthlyComparison(bills)[i].monthYear == MonthYear(b)
  {
    var ks := Keys(bills, MonthYear);
    KeysSpec(bills, MonthYear);
    MonthlyComparisonMonths(bills);
    forall b | b in bills ensures exists i :: 0 <= i < |MonthlyComparison(bills)| && MonthlyComparison(bills)[i].monthYear == MonthYear(b) {
      var j :| 0 <= j < |bills| && bills[j] == b;
      assert MonthYear(bills[j]) in ks;
      var i :| 0 <= i < |ks| && ks[i] == MonthYear(b);
      assert MonthlyComparison(bills)[i].monthYear == MonthYear(b);
    }
  }

  /** The rows' costs and energies add up to those of all the bills. */
  lemma MonthlyComparisonTotals(bills: seq<SavedBill>)
    ensures Total(MonthlyComparison(bills), GroupCost) == Total(bills, BillMonthly)
    ensures Total(MonthlyComparison(bills), GroupKwh) == Total(bills, BillKwh)
  {
    KeysSpec(bills, MonthYear);
    MonthGroupsTotal(Keys(bills, MonthYear), bills);
    KeySumsAddUp(bills, MonthYear, BillMonthly);
    KeySumsAddUp(bills, MonthYear, BillKwh);
  }

  /** Every bill falls in exactly one row: the months are distinct, every
      bill's month has a row, and the rows' costs and energies add up to those
      of all the bills. */
  lemma MonthlyComparisonPartitions(bills: seq<SavedBill>)
    ensures forall i, j :: 0 <= i < j < |MonthlyComparison(bills)| ==>
              MonthlyComparison(bills)[i].monthYear != MonthlyComparison(bills)[j].monthYear
    ensures forall b :: b in bills ==> exists i :: 0 <= i < |MonthlyComparison(bills)| && MonthlyComparison(bills)[i].monthYear == MonthYear(b)
    ensures Total(MonthlyComparison(bills), GroupCost) == Total(bills, BillMonthly)
    ensures Total(MonthlyComparison(bills), GroupKwh) == Total(bills, BillKwh)
  {
    assert forall i, j :: 0 <= i < j < |MonthlyComparison(bills)| ==>
             MonthlyComparison(bills)[i].monthYear != MonthlyComparison(bills)[j].monthYear by {
      KeysSpec(bills, MonthYear);
      MonthlyComparisonMonths(bills);
    }
    MonthlyComparisonCovers(bills);
    MonthlyComparisonTotals(bills);
  }

  // ---------------------------------------------------------------------
  // Summary statistics (stats)

  /** A double the trend computation can produce: a finite percentage, or
      what JavaScript's division by a zero first bill yields. */
  datatype Trend = Percent(p: real) | PlusInfinity | MinusInfinity | NotANumber

  /** `(last - first) / first * 100` in IEEE arithmetic, without rounding:
      dividing a non-zero number by zero gives an infinity of its sign, and
      zero by zero gives NaN, which multiplying by 100 keeps. */
  function PercentChange(first: real, last: real): Trend {
    if first != 0.0 then Percent((last - first) / first * 100.0)
    else if last > 0.0 then PlusInfinity
    else if last < 0.0 then MinusInfinity
    else NotANumber
  }

  /** The caption under the trend: a positive trend (infinity included) is up,
      a negative one is down, and zero or NaN (both falsy) is stable. */
  function TrendLabel(t: Trend): string {
    match t
    case Percent(p) => if p > 0.0 then "Trending Up" else if p < 0.0 then "Trending Down" else "Stable"
    case PlusInfinity => "Trending Up"
    case MinusInfinity => "Trending Down"
    case NotANumber => "Stable"
  }

  lemma QuotientSign(x: real, y: real)
    requires y != 0.0
    ensures x / y * 100.0 > 0.0 <==> (x > 0.0 && y > 0.0) || (x < 0.0 && y < 0.0)
    ensures x / y * 100.0 < 0.0 <==> (x > 0.0 && y < 0.0) || (x < 0.0 && y > 0.0)
  {
    var q := x / y;
    assert q * y == x;
    if y > 0.0 {
      assert q > 0.0 <==> x > 0.0;
      assert q < 0.0 <==> x < 0.0;
    } else {
      assert q > 0.0 <==> x < 0.0;
      assert q < 0.0 <==> x > 0.0;
    }
  }

  /** Which way the label points, for every first and last bill: up exactly
      when the last bill moved away from zero past the first in the first's
      direction (or the first is zero and the last positive), down in the
      mirrored cases, and stable when they are equal. */
  lemma {:induction false} TrendLabelSpec(first: real, last: real)
    ensures TrendLabel(PercentChange(first, last)) == "Trending Up" <==>
              (first > 0.0 && last > first) || (first < 0.0 && last < first) || (first == 0.0 && last > 0.0)
    ensures TrendLabel(PercentChange(first, last)) == "Trending Down" <==>
              (first > 0.0 && last < first) || (first < 0.0 && last > first) || (first == 0.0 && last < 0.0)
    ensures TrendLabel(PercentChange(first, last)) == "Stable" <==> last == first
  {
    if first != 0.0 {
      QuotientSign(last - first, first);
    }
  }

  /** The stats cards. */
  datatype HistoryStats = HistoryStats(
    totalBills: nat,
    totalCost: real,
    averageMonthly: real,
    averageKwh: real,
    highestBill: SavedBill,
    lowestBill: SavedBill,
    trend: Trend)

  /** stats: null without bills; otherwise the count, the total and mean
      cost, the mean energy, the first highest and first lowest bill, and the
      change from the earliest to the latest bill (0 for a single bill). */
  function Stats(bills: seq<SavedBill>): Option<HistoryStats> {
    if |bills| == 0 then None
    else
      var byDate := SortBills(ByDate, Asc, bills);
      Some(HistoryStats(
        |bills|, Total(bills, BillMonthly), Mean(bills, BillMonthly),
        Mean(bills, BillKwh), Storage.Highest(bills), Storage.Lowest(bills),
        if |byDate| > 1 then PercentChange(BillMonthly(byDate[0]), BillMonthly(byDate[|byDate| - 1]))
        else Percent(0.0)))
  }

  /** The cards agree with getBillStatistics where they overlap: the same
      count, average and extreme bills, and both are empty together. */
  lemma StatsAgreeWithStorage(bills: seq<SavedBill>)
    ensures Stats(bills).None? <==> Storage.Statistics(bills).totalBills == 0
    ensures Stats(bills).Some? ==>
              && Stats(bills).value.totalBills == Storage.Statistics(bills).totalBills
              && Stats(bills).value.averageMonthly == Storage.Statistics(bills).averageMonthly
              && Storage.Statistics(bills).highestBill == Some(Stats(bills).value.highestBill)
              && Storage.Statistics(bills).lowestBill == Some(Stats(bills).value.lowestBill)
  {
  }

  /** The highest and lowest cards show bills of the history that bound every
      other bill's monthly cost. */
  lemma StatsExtremes(bills: seq<SavedBill>)
    requires |bills| > 0
    ensures Stats(bills).value.highestBill in bills && Stats(bills).value.lowestBill in bills
    ensures forall b :: b in bills ==>
              BillMonthly(Stats(bills).value.lowestBill) <= BillMonthly(b) <= BillMonthly(Stats(bills).value.highestBill)
  {
    var hi := MaxIndex(bills, BillMonthly);
    var lo := MinIndex(bills, BillMonthly);
    forall b | b in bills ensures BillMonthly(bills[lo]) <= BillMonthly(b) <= BillMonthly(bills[hi]) {
      var j :| 0 <= j < |bills| && bills[j] == b;
    }
  }

  /** The first and last bill by ascending date are an earliest and a latest bill. */
  lemma ByDateEnds(bills: seq<SavedBill>)
    requires |bills| > 0
    ensures SortBills(ByDate, Asc, bills)[0] in bills
    ensures SortBills(ByDate, Asc, bills)[|bills| - 1] in bills
    ensures forall b :: b in bills ==>
              SortBills(ByDate, Asc, bills)[0].createdAt <= b.createdAt <= SortBills(ByDate, Asc, bills)[|bills| - 1].createdAt
  {
    var byDate := SortBills(ByDate, Asc, bills);
    var n := |byDate|;
    assert Sorted(ByDate, Asc, byDate) by {
      SortBillsSorted(ByDate, Asc, bills);
    }
    assert byDate[0] in multiset(byDate) && byDate[n - 1] in multiset(byDate);
    forall b | b in bills ensures byDate[0].createdAt <= b.createdAt <= byDate[n - 1].createdAt {
      assert b in multiset(byDate);
      var k :| 0 <= k < n && byDate[k] == b;
      SortedByDateEnds(byDate, k);
    }
  }

  /** In a list sorted by ascending date, the first and last bills bound every other. */
  lemma SortedByDateEnds(s: seq<SavedBill>, k: nat)
    requires Sorted(ByDate, Asc, s) && k < |s|
    ensures s[0].createdAt <= s[k].createdAt <= s[|s| - 1].createdAt
  {
    if 0 < k { assert InOrder(ByDate, Asc, s[0], s[k]); }
    if k < |s| - 1 { assert InOrder(ByDate, Asc, s[k], s[|s| - 1]); }
  }

  /** `first` is an earliest bill and `last` a latest one, and the trend card
      shows the change from the first's monthly bill to the last's. */
  predicate TrendBetween(bills: seq<SavedBill>, first: SavedBill, last: SavedBill)
    requires |bills| > 0
  {
    first in bills && last in bills
    && (forall b :: b in bills ==> first.createdAt <= b.createdAt <= last.createdAt)
    && Stats(bills).value.trend == PercentChange(BillMonthly(first), BillMonthly(last))
  }

  /** With two bills or more, the trend compares an earliest bill with a
      latest one. */
  lemma StatsTrend(bills: seq<SavedBill>)
    requires |bills| > 1
    ensures exists first, last :: TrendBetween(bills, first, last)
  {
    var first, last := SortBills(ByDate, Asc, bills)[0], SortBills(ByDate, Asc, bills)[|bills| - 1];
    assert first in bills && last in bills
      && (forall b :: b in bills ==> first.createdAt <= b.createdAt <= last.createdAt) by {
      ByDateEnds(bills);
    }
    assert Stats(bills).value.trend == PercentChange(BillMonthly(first), BillMonthly(last)) by {
      StatsTrendByDate(bills);
    }
    assert TrendBetween(bills, first, last);
  }

  /** The trend compares the first and the last bill by ascending date. */
  lemma StatsTrendByDate(bills: seq<SavedBill>)
    requires |bills| > 1
    ensures Stats(bills).value.trend == PercentChange(BillMonthly(SortBills(ByDate, Asc, bills)[0]),
                                                      BillMonthly(SortBills(ByDate, Asc, bills)[|bills| - 1]))
  {
  }

  /** A single bill has trend 0, shown as stable. */
  lemma SingleBillIsStable(b: SavedBill)
    ensures Stats([b]).value.trend == Percent(0.0)
    ensures TrendLabel(Stats([b]).value.trend) == "Stable"
  {
  }

  /** The average cards are means of the history, each between the smallest
      and the largest value over the bills; the average cost is that of
      getBillStatistics, whose average times the count is the total cost
      (Storage.StatisticsMean). */
  lemma StatsMeans(bills: seq<SavedBill>)
    requires |bills| > 0
    ensures Stats(bills).value.totalBills == |bills|
    ensures Stats(bills).value.totalCost == Total(bills, BillMonthly)
    ensures Stats(bills).value.averageMonthly == Mean(bills, BillMonthly) == Storage.Statistics(bills).averageMonthly
    ensures Stats(bills).value.averageKwh == Mean(bills, BillKwh)
    ensures BillMonthly(Stats(bills).value.lowestBill) <= Stats(bills).value.averageMonthly
              <= BillMonthly(Stats(bills).value.highestBill)
    ensures BillKwh(bills[MinIndex(bills, BillKwh)]) <= Stats(bills).value.averageKwh
              <= BillKwh(bills[MaxIndex(bills, BillKwh)])
  {
    assert BillMonthly(Stats(bills).value.lowestBill) <= Stats(bills).value.averageMonthly
             <= BillMonthly(Stats(bills).value.highestBill) by {
      MeanBetween(bills, BillMonthly, BillMonthly(Storage.Lowest(bills)), BillMonthly(Storage.Highest(bills)));
    }
    assert BillKwh(bills[MinIndex(bills, BillKwh)]) <= Stats(bills).value.averageKwh
             <= BillKwh(bills[MaxIndex(bills, BillKwh)]) by {
      MeanBetween(bills, BillKwh, BillKwh(bills[MinIndex(bills, BillKwh)]), BillKwh(bills[MaxIndex(bills, BillKwh)]));
    }
  }

  // ---------------------------------------------------------------------
  // Export file name (exportBill)

  /** A character the pattern `[^a-z0-9]` with the `i` flag does not replace. */
  predicate KeptInFileName(c: char) { IsAsciiAlphanumeric(c) }

  /** The number of UTF-16 code units JavaScript stores for `c`: two for a
      character outside the Basic Multilingual Plane, one for any other. */
  function CodeUnits(c: char): (n: nat)
    ensures n == 1 || n == 2
    ensures n == 1 <==> c as int <= 0xFFFF
  {
    if c as int > 0xFFFF then 2 else 1
  }

  /** `s.length` in JavaScript, which counts UTF-16 code units. */
  function Utf16Length(s: string): (n: nat)
    ensures |s| <= n <= 2 * |s|
  {
    if s == [] then 0 else Utf16Length(s[..|s| - 1]) + CodeUnits(s[|s| - 1])
  }

  /** What the pattern puts in place of one character: the character itself
      when it is kept, otherwise one underscore per code unit. */
  function Replacement(c: char): (r: string)
    ensures |r| == CodeUnits(c)
    ensures KeptInFileName(c) ==> r == [c]
    ensures !KeptInFileName(c) ==> forall i :: 0 <= i < |r| ==> r[i] == '_'
  {
    if KeptInFileName(c) then [c] else if c as int > 0xFFFF then "__" else "_"
  }

  /** `name.replace(/[^a-z0-9]/gi, "_")`. The pattern has no `u` flag, so it
      matches UTF-16 code units, and a character outside the Basic Multilingual
      Plane (two code units) becomes two underscores. */
  function Underscored(name: string): (r: string)
    ensures |r| == Utf16Length(name)
    ensures forall i :: 0 <= i < |r| ==> KeptInFileName(r[i]) || r[i] == '_'
  {
    if name == [] then [] else Underscored(name[..|name| - 1]) + Replacement(name[|name| - 1])
  }

  /** Replacing in a concatenation is replacing in each part. */
  lemma {:induction false} UnderscoredAppend(a: string, b: string)
    ensures Underscored(a + b) == Underscored(a) + Underscored(b)
    decreases |b|
  {
    if b != [] {
      var init := b[..|b| - 1];
      assert (a + b)[..|a + b| - 1] == a + init;
      assert (a + b)[|a + b| - 1] == b[|b| - 1];
      UnderscoredAppend(a, init);
    } else {
      assert a + b == a;
    }
  }

  /** On a name made of Basic Multilingual Plane characters the replacement
      goes character by character: a kept character stays, any other becomes
      one underscore. */
  lemma {:induction false} UnderscoredBmp(name: string)
    requires forall i :: 0 <= i < |name| ==> name[i] as int <= 0xFFFF
    ensures Utf16Length(name) == |name|
    ensures forall i :: 0 <= i < |name| ==> Underscored(name)[i] == (if KeptInFileName(name[i]) then name[i] else '_')
    decreases |name|
  {
    if name != [] {
      var init := name[..|name| - 1];
      assert forall i :: 0 <= i < |init| ==> init[i] == name[i];
      UnderscoredBmp(init);
    }
  }

  /** An emoji such as U+1F4A1 is two code units, so it becomes two underscores. */
  lemma UnderscoredAstral()
    ensures Underscored("\U{1F4A1}") == "__"
    ensures Utf16Length("\U{1F4A1}") == 2
  {
    assert "\U{1F4A1}"[..0] == [];
  }

  /** `name.replace(/[^a-z0-9]/gi, "_").toLowerCase()`: letters are lowered,
      digits kept, and everything else becomes underscores, one per code unit. */
  function FileStem(name: string): (r: string)
    ensures |r| == Utf16Length(name)
    ensures forall i :: 0 <= i < |r| ==> FileNameChar(r[i])
  {
    ToLower(Underscored(name))
  }

  /** The download name of one exported bill. */
  function ExportFileName(name: string): (r: string)
    ensures |r| == Utf16Length(name) + 5
    ensures r[Utf16Length(name)..] == ".json"
    ensures r[..Utf16Length(name)] == FileStem(name)
  {
    FileStem(name) + ".json"
  }

  predicate FileNameChar(c: char) { 'a' <= c <= 'z' || '0' <= c <= '9' || c == '_' }

  /** On a name of Basic Multilingual Plane characters the stem has one
      character per character of the name: the lowered letter or the digit,
      or an underscore. */
  lemma FileStemSpec(name: string)
    ensures (forall i :: 0 <= i < |name| ==> name[i] as int <= 0xFFFF) ==>
              |FileStem(name)| == |name|
              && forall i :: 0 <= i < |name| ==>
                   FileStem(name)[i] == (if KeptInFileName(name[i]) then LowerChar(name[i]) else '_')
  {
    if forall i :: 0 <= i < |name| ==> name[i] as int <= 0xFFFF {
      UnderscoredBmp(name);
    }
  }

  /** Taking the stem of a stem changes nothing. */
  lemma FileStemIdempotent(name: string)
    ensures FileStem(FileStem(name)) == FileStem(name)
  {
    var r := FileStem(name);
    UnderscoredBmp(r);
    forall i | 0 <= i < |r| ensures FileStem(r)[i] == r[i] {
    }
  }
}
