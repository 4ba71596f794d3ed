/** The application component of src/App.tsx: the aggregation of saved bills
    into one averaged calculation, the appliance-list and saved-bill updates,
    and the rule that picks which calculation is shown. */
module App {
  import opened Types
  import opened Grouping
  import opened Lists
  import opened Calculations
  import Storage
  import ChatBot

  // ---------------------------------------------------------------------
  // Aggregation of saved bills (calculateAggregatedBillData)

  /** The merge key of an appliance entry, `${name}-${wattage}`, as a pair. */
  function UsageKey(u: ApplianceUsage): (string, real) {
    (u.appliance.name, u.appliance.wattage)
  }

  /** Every appliance entry of every bill, in the order the nested `forEach` visits them. */
  function AllUsages(bills: seq<SavedBill>): seq<ApplianceUsage>
    decreases |bills|
  {
    if bills == [] then []
    else AllUsages(bills[..|bills| - 1]) + bills[|bills| - 1].calculation.applianceBreakdown
  }

  /** Every category entry of every bill, in visiting order. */
  function AllCategoryUsages(bills: seq<SavedBill>): seq<CategoryUsage>
    decreases |bills|
  {
    if bills == [] then []
    else AllCategoryUsages(bills[..|bills| - 1]) + bills[|bills| - 1].calculation.categoryBreakdown
  }

  /** The aggregation divides by the averaged and by the summed monthly bill as
      soon as there is an entry to average; both are then non-zero. */
  predicate Averageable(bills: seq<SavedBill>) {
    AllUsages(bills) != [] || AllCategoryUsages(bills) != [] ==> Total(bills, BillMonthly) != 0.0
  }

  /** The averaged entry of the appliances with key `k`: the first such entry
      with cost and energy averaged over the number of merged entries, and its
      cost as a percentage of the averaged monthly bill. */
  function MergedUsage(items: seq<ApplianceUsage>, k: (string, real), avgMonthly: real): ApplianceUsage
    requires k in Keys(items, UsageKey)
    requires avgMonthly != 0.0
  {
    var cost := KeyMean(items, UsageKey, k, UsageCost);
    First(items, UsageKey, k).(monthlyCost := cost,
                               monthlyKwh := KeyMean(items, UsageKey, k, UsageKwh),
                               percentage := cost / avgMonthly * 100.0)
  }

  function MergedUsages(ks: seq<(string, real)>, items: seq<ApplianceUsage>, avgMonthly: real): (r: seq<ApplianceUsage>)
    requires forall k :: k in ks ==> k in Keys(items, UsageKey)
    requires ks != [] ==> avgMonthly != 0.0
    ensures |r| == |ks|
    decreases |ks|
  {
    if ks == [] then []
    else
      assert forall k :: k in ks[..|ks| - 1] ==> k in ks;
      MergedUsages(ks[..|ks| - 1], items, avgMonthly) + [MergedUsage(items, ks[|ks| - 1], avgMonthly)]
  }

  /** The averaged entry of category `c`: the first such entry with its cost
      averaged over the entries merged, as a percentage of the summed monthly
      bill; its energy and color stay those of the first entry. */
  function MergedCategory(items: seq<CategoryUsage>, c: string, totalMonthly: real): CategoryUsage
    requires c in Keys(items, CategoryName)
    requires totalMonthly != 0.0
  {
    var cost := KeyMean(items, CategoryName, c, CategoryCost);
    First(items, CategoryName, c).(monthlyCost := cost, percentage := cost / totalMonthly * 100.0)
  }

  function MergedCategories(cs: seq<string>, items: seq<CategoryUsage>, totalMonthly: real): (r: seq<CategoryUsage>)
    requires forall c :: c in cs ==> c in Keys(items, CategoryName)
    requires cs != [] ==> totalMonthly != 0.0
    ensures |r| == |cs|
    decreases |cs|
  {
    if cs == [] then []
    else
      assert forall c :: c in cs[..|cs| - 1] ==> c in cs;
      MergedCategories(cs[..|cs| - 1], items, totalMonthly) + [MergedCategory(items, cs[|cs| - 1], totalMonthly)]
  }

  /** A list with keys is not empty. */
  lemma KeysOfNothing<T, K>(items: seq<T>, key: T -> K)
    ensures items == [] ==> Keys(items, key) == []
  {
  }

  /** A non-zero total has a non-zero mean. */
  lemma MeanNonZero<T>(items: seq<T>, val: T -> real)
    requires |items| > 0
    ensures Total(items, val) != 0.0 ==> Mean(items, val) != 0.0
  {
    MeanSpec(items, val);
  }

  /** calculateAggregatedBillData as a value. */
  function Aggregate(bills: seq<SavedBill>): BillCalculation
    requires Averageable(bills)
  {
    if bills == [] then BillCalculation(0.0, 0.0, 0.0, 0.0, [], [])
    else
      var items := AllUsages(bills);
      var cats := AllCategoryUsages(bills);
      KeysOfNothing(items, UsageKey);
      KeysOfNothing(cats, CategoryName);
      MeanNonZero(bills, BillMonthly);
      var avgKwh := Mean(bills, BillKwh);
      BillCalculation(avgKwh, Mean(bills, BillMonthly), Mean(bills, BillYearly), avgKwh / 30.0,
                      MergedUsages(Keys(items, UsageKey), items, Mean(bills, BillMonthly)),
                      MergedCategories(Keys(cats, CategoryName), cats, Total(bills, BillMonthly)))
  }

  // The loops of calculateAggregatedBillData. A `Map` entry is the first entry
  // seen for its key, whose cost and energy hold running sums, and a count.

  /** `existing.monthlyCost += item.monthlyCost; existing.monthlyKwh += item.monthlyKwh; existing.count += 1`. */
  function AbsorbUsage(e: (ApplianceUsage, nat), item: ApplianceUsage): (ApplianceUsage, nat) {
    (e.0.(monthlyCost := e.0.monthlyCost + item.monthlyCost, monthlyKwh := e.0.monthlyKwh + item.monthlyKwh), e.1 + 1)
  }

  /** `existing.monthlyCost += item.monthlyCost; existing.count += 1`. */
  function AbsorbCategory(e: (CategoryUsage, nat), item: CategoryUsage): (CategoryUsage, nat) {
    (e.0.(monthlyCost := e.0.monthlyCost + item.monthlyCost), e.1 + 1)
  }

  /** The appliance map after the entries `items`: keys in insertion order,
      each mapped to its first entry with summed cost and energy, and its count. */
  ghost predicate UsagesMerged(order: seq<(string, real)>, acc: map<(string, real), (ApplianceUsage, nat)>, items: seq<ApplianceUsage>) {
    && order == Keys(items, UsageKey)
    && (forall k :: k in acc <==> k in order)
    && (forall k :: k in acc ==>
         acc[k] == (First(items, UsageKey, k).(monthlyCost := KeySum(items, UsageKey, k, UsageCost),
                                               monthlyKwh := KeySum(items, UsageKey, k, UsageKwh)),
                    KeyCount(items, UsageKey, k)))
  }

  /** The category map after the entries `items`. */
  ghost predicate CategoriesMerged(order: seq<string>, acc: map<string, (CategoryUsage, nat)>, items: seq<CategoryUsage>) {
    && order == Keys(items, CategoryName)
    && (forall c :: c in acc <==> c in order)
    && (forall c :: c in acc ==>
         acc[c] == (First(items, CategoryName, c).(monthlyCost := KeySum(items, CategoryName, c, CategoryCost)),
                    KeyCount(items, CategoryName, c)))
  }

  /** Absorbing an entry whose key the map holds keeps `UsagesMerged`. */
  lemma UsageAbsorbStep(order: seq<(string, real)>, acc: map<(string, real), (ApplianceUsage, nat)>, items: seq<ApplianceUsage>, item: ApplianceUsage)
    requires UsagesMerged(order, acc, items) && UsageKey(item) in acc
    ensures UsagesMerged(order, acc[UsageKey(item) := AbsorbUsage(acc[UsageKey(item)], item)], items + [item])
  {
    KeysSnoc(items, UsageKey, item);
    forall k | k in acc
      ensures acc[UsageKey(item) := AbsorbUsage(acc[UsageKey(item)], item)][k]
           == (First(items + [item], UsageKey, k).(monthlyCost := KeySum(items + [item], UsageKey, k, UsageCost),
                                                   monthlyKwh := KeySum(items + [item], UsageKey, k, UsageKwh)),
               KeyCount(items + [item], UsageKey, k))
    {
      FirstSnoc(items, UsageKey, k, item);
      KeySumSnoc(items, UsageKey, k, UsageCost, item);
      KeySumSnoc(items, UsageKey, k, UsageKwh, item);
      KeyCountSnoc(items, UsageKey, k, item);
    }
  }

  /** Inserting an entry whose key the map lacks keeps `UsagesMerged`. */
  lemma UsageInsertStep(order: seq<(string, real)>, acc: map<(string, real), (ApplianceUsage, nat)>, items: seq<ApplianceUsage>, item: ApplianceUsage)
    requires UsagesMerged(order, acc, items) && UsageKey(item) !in acc
    ensures UsagesMerged(order + [UsageKey(item)], acc[UsageKey(item) := (item, 1)], items + [item])
  {
    KeysSnoc(items, UsageKey, item);
    AbsentKey(items, UsageKey, UsageKey(item), UsageCost);
    AbsentKey(items, UsageKey, UsageKey(item), UsageKwh);
    forall k | k in acc || k == UsageKey(item)
      ensures acc[UsageKey(item) := (item, 1)][k]
           == (First(items + [item], UsageKey, k).(monthlyCost := KeySum(items + [item], UsageKey, k, UsageCost),
                                                   monthlyKwh := KeySum(items + [item], UsageKey, k, UsageKwh)),
               KeyCount(items + [item], UsageKey, k))
    {
      FirstSnoc(items, UsageKey, k, item);
      KeySumSnoc(items, UsageKey, k, UsageCost, item);
      KeySumSnoc(items, UsageKey, k, UsageKwh, item);
      KeyCountSnoc(items, UsageKey, k, item);
    }
  }

  /** Absorbing an entry whose category the map holds keeps `CategoriesMerged`. */
  lemma CategoryAbsorbStep(order: seq<string>, acc: map<string, (CategoryUsage, nat)>, items: seq<CategoryUsage>, item: CategoryUsage)
    requires CategoriesMerged(order, acc, items) && item.category in acc
    ensures CategoriesMerged(order, acc[item.category := AbsorbCategory(acc[item.category], item)], items + [item])
  {
    KeysSnoc(items, CategoryName, item);
    forall c | c in acc
      ensures acc[item.category := AbsorbCategory(acc[item.category], item)][c]
           == (First(items + [item], CategoryName, c).(monthlyCost := KeySum(items + [item], CategoryName, c, CategoryCost)),
               KeyCount(items + [item], CategoryName, c))
    {
      FirstSnoc(items, CategoryName, c, item);
      KeySumSnoc(items, CategoryName, c, CategoryCost, item);
      KeyCountSnoc(items, CategoryName, c, item);
    }
  }

  /** Inserting an entry whose category the map lacks keeps `CategoriesMerged`. */
  lemma CategoryInsertStep(order: seq<string>, acc: map<string, (CategoryUsage, nat)>, items: seq<CategoryUsage>, item: CategoryUsage)
    requires CategoriesMerged(order, acc, items) && item.category !in acc
    ensures CategoriesMerged(order + [item.category], acc[item.category := (item, 1)], items + [item])
  {
    KeysSnoc(items, CategoryName, item);
    AbsentKey(items, CategoryName, item.category, CategoryCost);
    forall c | c in acc || c == item.category
      ensures acc[item.category := (item, 1)][c]
           == (First(items + [item], CategoryName, c).(monthlyCost := KeySum(items + [item], CategoryName, c, CategoryCost)),
               KeyCount(items + [item], CategoryName, c))
    {
      FirstSnoc(items, CategoryName, c, item);
      KeySumSnoc(items, CategoryName, c, CategoryCost, item);
      KeyCountSnoc(items, CategoryName, c, item);
    }
  }

  /** The visiting order of the first `b + 1` bills extends that of the first `b`. */
  lemma AllUsagesExtend(bills: seq<SavedBill>, b: nat)
    requires b < |bills|
    ensures AllUsages(bills[..b + 1]) == AllUsages(bills[..b]) + bills[b].calculation.applianceBreakdown
    ensures AllCategoryUsages(bills[..b + 1]) == AllCategoryUsages(bills[..b]) + bills[b].calculation.categoryBreakdown
  {
    assert bills[..b + 1][..b] == bills[..b];
  }

  /** The nested `forEach` that fills `applianceMap`. */
  method MergeApplianceEntries(bills: seq<SavedBill>) returns (order: seq<(string, real)>, acc: map<(string, real), (ApplianceUsage, nat)>)
    ensures UsagesMerged(order, acc, AllUsages(bills))
  {
    order := [];
    acc := map[];
    var b := 0;
    while b < |bills|
      invariant 0 <= b <= |bills|
      invariant UsagesMerged(order, acc, AllUsages(bills[..b]))
    {
      order, acc := MergeBillUsages(order, acc, AllUsages(bills[..b]), bills[b].calculation.applianceBreakdown);
      AllUsagesExtend(bills, b);
      b := b + 1;
    }
    assert bills[..b] == bills;
  }

  /** The inner `forEach` over one bill's appliance breakdown. */
  method MergeBillUsages(order0: seq<(string, real)>, acc0: map<(string, real), (ApplianceUsage, nat)>,
                         ghost seen: seq<ApplianceUsage>, breakdown: seq<ApplianceUsage>)
    returns (order: seq<(string, real)>, acc: map<(string, real), (ApplianceUsage, nat)>)
    requires UsagesMerged(order0, acc0, seen)
    ensures UsagesMerged(order, acc, seen + breakdown)
  {
    order, acc := order0, acc0;
    var j := 0;
    assert seen + breakdown[..j] == seen;
    while j < |breakdown|
      invariant 0 <= j <= |breakdown|
      invariant UsagesMerged(order, acc, seen + breakdown[..j])
    {
      var item := breakdown[j];
      var key := UsageKey(item);
      ghost var items := seen + breakdown[..j];
      if key in acc {
        UsageAbsorbStep(order, acc, items, item);
        acc := acc[key := AbsorbUsage(acc[key], item)];
      } else {
        UsageInsertStep(order, acc, items, item);
        acc := acc[key := (item, 1)];
        order := order + [key];
      }
      AppendPrefixStep(seen, breakdown, j);
      j := j + 1;
    }
    assert breakdown[..j] == breakdown;
  }

  /** The nested `forEach` that fills `categoryMap`. */
  method MergeCategoryEntries(bills: seq<SavedBill>) returns (order: seq<string>, acc: map<string, (CategoryUsage, nat)>)
    ensures CategoriesMerged(order, acc, AllCategoryUsages(bills))
  {
    order := [];
    acc := map[];
    var b := 0;
    while b < |bills|
      invariant 0 <= b <= |bills|
      invariant CategoriesMerged(order, acc, AllCategoryUsages(bills[..b]))
    {
      order, acc := MergeBillCategories(order, acc, AllCategoryUsages(bills[..b]), bills[b].calculation.categoryBreakdown);
      AllUsagesExtend(bills, b);
      b := b + 1;
    }
    assert bills[..b] == bills;
  }

  /** The inner `forEach` over one bill's category breakdown. */
  method MergeBillCategories(order0: seq<string>, acc0: map<string, (CategoryUsage, nat)>,
                             ghost seen: seq<CategoryUsage>, breakdown: seq<CategoryUsage>)
    returns (order: seq<string>, acc: map<string, (CategoryUsage, nat)>)
    requires CategoriesMerged(order0, acc0, seen)
    ensures CategoriesMerged(order, acc, seen + breakdown)
  {
    order, acc := order0, acc0;
    var j := 0;
    assert seen + breakdown[..j] == seen;
    while j < |breakdown|
      invariant 0 <= j <= |breakdown|
      invariant CategoriesMerged(order, acc, seen + breakdown[..j])
    {
      var item := breakdown[j];
      ghost var items := seen + breakdown[..j];
      if item.category in acc {
        CategoryAbsorbStep(order, acc, items, item);
        acc := acc[item.category := AbsorbCategory(acc[item.category], item)];
      } else {
        CategoryInsertStep(order, acc, items, item);
        acc := acc[item.category := (item, 1)];
        order := order + [item.category];
      }
      AppendPrefixStep(seen, breakdown, j);
      j := j + 1;
    }
    assert breakdown[..j] == breakdown;
  }

  /** `Array.from(applianceMap.values()).map(...)`: each entry's sums divided
      by its count, and the averaged cost as a percentage of `avgMonthly`. */
  function AveragedUsages(order: seq<(string, real)>, acc: map<(string, real), (ApplianceUsage, nat)>, avgMonthly: real): (r: seq<ApplianceUsage>)
    requires forall k :: k in order ==> k in acc && acc[k].1 > 0
    requires order != [] ==> avgMonthly != 0.0
    ensures |r| == |order|
    decreases |order|
  {
    if order == [] then []
    else
      assert forall k :: k in order[..|order| - 1] ==> k in order;
      var e := acc[order[|order| - 1]];
      var n := e.1 as real;
      AveragedUsages(order[..|order| - 1], acc, avgMonthly)
        + [e.0.(monthlyCost := e.0.monthlyCost / n, monthlyKwh := e.0.monthlyKwh / n,
                percentage := e.0.monthlyCost / n / avgMonthly * 100.0)]
  }

  /** `Array.from(categoryMap.values()).map(...)`: each entry's cost divided by
      its count, as a percentage of `totalMonthly`. */
  function AveragedCategories(order: seq<string>, acc: map<string, (CategoryUsage, nat)>, totalMonthly: real): (r: seq<CategoryUsage>)
    requires forall c :: c in order ==> c in acc && acc[c].1 > 0
    requires order != [] ==> totalMonthly != 0.0
    ensures |r| == |order|
    decreases |order|
  {
    if order == [] then []
    else
      assert forall c :: c in order[..|order| - 1] ==> c in order;
      var e := acc[order[|order| - 1]];
      var n := e.1 as real;
      AveragedCategories(order[..|order| - 1], acc, totalMonthly)
        + [e.0.(monthlyCost := e.0.monthlyCost / n, percentage := e.0.monthlyCost / n / totalMonthly * 100.0)]
  }

  /** Every key of the merged map has a positive count. */
  lemma UsageCounts(order: seq<(string, real)>, acc: map<(string, real), (ApplianceUsage, nat)>, items: seq<ApplianceUsage>)
    requires UsagesMerged(order, acc, items)
    ensures forall k :: k in order ==> k in acc && acc[k].1 > 0
  {
    forall k | k in order ensures acc[k].1 > 0 {
      AbsentKey(items, UsageKey, k, UsageCost);
    }
  }

  lemma CategoryCounts(order: seq<string>, acc: map<string, (CategoryUsage, nat)>, items: seq<CategoryUsage>)
    requires CategoriesMerged(order, acc, items)
    ensures forall c :: c in order ==> c in acc && acc[c].1 > 0
  {
    forall c | c in order ensures acc[c].1 > 0 {
      AbsentKey(items, CategoryName, c, CategoryCost);
    }
  }

  /** Averaging the merged map gives the merged entries of its keys. */
  lemma {:induction false} AveragedAreMerged(ks: seq<(string, real)>, order: seq<(string, real)>, acc: map<(string, real), (ApplianceUsage, nat)>,
                                             items: seq<ApplianceUsage>, avgMonthly: real)
    requires UsagesMerged(order, acc, items)
    requires forall k :: k in ks ==> k in order
    requires ks != [] ==> avgMonthly != 0.0
    ensures forall k :: k in ks ==> k in acc && acc[k].1 > 0
    ensures AveragedUsages(ks, acc, avgMonthly) == MergedUsages(ks, items, avgMonthly)
    decreases |ks|
  {
    UsageCounts(order, acc, items);
    if ks != [] {
      assert forall k :: k in ks[..|ks| - 1] ==> k in ks;
      AveragedAreMerged(ks[..|ks| - 1], order, acc, items, avgMonthly);
      AbsentKey(items, UsageKey, ks[|ks| - 1], UsageCost);
    }
  }

  lemma {:induction false} AveragedCategoriesAreMerged(cs: seq<string>, order: seq<string>, acc: map<string, (CategoryUsage, nat)>,
                                                       items: seq<CategoryUsage>, totalMonthly: real)
    requires CategoriesMerged(order, acc, items)
    requires forall c :: c in cs ==> c in order
    requires cs != [] ==> totalMonthly != 0.0
    ensures forall c :: c in cs ==> c in acc && acc[c].1 > 0
    ensures AveragedCategories(cs, acc, totalMonthly) == MergedCategories(cs, items, totalMonthly)
    decreases |cs|
  {
    CategoryCounts(order, acc, items);
    if cs != [] {
      assert forall c :: c in cs[..|cs| - 1] ==> c in cs;
      AveragedCategoriesAreMerged(cs[..|cs| - 1], order, acc, items, totalMonthly);
      AbsentKey(items, CategoryName, cs[|cs| - 1], CategoryCost);
    }
  }

  /** calculateAggregatedBillData: the three sums, their means, the two merge
      loops and the averaging passes. */
  method CalculateAggregatedBillData(bills: seq<SavedBill>) returns (r: BillCalculation)
    requires Averageable(bills)
    ensures r == Aggregate(bills)
  {
    if |bills| == 0 {
      return BillCalculation(0.0, 0.0, 0.0, 0.0, [], []);
    }
    var totalMonthlyBill := Total(bills, BillMonthly);
    var totalYearlyBill := Total(bills, BillYearly);
    var totalKwh := Total(bills, BillKwh);
    var avgMonthlyBill := totalMonthlyBill / |bills| as real;
    var avgYearlyBill := totalYearlyBill / |bills| as real;
    var avgKwh := totalKwh / |bills| as real;
    var avgDailyAverage := avgKwh / 30.0;

    var applianceOrder, applianceMap := MergeApplianceEntries(bills);
    KeysOfNothing(AllUsages(bills), UsageKey);
    MeanNonZero(bills, BillMonthly);
    AveragedAreMerged(applianceOrder, applianceOrder, applianceMap, AllUsages(bills), avgMonthlyBill);
    var applianceBreakdown := AveragedUsages(applianceOrder, applianceMap, avgMonthlyBill);

    var categoryOrder, categoryMap := MergeCategoryEntries(bills);
    KeysOfNothing(AllCategoryUsages(bills), CategoryName);
    AveragedCategoriesAreMerged(categoryOrder, categoryOrder, categoryMap, AllCategoryUsages(bills), totalMonthlyBill);
    var categoryBreakdown := AveragedCategories(categoryOrder, categoryMap, totalMonthlyBill);

    r := BillCalculation(avgKwh, avgMonthlyBill, avgYearlyBill, avgDailyAverage, applianceBreakdown, categoryBreakdown);
  }

  // ---------------------------------------------------------------------
  // Properties of the aggregation

  /** No saved bills aggregate to zeros and empty breakdowns. */
  lemma AggregateOfNoBills()
    ensures Aggregate([]) == BillCalculation(0.0, 0.0, 0.0, 0.0, [], [])
  {
  }

  /** The aggregate's totals are the means of the bills' totals. */
  lemma AggregateFields(bills: seq<SavedBill>)
    requires Averageable(bills) && |bills| > 0
    ensures Aggregate(bills).monthlyBill == Mean(bills, BillMonthly)
    ensures Aggregate(bills).yearlyBill == Mean(bills, BillYearly)
    ensures Aggregate(bills).totalKwh == Mean(bills, BillKwh)
    ensures Aggregate(bills).dailyAverage == Aggregate(bills).totalKwh / 30.0
  {
  }

  /** Each merged entry carries its key and the appliance of the first entry
      with that key, the mean cost and energy of the entries with that key, and
      its cost as a percentage of `avgMonthly`. */
  lemma {:induction false} MergedUsagesSpec(ks: seq<(string, real)>, items: seq<ApplianceUsage>, avgMonthly: real)
    requires forall k :: k in ks ==> k in Keys(items, UsageKey)
    requires ks != [] ==> avgMonthly != 0.0
    ensures forall i :: 0 <= i < |ks| ==>
              var e := MergedUsages(ks, items, avgMonthly)[i];
              && UsageKey(e) == ks[i]
              && e.appliance == First(items, UsageKey, ks[i]).appliance
              && e.monthlyCost == KeyMean(items, UsageKey, ks[i], UsageCost)
              && e.monthlyKwh == KeyMean(items, UsageKey, ks[i], UsageKwh)
              && e.percentage == e.monthlyCost / avgMonthly * 100.0
    decreases |ks|
  {
    if ks != [] {
      assert forall k :: k in ks[..|ks| - 1] ==> k in ks;
      MergedUsagesSpec(ks[..|ks| - 1], items, avgMonthly);
    }
  }

  /** Each merged category carries its name, the energy and color of its first
      entry, the mean cost of its entries and that cost as a percentage of
      `totalMonthly`. */
  lemma {:induction false} MergedCategoriesSpec(cs: seq<string>, items: seq<CategoryUsage>, totalMonthly: real)
    requires forall c :: c in cs ==> c in Keys(items, CategoryName)
    requires cs != [] ==> totalMonthly != 0.0
    ensures forall i :: 0 <= i < |cs| ==>
              var e := MergedCategories(cs, items, totalMonthly)[i];
              && e.category == cs[i]
              && e.monthlyKwh == First(items, CategoryName, cs[i]).monthlyKwh
              && e.color == First(items, CategoryName, cs[i]).color
              && e.monthlyCost == KeyMean(items, CategoryName, cs[i], CategoryCost)
              && e.percentage == e.monthlyCost / totalMonthly * 100.0
    decreases |cs|
  {
    if cs != [] {
      assert forall c :: c in cs[..|cs| - 1] ==> c in cs;
      MergedCategoriesSpec(cs[..|cs| - 1], items, totalMonthly);
    }
  }

  /** The appliance breakdown of the aggregate has one entry per distinct
      (name, wattage) key of the saved entries, in order of first appearance;
      each keeps the appliance of the first entry with its key, averages cost
      and energy over the number of entries merged (not the number of bills),
      and gives its cost as a percentage of the averaged monthly bill. */
  lemma AggregateApplianceBreakdown(bills: seq<SavedBill>)
    requires Averageable(bills)
    ensures |Aggregate(bills).applianceBreakdown| == |Keys(AllUsages(bills), UsageKey)|
    ensures forall i :: 0 <= i < |Aggregate(bills).applianceBreakdown| ==>
              UsageKey(Aggregate(bills).applianceBreakdown[i]) == Keys(AllUsages(bills), UsageKey)[i]
    ensures |Aggregate(bills).applianceBreakdown| > 0 ==> Aggregate(bills).monthlyBill != 0.0
    ensures forall i :: 0 <= i < |Aggregate(bills).applianceBreakdown| ==>
              var e := Aggregate(bills).applianceBreakdown[i];
              && e.appliance == First(AllUsages(bills), UsageKey, UsageKey(e)).appliance
              && e.monthlyCost == KeyMean(AllUsages(bills), UsageKey, UsageKey(e), UsageCost)
              && e.monthlyKwh == KeyMean(AllUsages(bills), UsageKey, UsageKey(e), UsageKwh)
              && e.percentage == e.monthlyCost / Aggregate(bills).monthlyBill * 100.0
  {
    if bills != [] {
      var items := AllUsages(bills);
      KeysOfNothing(items, UsageKey);
      MeanNonZero(bills, BillMonthly);
      MergedUsagesSpec(Keys(items, UsageKey), items, Mean(bills, BillMonthly));
    }
  }

  /** The category breakdown of the aggregate has one entry per distinct
      category of the saved entries, in order of first appearance; each keeps
      the energy and color of the first entry of its category (energy is not
      summed), averages the cost over the entries merged and gives it as a
      percentage of the summed, not the averaged, monthly bill. */
  lemma AggregateCategoryBreakdown(bills: seq<SavedBill>)
    requires Averageable(bills)
    ensures |Aggregate(bills).categoryBreakdown| == |Keys(AllCategoryUsages(bills), CategoryName)|
    ensures forall i :: 0 <= i < |Aggregate(bills).categoryBreakdown| ==>
              Aggregate(bills).categoryBreakdown[i].category == Keys(AllCategoryUsages(bills), CategoryName)[i]
    ensures |Aggregate(bills).categoryBreakdown| > 0 ==> Total(bills, BillMonthly) != 0.0
    ensures forall i :: 0 <= i < |Aggregate(bills).categoryBreakdown| ==>
              var e := Aggregate(bills).categoryBreakdown[i];
              && e.monthlyKwh == First(AllCategoryUsages(bills), CategoryName, e.category).monthlyKwh
              && e.color == First(AllCategoryUsages(bills), CategoryName, e.category).color
              && e.monthlyCost == KeyMean(AllCategoryUsages(bills), CategoryName, e.category, CategoryCost)
              && e.percentage == e.monthlyCost / Total(bills, BillMonthly) * 100.0
  {
    if bills != [] {
      var items := AllCategoryUsages(bills);
      KeysOfNothing(items, CategoryName);
      MergedCategoriesSpec(Keys(items, CategoryName), items, Total(bills, BillMonthly));
    }
  }

  /** Entry `i` of the aggregate's category breakdown is the merged entry of
      the `i`-th category to appear. */
  lemma AggregateCategoryAt(bills: seq<SavedBill>, i: nat)
    requires Averageable(bills) && i < |Aggregate(bills).categoryBreakdown|
    ensures bills != [] && Total(bills, BillMonthly) != 0.0
    ensures i < |Keys(AllCategoryUsages(bills), CategoryName)|
    ensures Aggregate(bills).categoryBreakdown[i]
         == MergedCategory(AllCategoryUsages(bills), Keys(AllCategoryUsages(bills), CategoryName)[i], Total(bills, BillMonthly))
  {
    assert bills != [];
    KeysOfNothing(AllCategoryUsages(bills), CategoryName);
    MergedCategoriesAt(Keys(AllCategoryUsages(bills), CategoryName), AllCategoryUsages(bills), Total(bills, BillMonthly), i);
  }

  // ---------------------------------------------------------------------
  // One saved bill aggregates to itself

  /** A cost at one rate, as a percentage of the bill at that rate, is the
      energy's share of the total energy. */
  lemma SharePercent(kwh: real, cost: real, t: real, rate: real)
    requires t > 0.0 && rate > 0.0 && cost == kwh * rate
    ensures t * rate > 0.0
    ensures cost / (t * rate) * 100.0 == Percent(kwh, t)
  {
    var q := kwh / t;
    assert q * t == kwh;
    assert q * (t * rate) == cost;
  }

  lemma OneBill(b: SavedBill)
    ensures AllUsages([b]) == b.calculation.applianceBreakdown
    ensures AllCategoryUsages([b]) == b.calculation.categoryBreakdown
    ensures Total([b], BillMonthly) == b.calculation.monthlyBill
    ensures Mean([b], BillMonthly) == b.calculation.monthlyBill
    ensures Mean([b], BillYearly) == b.calculation.yearlyBill
    ensures Mean([b], BillKwh) == b.calculation.totalKwh
  {
    assert [b][..0] == [];
    assert Total([b], BillYearly) == b.calculation.yearlyBill;
    assert Total([b], BillKwh) == b.calculation.totalKwh;
  }

  /** Position `i` of the merged list is the merged entry of the key `ks[i]`. */
  lemma {:induction false} MergedUsagesAt(ks: seq<(string, real)>, items: seq<ApplianceUsage>, avgMonthly: real, i: nat)
    requires forall k :: k in ks ==> k in Keys(items, UsageKey)
    requires ks != [] ==> avgMonthly != 0.0
    requires i < |ks|
    ensures MergedUsages(ks, items, avgMonthly)[i] == MergedUsage(items, ks[i], avgMonthly)
    decreases |ks|
  {
    if i < |ks| - 1 {
      assert forall k :: k in ks[..|ks| - 1] ==> k in ks;
      MergedUsagesAt(ks[..|ks| - 1], items, avgMonthly, i);
    }
  }

  /** Position `i` of the merged category list is the merged entry of `cs[i]`. */
  lemma {:induction false} MergedCategoriesAt(cs: seq<string>, items: seq<CategoryUsage>, totalMonthly: real, i: nat)
    requires forall c :: c in cs ==> c in Keys(items, CategoryName)
    requires cs != [] ==> totalMonthly != 0.0
    requires i < |cs|
    ensures MergedCategories(cs, items, totalMonthly)[i] == MergedCategory(items, cs[i], totalMonthly)
    decreases |cs|
  {
    if i < |cs| - 1 {
      assert forall c :: c in cs[..|cs| - 1] ==> c in cs;
      MergedCategoriesAt(cs[..|cs| - 1], items, totalMonthly, i);
    }
  }

  /** An entry whose key no other entry has, and whose percentage is its cost
      as a percentage of `bill`, merges into itself. */
  lemma UsageSingletonAt(bd: seq<ApplianceUsage>, bill: real, i: nat)
    requires forall i, j :: 0 <= i < j < |bd| ==> UsageKey(bd[i]) != UsageKey(bd[j])
    requires i < |bd| && bill != 0.0
    requires bd[i].percentage == bd[i].monthlyCost / bill * 100.0
    ensures UsageKey(bd[i]) in Keys(bd, UsageKey)
    ensures MergedUsage(bd, UsageKey(bd[i]), bill) == bd[i]
  {
    SingletonAt(bd, UsageKey, UsageCost, i);
    SingletonAt(bd, UsageKey, UsageKwh, i);
  }

  /** The same for a category entry whose name no other entry has. */
  lemma CategorySingletonAt(cb: seq<CategoryUsage>, bill: real, i: nat)
    requires forall i, j :: 0 <= i < j < |cb| ==> cb[i].category != cb[j].category
    requires i < |cb| && bill != 0.0
    requires cb[i].percentage == cb[i].monthlyCost / bill * 100.0
    ensures cb[i].category in Keys(cb, CategoryName)
    ensures MergedCategory(cb, cb[i].category, bill) == cb[i]
  {
    assert CategoryName(cb[i]) == cb[i].category;
    SingletonAt(cb, CategoryName, CategoryCost, i);
  }

  /** Entries with distinct keys whose percentages are their costs as
      percentages of `bill` merge into themselves. */
  lemma MergedSingletons(bd: seq<ApplianceUsage>, bill: real)
    requires forall i, j :: 0 <= i < j < |bd| ==> UsageKey(bd[i]) != UsageKey(bd[j])
    requires bill != 0.0
    requires forall i :: 0 <= i < |bd| ==> bd[i].percentage == bd[i].monthlyCost / bill * 100.0
    ensures MergedUsages(Keys(bd, UsageKey), bd, bill) == bd
  {
    var ks := Keys(bd, UsageKey);
    DistinctKeysAreSingletons(bd, UsageKey, UsageCost);
    KeysSpec(bd, UsageKey);
    forall i | 0 <= i < |bd| ensures MergedUsages(ks, bd, bill)[i] == bd[i] {
      MergedUsagesAt(ks, bd, bill, i);
      UsageSingletonAt(bd, bill, i);
    }
  }

  /** The same for category entries with distinct names. */
  lemma MergedCategorySingletons(cb: seq<CategoryUsage>, bill: real)
    requires forall i, j :: 0 <= i < j < |cb| ==> cb[i].category != cb[j].category
    requires bill != 0.0
    requires forall i :: 0 <= i < |cb| ==> cb[i].percentage == cb[i].monthlyCost / bill * 100.0
    ensures MergedCategories(Keys(cb, CategoryName), cb, bill) == cb
  {
    var cs := Keys(cb, CategoryName);
    DistinctKeysAreSingletons(cb, CategoryName, CategoryCost);
    KeysSpec(cb, CategoryName);
    forall i | 0 <= i < |cb| ensures MergedCategories(cs, cb, bill)[i] == cb[i] {
      MergedCategoriesAt(cs, cb, bill, i);
      CategorySingletonAt(cb, bill, i);
    }
  }

  /** Entries priced at one rate whose percentages are energy shares of `t`
      have percentages that are cost shares of the bill `t * rate`. */
  lemma UsageCostShares(bd: seq<ApplianceUsage>, t: real, rate: real)
    requires AtRate(bd, rate) && rate > 0.0 && t > 0.0
    requires forall i :: 0 <= i < |bd| ==> bd[i].percentage == Percent(bd[i].monthlyKwh, t)
    ensures t * rate > 0.0
    ensures forall i :: 0 <= i < |bd| ==> bd[i].percentage == bd[i].monthlyCost / (t * rate) * 100.0
  {
    SharePercent(0.0, 0.0, t, rate);
    forall i | 0 <= i < |bd| ensures bd[i].percentage == bd[i].monthlyCost / (t * rate) * 100.0 {
      SharePercent(bd[i].monthlyKwh, bd[i].monthlyCost, t, rate);
    }
  }

  /** The same for category entries. */
  lemma CategoryCostShares(cb: seq<CategoryUsage>, t: real, rate: real)
    requires rate > 0.0 && t > 0.0
    requires forall i :: 0 <= i < |cb| ==> cb[i].monthlyCost == cb[i].monthlyKwh * rate
    requires forall i :: 0 <= i < |cb| ==> cb[i].percentage == Percent(cb[i].monthlyKwh, t)
    ensures t * rate > 0.0
    ensures forall i :: 0 <= i < |cb| ==> cb[i].percentage == cb[i].monthlyCost / (t * rate) * 100.0
  {
    SharePercent(0.0, 0.0, t, rate);
    forall i | 0 <= i < |cb| ensures cb[i].percentage == cb[i].monthlyCost / (t * rate) * 100.0 {
      SharePercent(cb[i].monthlyKwh, cb[i].monthlyCost, t, rate);
    }
  }

  /** What a single bill's appliance breakdown satisfies: distinct keys, one
      positive rate, and percentages that are energy shares of a positive
      total. */
  predicate MergeableUsages(bd: seq<ApplianceUsage>, t: real, rate: real) {
    && (forall i, j :: 0 <= i < j < |bd| ==> UsageKey(bd[i]) != UsageKey(bd[j]))
    && AtRate(bd, rate) && rate > 0.0 && t > 0.0
    && (forall i :: 0 <= i < |bd| ==> bd[i].percentage == Percent(bd[i].monthlyKwh, t))
  }

  /** The same for a category breakdown: distinct names, one positive rate,
      and energy-share percentages. */
  predicate MergeableCategories(cb: seq<CategoryUsage>, t: real, rate: real) {
    && (forall i, j :: 0 <= i < j < |cb| ==> cb[i].category != cb[j].category)
    && rate > 0.0 && t > 0.0
    && (forall i :: 0 <= i < |cb| ==> cb[i].monthlyCost == cb[i].monthlyKwh * rate)
    && (forall i :: 0 <= i < |cb| ==> cb[i].percentage == Percent(cb[i].monthlyKwh, t))
  }

  /** Such a breakdown merges into itself against the bill `t * rate`. */
  lemma MergedBreakdown(bd: seq<ApplianceUsage>, t: real, rate: real)
    requires MergeableUsages(bd, t, rate)
    ensures t * rate > 0.0
    ensures MergedUsages(Keys(bd, UsageKey), bd, t * rate) == bd
  {
    UsageCostShares(bd, t, rate);
    MergedSingletons(bd, t * rate);
  }

  /** The same for a category breakdown. */
  lemma MergedCategoryBreakdown(cb: seq<CategoryUsage>, t: real, rate: real)
    requires MergeableCategories(cb, t, rate)
    ensures t * rate > 0.0
    ensures MergedCategories(Keys(cb, CategoryName), cb, t * rate) == cb
  {
    CategoryCostShares(cb, t, rate);
    MergedCategorySingletons(cb, t * rate);
  }

  /** The breakdown keeps the (name, wattage) keys of the entries, so distinct
      keys stay distinct. */
  lemma BreakdownKeysDistinct(raw: seq<ApplianceUsage>)
    requires forall i, j :: 0 <= i < j < |raw| ==> UsageKey(raw[i]) != UsageKey(raw[j])
    ensures forall i, j :: 0 <= i < j < |BillFrom(raw).applianceBreakdown| ==>
      UsageKey(BillFrom(raw).applianceBreakdown[i]) != UsageKey(BillFrom(raw).applianceBreakdown[j])
  {
    BillFromBreakdown(raw);
    forall i, j | 0 <= i < j < |BillFrom(raw).applianceBreakdown|
      ensures UsageKey(BillFrom(raw).applianceBreakdown[i]) != UsageKey(BillFrom(raw).applianceBreakdown[j])
    {
      assert UsageKey(BillFrom(raw).applianceBreakdown[i]) == UsageKey(raw[i]);
      assert UsageKey(BillFrom(raw).applianceBreakdown[j]) == UsageKey(raw[j]);
    }
  }

  /** The category sums of entries priced at one rate are priced at that rate. */
  lemma CategoriesAtRate(raw: seq<ApplianceUsage>, rate: real)
    requires AtRate(raw, rate)
    ensures forall c :: KeySum(raw, UsageCategory, c, UsageCost) == KeySum(raw, UsageCategory, c, UsageKwh) * rate
  {
    forall c ensures KeySum(raw, UsageCategory, c, UsageCost) == KeySum(raw, UsageCategory, c, UsageKwh) * rate {
      KeySumScales(raw, UsageCategory, c, UsageCost, UsageKwh, rate);
    }
  }

  /** The category entries of a bill priced at one rate cost their energy
      times that rate and have distinct names. */
  lemma CategoryBreakdownAtRate(raw: seq<ApplianceUsage>, rate: real)
    requires AtRate(raw, rate)
    ensures forall i :: 0 <= i < |BillFrom(raw).categoryBreakdown| ==>
      BillFrom(raw).categoryBreakdown[i].monthlyCost == BillFrom(raw).categoryBreakdown[i].monthlyKwh * rate
    ensures forall i, j :: 0 <= i < j < |BillFrom(raw).categoryBreakdown| ==>
      BillFrom(raw).categoryBreakdown[i].category != BillFrom(raw).categoryBreakdown[j].category
  {
    CategoryCostsAtRate(raw, rate);
    CategoryNamesDistinct(raw);
  }

  lemma CategoryCostsAtRate(raw: seq<ApplianceUsage>, rate: real)
    requires AtRate(raw, rate)
    ensures forall i :: 0 <= i < |BillFrom(raw).categoryBreakdown| ==>
      BillFrom(raw).categoryBreakdown[i].monthlyCost == BillFrom(raw).categoryBreakdown[i].monthlyKwh * rate
  {
    BillFromCategories(raw);
    CategoriesAtRate(raw, rate);
  }

  lemma CategoryNamesDistinct(raw: seq<ApplianceUsage>)
    ensures forall i, j :: 0 <= i < j < |BillFrom(raw).categoryBreakdown| ==>
      BillFrom(raw).categoryBreakdown[i].category != BillFrom(raw).categoryBreakdown[j].category
  {
    assert Distinct(Keys(raw, UsageCategory)) by {
      KeysSpec(raw, UsageCategory);
    }
    BillFromCategories(raw);
  }

  /** calculateBill's breakdowns of entries priced at one positive rate, with
      distinct (name, wattage) keys and positive total energy, are mergeable. */
  lemma BillIsMergeable(raw: seq<ApplianceUsage>, rate: real)
    requires AtRate(raw, rate) && rate > 0.0
    requires forall i, j :: 0 <= i < j < |raw| ==> UsageKey(raw[i]) != UsageKey(raw[j])
    requires BillFrom(raw).totalKwh > 0.0
    ensures MergeableUsages(BillFrom(raw).applianceBreakdown, BillFrom(raw).totalKwh, rate)
    ensures MergeableCategories(BillFrom(raw).categoryBreakdown, BillFrom(raw).totalKwh, rate)
  {
    BreakdownKeysDistinct(raw);
    BillFromKeepsRate(raw, rate);
    BillFromShares(raw);
    CategoryBreakdownAtRate(raw, rate);
  }

  /** Appliances with distinct (name, wattage) pairs give entries with distinct keys. */
  lemma UsageKeysDistinct(appliances: seq<Appliance>, settings: BillSettings, rate: real)
    requires forall i, j :: 0 <= i < j < |appliances| ==>
      (appliances[i].name, appliances[i].wattage) != (appliances[j].name, appliances[j].wattage)
    ensures forall i, j :: 0 <= i < j < |Usages(appliances, settings, rate)| ==>
      UsageKey(Usages(appliances, settings, rate)[i]) != UsageKey(Usages(appliances, settings, rate)[j])
  {
    UsagesEntries(appliances, settings, rate);
  }

  /** A single saved bill computed by calculateBill from appliances with
      distinct (name, wattage) pairs and positive energy aggregates to exactly
      its own calculation. */
  lemma SingleBillAggregatesToItself(b: SavedBill, appliances: seq<Appliance>, settings: BillSettings)
    requires b.calculation == Bill(appliances, settings)
    requires forall i, j :: 0 <= i < j < |appliances| ==>
      (appliances[i].name, appliances[i].wattage) != (appliances[j].name, appliances[j].wattage)
    requires b.calculation.totalKwh > 0.0
    ensures Averageable([b])
    ensures Aggregate([b]) == b.calculation
  {
    EffectiveRateSpec(settings);
    UsagesAtOneRate(appliances, settings, EffectiveRate(settings));
    UsageKeysDistinct(appliances, settings, EffectiveRate(settings));
    BillIsMergeable(Usages(appliances, settings, EffectiveRate(settings)), EffectiveRate(settings));
    BillFromFlatRate(Usages(appliances, settings, EffectiveRate(settings)), EffectiveRate(settings));
    BillFromTotals(Usages(appliances, settings, EffectiveRate(settings)));
    SingleCalculationAggregates(b, EffectiveRate(settings));
  }

  /** A single saved bill with a positive bill can be averaged. */
  lemma SingleBillAverageable(b: SavedBill)
    requires b.calculation.monthlyBill > 0.0
    ensures Averageable([b])
  {
    OneBill(b);
  }

  /** The aggregate of one bill has that bill's totals. */
  lemma OneBillTotals(b: SavedBill)
    requires b.calculation.dailyAverage == b.calculation.totalKwh / 30.0
    requires Averageable([b])
    ensures Aggregate([b]).totalKwh == b.calculation.totalKwh
    ensures Aggregate([b]).monthlyBill == b.calculation.monthlyBill
    ensures Aggregate([b]).yearlyBill == b.calculation.yearlyBill
    ensures Aggregate([b]).dailyAverage == b.calculation.dailyAverage
  {
    OneBill(b);
  }

  /** The aggregate of one bill with a mergeable appliance breakdown, whose
      bill is its energy times the rate, has that breakdown. */
  lemma OneBillBreakdown(b: SavedBill, rate: real)
    requires MergeableUsages(b.calculation.applianceBreakdown, b.calculation.totalKwh, rate)
    requires b.calculation.monthlyBill == b.calculation.totalKwh * rate
    requires Averageable([b])
    ensures Aggregate([b]).applianceBreakdown == b.calculation.applianceBreakdown
  {
    MergedBreakdown(b.calculation.applianceBreakdown, b.calculation.totalKwh, rate);
    OneBill(b);
  }

  /** The same for a mergeable category breakdown. */
  lemma OneBillCategories(b: SavedBill, rate: real)
    requires MergeableCategories(b.calculation.categoryBreakdown, b.calculation.totalKwh, rate)
    requires b.calculation.monthlyBill == b.calculation.totalKwh * rate
    requires Averageable([b])
    ensures Aggregate([b]).categoryBreakdown == b.calculation.categoryBreakdown
  {
    MergedCategoryBreakdown(b.calculation.categoryBreakdown, b.calculation.totalKwh, rate);
    OneBill(b);
  }

  /** A single saved bill whose breakdowns are mergeable at a rate and whose
      bill is its energy times that rate, with the daily figure a thirtieth
      of the energy, aggregates to itself. */
  lemma SingleCalculationAggregates(b: SavedBill, rate: real)
    requires MergeableUsages(b.calculation.applianceBreakdown, b.calculation.totalKwh, rate)
    requires MergeableCategories(b.calculation.categoryBreakdown, b.calculation.totalKwh, rate)
    requires b.calculation.monthlyBill == b.calculation.totalKwh * rate
    requires b.calculation.dailyAverage == b.calculation.totalKwh / 30.0
    ensures Averageable([b])
    ensures Aggregate([b]) == b.calculation
  {
    PositiveProduct(b.calculation.totalKwh, rate);
    SingleBillAverageable(b);
    OneBillTotals(b);
    OneBillBreakdown(b, rate);
    OneBillCategories(b, rate);
  }

  lemma PositiveProduct(x: real, y: real)
    requires x > 0.0 && y > 0.0
    ensures x * y > 0.0
  {
  }

  // ---------------------------------------------------------------------
  // The appliance list (addAppliance, removeAppliance, updateAppliance)

  /** The list after addAppliance: the appliance, with the fresh id `id`, at the end. */
  function WithAppliance(apps: seq<Appliance>, a: Appliance, id: string): (r: seq<Appliance>)
    ensures |r| == |apps| + 1
    ensures r[..|apps|] == apps
    ensures r[|apps|] == a.(id := id)
  {
    apps + [a.(id := id)]
  }

  /** The filter `a => a.id !== id`. */
  function ApplianceIdIsNot(id: string): Appliance -> bool {
    (a: Appliance) => a.id != id
  }

  /** The list after removeAppliance. */
  function WithoutAppliance(apps: seq<Appliance>, id: string): seq<Appliance> {
    Filter(apps, ApplianceIdIsNot(id))
  }

  /** removeAppliance keeps exactly the entries with another id, keeps their
      order (it distributes over concatenation), and changes nothing when no
      entry has the id. */
  lemma WithoutApplianceSpec(apps: seq<Appliance>, more: seq<Appliance>, id: string)
    ensures forall a :: a in WithoutAppliance(apps, id) <==> a in apps && a.id != id
    ensures WithoutAppliance(apps + more, id) == WithoutAppliance(apps, id) + WithoutAppliance(more, id)
    ensures (forall i :: 0 <= i < |apps| ==> apps[i].id != id) ==> WithoutAppliance(apps, id) == apps
  {
    FilterMembers(apps, ApplianceIdIsNot(id));
    FilterAppend(apps, more, ApplianceIdIsNot(id));
    if forall i :: 0 <= i < |apps| ==> apps[i].id != id {
      FilterKeepsAll(apps, ApplianceIdIsNot(id));
    }
  }

  /** Removing an appliance by the fresh id it was added with gives back the list. */
  lemma AddThenRemove(apps: seq<Appliance>, a: Appliance, id: string)
    requires forall i :: 0 <= i < |apps| ==> apps[i].id != id
    ensures WithoutAppliance(WithAppliance(apps, a, id), id) == apps
  {
    FilterAppend(apps, [a.(id := id)], ApplianceIdIsNot(id));
    FilterKeepsAll(apps, ApplianceIdIsNot(id));
    assert [a.(id := id)][1..] == [];
  }

  /** A `Partial<Appliance>`: the fields to overwrite, None for those to keep. */
  datatype Patch = Patch(
    id: Option<string>,
    name: Option<string>,
    category: Option<string>,
    wattage: Option<real>,
    hoursPerDay: Option<real>,
    daysPerMonth: Option<real>)

  function Or<T>(o: Option<T>, otherwise: T): T {
    if o.Some? then o.value else otherwise
  }

  /** `{ ...a, ...patch }`. */
  function Patched(a: Appliance, p: Patch): Appliance {
    Appliance(Or(p.id, a.id), Or(p.name, a.name), Or(p.category, a.category),
              Or(p.wattage, a.wattage), Or(p.hoursPerDay, a.hoursPerDay), Or(p.daysPerMonth, a.daysPerMonth))
  }

  /** The list after updateAppliance: `prev.map(a => a.id === id ? { ...a, ...patch } : a)`. */
  function UpdatedAppliances(apps: seq<Appliance>, id: string, p: Patch): (r: seq<Appliance>)
    ensures |r| == |apps|
    decreases |apps|
  {
    if apps == [] then []
    else [if apps[0].id == id then Patched(apps[0], p) else apps[0]] + UpdatedAppliances(apps[1..], id, p)
  }

  /** Each entry with the id is patched, every other entry stays as it is. */
  lemma {:induction false} UpdatedAppliancesSpec(apps: seq<Appliance>, id: string, p: Patch)
    ensures forall i :: 0 <= i < |apps| ==>
              UpdatedAppliances(apps, id, p)[i] == if apps[i].id == id then Patched(apps[i], p) else apps[i]
    decreases |apps|
  {
    if apps != [] {
      UpdatedAppliancesSpec(apps[1..], id, p);
    }
  }

  /** A patch overwrites the fields it gives and keeps the others. */
  lemma PatchedFields(a: Appliance, p: Patch)
    ensures p.name.Some? ==> Patched(a, p).name == p.name.value
    ensures p.name.None? ==> Patched(a, p).name == a.name
    ensures p.wattage.Some? ==> Patched(a, p).wattage == p.wattage.value
    ensures p.wattage.None? ==> Patched(a, p).wattage == a.wattage
    ensures p == Patch(None, None, None, None, None, None) ==> Patched(a, p) == a
    ensures Patched(Patched(a, p), p) == Patched(a, p)
  {
  }

  /** Updating twice with the same patch is updating once. */
  lemma UpdateIdempotent(apps: seq<Appliance>, id: string, p: Patch)
    ensures UpdatedAppliances(UpdatedAppliances(apps, id, p), id, p) == UpdatedAppliances(apps, id, p)
  {
    UpdatedAppliancesSpec(apps, id, p);
    UpdatedAppliancesSpec(UpdatedAppliances(apps, id, p), id, p);
    forall i | 0 <= i < |apps| {
      PatchedFields(apps[i], p);
    }
  }

  /** An empty patch, or an id no entry has, leaves the list as it is. */
  lemma UpdateChangesNothing(apps: seq<Appliance>, id: string, p: Patch)
    requires p == Patch(None, None, None, None, None, None) || forall i :: 0 <= i < |apps| ==> apps[i].id != id
    ensures UpdatedAppliances(apps, id, p) == apps
  {
    UpdatedAppliancesSpec(apps, id, p);
  }

  /** A patch that keeps the id does not change which entries removeAppliance
      drops: updating and then removing is removing. */
  lemma {:induction false} UpdateThenRemove(apps: seq<Appliance>, id: string, p: Patch)
    requires p.id.None?
    ensures WithoutAppliance(UpdatedAppliances(apps, id, p), id) == WithoutAppliance(apps, id)
    decreases |apps|
  {
    if apps != [] {
      UpdateThenRemove(apps[1..], id, p);
      assert UpdatedAppliances(apps, id, p)[1..] == UpdatedAppliances(apps[1..], id, p);
    }
  }

  // ---------------------------------------------------------------------
  // The calculation shown (the effect of lines 231-243)

  datatype Tab = InputTab | SettingsTab | ResultsTab | TipsTab | HistoryTab

  /** The aggregate the effect computes on the results tab divides by the bills' total. */
  predicate CanShow(tab: Tab, savedBills: seq<SavedBill>) {
    tab == ResultsTab && savedBills != [] ==> Averageable(savedBills)
  }

  /** The calculation the effect selects: the aggregate of the saved bills on
      the results tab, otherwise the current bill when there are appliances. */
  function ShownCalculation(tab: Tab, savedBills: seq<SavedBill>, appliances: seq<Appliance>, settings: BillSettings): Option<BillCalculation>
    requires CanShow(tab, savedBills)
  {
    if tab == ResultsTab && savedBills != [] then Some(Aggregate(savedBills))
    else if appliances != [] then Some(Bill(appliances, settings))
    else None
  }

  /** Off the results tab, or without saved bills, the saved bills do not
      matter; on the results tab with saved bills, the appliances and
      settings do not. Nothing is shown exactly when neither source has data. */
  lemma ShownCalculationSources(tab: Tab, bills: seq<SavedBill>, bills': seq<SavedBill>,
                                apps: seq<Appliance>, apps': seq<Appliance>, s: BillSettings, s': BillSettings)
    requires CanShow(tab, bills) && CanShow(tab, bills')
    ensures tab != ResultsTab ==> ShownCalculation(tab, bills, apps, s) == ShownCalculation(tab, bills', apps, s)
    ensures tab == ResultsTab && bills != [] && bills' == bills ==>
              ShownCalculation(tab, bills, apps, s) == ShownCalculation(tab, bills', apps', s')
    ensures ShownCalculation(tab, bills, apps, s).None? <==> apps == [] && (tab != ResultsTab || bills == [])
  {
  }

  /** A saved bill that is the only one: the results tab shows exactly the
      calculation the input tab shows for its appliances and settings. */
  lemma ResultsShowTheOnlySavedBill(b: SavedBill, apps: seq<Appliance>, s: BillSettings)
    requires b.calculation == Bill(b.appliances, b.settings)
    requires forall i, j :: 0 <= i < j < |b.appliances| ==>
               (b.appliances[i].name, b.appliances[i].wattage) != (b.appliances[j].name, b.appliances[j].wattage)
    requires b.calculation.totalKwh > 0.0
    ensures CanShow(ResultsTab, [b])
    ensures ShownCalculation(ResultsTab, [b], apps, s) == ShownCalculation(InputTab, [b], b.appliances, b.settings)
    ensures ShownCalculation(ResultsTab, [b], apps, s) == Some(b.calculation)
  {
    SingleBillAggregatesToItself(b, b.appliances, b.settings);
    if b.appliances == [] {
      EmptyBillIsZero(b.settings);
    }
  }

  // ---------------------------------------------------------------------
  // Saving a bill

  /** The name of a saved bill: the name typed in, or "Bill " and the date. */
  function BillName(currentBillName: string, dateLabel: string): (name: string)
    ensures |name| > 0
    ensures currentBillName != "" ==> name == currentBillName
    ensures currentBillName == "" ==> name == "Bill " + dateLabel
  {
    if currentBillName != "" then currentBillName else "Bill " + dateLabel
  }

  /** The bill handleSaveBill builds, created and updated at `now`. */
  function NewBill(id: string, currentBillName: string, dateLabel: string, month: string, year: int,
                   appliances: seq<Appliance>, settings: BillSettings, calculation: BillCalculation, now: int): SavedBill
  {
    SavedBill(id, BillName(currentBillName, dateLabel), month, year, appliances, settings, calculation, now, now)
  }

  // ---------------------------------------------------------------------
  // The chatbot's prediction (lines 648-650)

  /** The prediction passed to the chatbot: "high" above $1500 a month,
      "medium" otherwise, with a quarter of the bill as possible savings. */
  function PredictionFor(billData: BillCalculation): (p: ChatBot.Prediction)
    ensures p.usageLevel.Some? && p.currentMonth.Some? && p.potentialSavings.Some?
    ensures p.usageLevel.value == "high" <==> billData.monthlyBill > 1500.0
    ensures p.usageLevel.value == "high" || p.usageLevel.value == "medium"
    ensures p.currentMonth.value == billData.monthlyBill
    ensures p.potentialSavings.value * 4.0 == billData.monthlyBill
  {
    ChatBot.Prediction(Some(if billData.monthlyBill > 1500.0 then "high" else "medium"),
                       Some(billData.monthlyBill), Some(billData.monthlyBill * 0.25))
  }

  // ---------------------------------------------------------------------
  // The component's state

  /** The component's state variables at one moment. */
  datatype Snapshot = Snapshot(
    user: Option<User>,
    appliances: seq<Appliance>,
    billData: Option<BillCalculation>,
    savedBills: seq<SavedBill>,
    activeTab: Tab,
    billSettings: BillSettings,
    currentBillName: string)

  /** The state of the App component; each handler is a method, and the
      effects that react to a change are methods the caller runs after it. */
  class AppState {
    var user: Option<User>
    var appliances: seq<Appliance>
    var billData: Option<BillCalculation>
    var savedBills: seq<SavedBill>
    var activeTab: Tab
    var billSettings: BillSettings
    var currentBillName: string

    function State(): Snapshot
      reads this
    {
      Snapshot(user, appliances, billData, savedBills, activeTab, billSettings, currentBillName)
    }

    /** The list of saved bills is that of the signed-in user's record. */
    predicate InSync(store: Storage.Store)
      reads this, store
    {
      user.Some? ==> savedBills == Storage.UserBills(store.items, user.value.email)
    }

    /** The initial state: nobody signed in, nothing entered, the input tab. */
    constructor ()
      ensures State() == Snapshot(None, [], None, [], InputTab, Storage.DefaultBillSettings(), "")
    {
      user := None;
      appliances := [];
      billData := None;
      savedBills := [];
      activeTab := InputTab;
      billSettings := Storage.DefaultBillSettings();
      currentBillName := "";
    }

    /** handleSignIn. */
    method HandleSignIn(u: User)
      modifies this
      ensures State() == old(State()).(user := Some(u))
    {
      user := Some(u);
    }

    /** The effect run when the user changes: remember the user, then load the
        record's appliances and settings (defaults without one) and its bills. */
    method LoadUserData(store: Storage.Store)
      modifies this, store
      ensures old(user).None? ==> State() == old(State()) && store.items == old(store.items)
      ensures user.Some? ==>
                store.items == old(store.items)[Storage.CurrentUserKey := Storage.Session(user.value)]
                && State() == old(State()).(appliances := Storage.OrEmpty(Storage.ReadUser(old(store.items), user.value.email)).appliances,
                                            billSettings := Storage.OrEmpty(Storage.ReadUser(old(store.items), user.value.email)).billSettings,
                                            savedBills := Storage.UserBills(old(store.items), user.value.email))
      ensures InSync(store)
    {
      if user.None? {
        return;
      }
      var email := user.value.email;
      Storage.SessionKeepsRecords(store.items, user.value, email);
      store.SetCurrentUser(user.value);
      var userData := Storage.ReadUser(store.items, email);
      if userData.Some? {
        appliances := userData.value.appliances;
        billSettings := userData.value.billSettings;
      } else {
        appliances := [];
        billSettings := Storage.DefaultBillSettings();
      }
      savedBills := Storage.UserBills(store.items, email);
    }

    /** The two auto-save effects: the appliances and then the settings are
        written to the signed-in user's record; its bills stay as they are. */
    method AutoSave(store: Storage.Store)
      requires InSync(store)
      modifies store
      ensures user.None? ==> store.items == old(store.items)
      ensures user.Some? ==>
                store.items == Storage.SettingsSaved(Storage.AppliancesSaved(old(store.items), user.value.email, appliances),
                                                     user.value.email, billSettings)
      ensures InSync(store)
    {
      if user.None? {
        return;
      }
      var email := user.value.email;
      Storage.AppliancesSavedSpec(store.items, email, appliances, email);
      store.SaveUserAppliances(email, appliances);
      Storage.SettingsSavedSpec(store.items, email, billSettings, email);
      store.SaveUserBillSettings(email, billSettings);
    }

    /** addAppliance, with `id` the fresh `Date.now().toString()`. */
    method AddAppliance(a: Appliance, id: string)
      modifies this
      ensures State() == old(State()).(appliances := WithAppliance(old(appliances), a, id))
    {
      appliances := appliances + [a.(id := id)];
    }

    method RemoveAppliance(id: string)
      modifies this
      ensures State() == old(State()).(appliances := WithoutAppliance(old(appliances), id))
    {
      appliances := Filter(appliances, ApplianceIdIsNot(id));
    }

    method UpdateAppliance(id: string, p: Patch)
      modifies this
      ensures State() == old(State()).(appliances := UpdatedAppliances(old(appliances), id, p))
    {
      appliances := UpdatedAppliances(appliances, id, p);
    }

    /** handleBillSettingsChange. */
    method HandleBillSettingsChange(settings: BillSettings)
      modifies this
      ensures State() == old(State()).(billSettings := settings)
    {
      billSettings := settings;
    }

    /** A click on a tab. */
    method SelectTab(tab: Tab)
      modifies this
      ensures State() == old(State()).(activeTab := tab)
    {
      activeTab := tab;
    }

    /** The effect of lines 231-243, which picks the calculation shown. */
    method RefreshBillData()
      requires CanShow(activeTab, savedBills)
      modifies this
      ensures State() == old(State()).(billData := old(ShownCalculation(activeTab, savedBills, appliances, billSettings)))
    {
      if activeTab == ResultsTab && |savedBills| > 0 {
        var aggregatedData := CalculateAggregatedBillData(savedBills);
        billData := Some(aggregatedData);
      } else if |appliances| > 0 {
        var calculation := CalculateBill(appliances, billSettings);
        billData := Some(calculation);
      } else {
        billData := None;
      }
    }

    /** handleSaveBill with the bill id `id`, the date `now` shown as
        `dateLabel`, `month` and `year`. Without a user or a calculation it
        does nothing; otherwise the new bill goes in front, in the store and
        in the list, and the name typed in is cleared. */
    method HandleSaveBill(store: Storage.Store, id: string, dateLabel: string, month: string, year: int, now: int)
      requires InSync(store)
      modifies this, store
      ensures old(user).None? || old(billData).None? ==> State() == old(State()) && store.items == old(store.items)
      ensures old(user).Some? && old(billData).Some? ==>
                var bill := NewBill(id, old(currentBillName), dateLabel, month, year,
                                    old(appliances), old(billSettings), old(billData).value, now);
                store.items == Storage.BillSaved(old(store.items), old(user).value.email, bill)
                && State() == old(State()).(savedBills := [bill] + old(savedBills), currentBillName := "")
      ensures InSync(store)
    {
      if user.None? || billData.None? {
        return;
      }
      var newBill := NewBill(id, currentBillName, dateLabel, month, year, appliances, billSettings, billData.value, now);
      Storage.BillSavedSpec(store.items, user.value.email, newBill, user.value.email);
      store.SaveUserBill(user.value.email, newBill);
      savedBills := [newBill] + savedBills;
      currentBillName := "";
    }

    /** handleDeleteBill, with `confirmed` the answer to the confirmation
        dialog: the bills with the id leave the store and the list. */
    method HandleDeleteBill(store: Storage.Store, billId: string, confirmed: bool)
      requires InSync(store)
      modifies this, store
      ensures old(user).None? || !confirmed ==> State() == old(State()) && store.items == old(store.items)
      ensures old(user).Some? && confirmed ==>
                store.items == Storage.BillDeleted(old(store.items), old(user).value.email, billId)
                && State() == old(State()).(savedBills := Filter(old(savedBills), Storage.BillIdIsNot(billId)))
      ensures InSync(store)
    {
      if user.None? || !confirmed {
        return;
      }
      Storage.BillDeletedSpec(store.items, user.value.email, billId, user.value.email);
      store.DeleteUserBill(user.value.email, billId);
      savedBills := Filter(savedBills, Storage.BillIdIsNot(billId));
    }

    /** handleLoadBill: the bill's appliances, settings and name become the
        current ones, and the input tab is selected. */
    method HandleLoadBill(bill: SavedBill)
      modifies this
      ensures State() == old(State()).(appliances := bill.appliances, billSettings := bill.settings,
                                       currentBillName := bill.name, activeTab := InputTab)
    {
      appliances := bill.appliances;
      billSettings := bill.settings;
      currentBillName := bill.name;
      activeTab := InputTab;
    }

    /** handleSignOut: everything back to the initial state, and the session
        key removed from the store. */
    method HandleSignOut(store: Storage.Store)
      modifies this, store
      ensures State() == Snapshot(None, [], None, [], InputTab, Storage.DefaultBillSettings(), "")
      ensures store.items == old(store.items) - {Storage.CurrentUserKey}
      ensures InSync(store)
    {
      user := None;
      appliances := [];
      billData := None;
      savedBills := [];
      activeTab := InputTab;
      currentBillName := "";
      billSettings := Storage.DefaultBillSettings();
      store.ClearCurrentUserSession();
    }
  }

  // ---------------------------------------------------------------------
  // The assistant as the app renders it

  /** The app shows the assistant only with a calculation, and gives it only
      the prediction: it warns exactly above $1500 a month. */
  lemma AssistantWarnsAboveThreshold(billData: BillCalculation, now: int)
    ensures ChatBot.Alarming(Some(PredictionFor(billData))) <==> billData.monthlyBill > 1500.0
    ensures ChatBot.AlertFor(Some(PredictionFor(billData)), now).Some? ==>
              ChatBot.AlertFor(Some(PredictionFor(billData)), now).value.text
              == ChatBot.AlertHead(PredictionFor(billData)) + ChatBot.AlertTail(PredictionFor(billData))
    ensures PredictionFor(billData).usageLevel.value == "high" ==>
              ChatBot.AlertHead(PredictionFor(billData)) == ChatBot.AlertPrefix + "high"
  {
  }

  /** With the component's defaults, the context the app's assistant sends
      carries no current bill and no history, only the prediction. */
  lemma AssistantContextAsRendered(billData: BillCalculation)
    ensures ChatBot.PrepareContext(ChatBot.UserNameOr(None), None, [], Some(PredictionFor(billData)))
         == ChatBot.Context("User", None, [], 0, 0.0, Some(PredictionFor(billData)))
  {
  }
}
