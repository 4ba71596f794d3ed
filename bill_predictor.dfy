/** The results view (src/components/BillPredictor.tsx): the appliance and
    category breakdowns are sorted in place by monthly cost, largest first, the
    first five appliances are the top consumers, and the banner and card
    titles depend on whether the figures are averages over saved bills. */
module BillPredictor {
  import opened Types
  import opened Text
  import opened Lists

  /** `s` is in non-increasing order of `key`. */
  predicate SortedDescending<T>(s: seq<T>, key: T -> real) {
    forall k, l :: 0 <= k < l < |s| ==> key(s[k]) >= key(s[l])
  }

  /** The entries of `s` whose key is `v`. */
  function KeyIs<T>(key: T -> real, v: real): T -> bool {
    y => key(y) == v
  }

  /** One step of the stable descending sort: `x` goes into the list after
      every entry that is not smaller than it. */
  function InsertDesc<T>(s: seq<T>, x: T, key: T -> real): (r: seq<T>)
    ensures |r| == |s| + 1
    decreases |s|
  {
    if s == [] then [x]
    else if key(s[|s| - 1]) < key(x) then InsertDesc(s[..|s| - 1], x, key) + [s[|s| - 1]]
    else s + [x]
  }

  /** The order `Array.prototype.sort` gives with the comparator
      `(x, y) => key(y) - key(x)`: largest key first, and entries with equal
      keys in their original order, since that sort is stable. */
  function SortDesc<T>(s: seq<T>, key: T -> real): (r: seq<T>)
    ensures |r| == |s|
    decreases |s|
  {
    if s == [] then [] else InsertDesc(SortDesc(s[..|s| - 1], key), s[|s| - 1], key)
  }

  /** Inserting adds `x` and nothing else. */
  lemma {:induction false} InsertDescPermutes<T>(s: seq<T>, x: T, key: T -> real)
    ensures multiset(InsertDesc(s, x, key)) == multiset(s) + multiset{x}
    decreases |s|
  {
    if s != [] {
      var init := s[..|s| - 1];
      assert s == init + [s[|s| - 1]];
      if key(s[|s| - 1]) < key(x) {
        InsertDescPermutes(init, x, key);
      }
    }
  }

  /** Inserting into a list sorted largest first keeps it sorted. */
  lemma {:induction false} InsertDescSorted<T>(s: seq<T>, x: T, key: T -> real)
    requires SortedDescending(s, key)
    ensures SortedDescending(InsertDesc(s, x, key), key)
    decreases |s|
  {
    if s != [] {
      var init := s[..|s| - 1];
      var last := s[|s| - 1];
      if key(last) < key(x) {
        assert SortedDescending(init, key) by {
          forall k, l | 0 <= k < l < |init| ensures key(init[k]) >= key(init[l]) {
            assert init[k] == s[k] && init[l] == s[l];
          }
        }
        InsertDescSorted(init, x, key);
        assert forall k :: 0 <= k < |init| ==> key(init[k]) >= key(last) by {
          forall k | 0 <= k < |init| ensures key(init[k]) >= key(last) {
            assert init[k] == s[k];
          }
        }
        InsertDescAbove(init, x, key, key(last));
      } else {
        forall k | 0 <= k < |s| ensures key(s[k]) >= key(x) {
          assert key(s[k]) >= key(last);
        }
      }
    }
  }

  /** Inserting an entry whose key is at least `c` into entries whose keys are
      at least `c` gives entries whose keys are at least `c`. */
  lemma {:induction false} InsertDescAbove<T>(s: seq<T>, x: T, key: T -> real, c: real)
    requires forall k :: 0 <= k < |s| ==> key(s[k]) >= c
    requires key(x) >= c
    ensures forall k :: 0 <= k < |InsertDesc(s, x, key)| ==> key(InsertDesc(s, x, key)[k]) >= c
    decreases |s|
  {
    if s != [] && key(s[|s| - 1]) < key(x) {
      var init := s[..|s| - 1];
      assert forall k :: 0 <= k < |init| ==> init[k] == s[k];
      InsertDescAbove(init, x, key, c);
    }
  }

  lemma FilterSingle<T>(x: T, p: T -> bool)
    ensures Filter([x], p) == if p(x) then [x] else []
  {
    assert [x][1..] == [];
  }

  /** Inserting moves `x` only past entries with a smaller key, so among the
      entries of any one key the order is that of `s + [x]`. */
  lemma {:induction false} InsertDescStable<T>(s: seq<T>, x: T, key: T -> real, v: real)
    ensures Filter(InsertDesc(s, x, key), KeyIs(key, v)) == Filter(s + [x], KeyIs(key, v))
    decreases |s|
  {
    var p := KeyIs(key, v);
    if s != [] {
      var init := s[..|s| - 1];
      var last := s[|s| - 1];
      if key(last) < key(x) {
        InsertDescStable(init, x, key, v);
        FilterAppend(InsertDesc(init, x, key), [last], p);
        FilterAppend(init, [x], p);
        assert s + [x] == init + [last] + [x];
        FilterAppend(init + [last], [x], p);
        FilterAppend(init, [last], p);
        FilterSingle(x, p);
        FilterSingle(last, p);
      }
    }
  }

  /** The sort puts the largest keys first, keeps every entry, and keeps the
      entries of each key in their original order. */
  lemma {:induction false} SortDescSpec<T>(s: seq<T>, key: T -> real)
    ensures SortedDescending(SortDesc(s, key), key)
    ensures multiset(SortDesc(s, key)) == multiset(s)
    ensures forall v :: Filter(SortDesc(s, key), KeyIs(key, v)) == Filter(s, KeyIs(key, v))
    decreases |s|
  {
    if s != [] {
      var init := s[..|s| - 1];
      var last := s[|s| - 1];
      assert s == init + [last];
      SortDescSpec(init, key);
      InsertDescSorted(SortDesc(init, key), last, key);
      InsertDescPermutes(SortDesc(init, key), last, key);
      forall v ensures Filter(SortDesc(s, key), KeyIs(key, v)) == Filter(s, KeyIs(key, v)) {
        InsertDescStable(SortDesc(init, key), last, key, v);
        FilterAppend(SortDesc(init, key), [last], KeyIs(key, v));
        FilterAppend(init, [last], KeyIs(key, v));
      }
    }
  }

  /** Moving `x` past a strictly smaller last entry. */
  lemma InsertDescPast<T>(s: seq<T>, j: nat, x: T, key: T -> real)
    requires 0 < j <= |s| && key(s[j - 1]) < key(x)
    ensures InsertDesc(s[..j], x, key) == InsertDesc(s[..j - 1], x, key) + [s[j - 1]]
  {
    assert s[..j][..j - 1] == s[..j - 1];
  }

  /** Inserting the entry after a sorted prefix sorts one more entry. */
  lemma SortStep<T>(s0: seq<T>, i: nat, key: T -> real)
    requires i < |s0|
    ensures var t := SortDesc(s0[..i], key) + s0[i..];
            InsertDesc(t[..i], t[i], key) + t[i + 1..] == SortDesc(s0[..i + 1], key) + s0[i + 1..]
  {
    var t := SortDesc(s0[..i], key) + s0[i..];
    assert t[..i] == SortDesc(s0[..i], key);
    assert t[i] == s0[i] && t[i + 1..] == s0[i + 1..];
    assert s0[..i + 1][..i] == s0[..i];
  }

  /** `a.sort((x, y) => key(y) - key(x))`: an insertion sort by adjacent swaps,
      which moves an element only past strictly smaller ones. */
  method SortDescending<T>(a: array<T>, key: T -> real)
    modifies a
    ensures a[..] == SortDesc(old(a[..]), key)
    ensures SortedDescending(a[..], key)
    ensures multiset(a[..]) == multiset(old(a[..]))
    ensures forall v :: Filter(a[..], KeyIs(key, v)) == Filter(old(a[..]), KeyIs(key, v))
  {
    ghost var s0 := a[..];
    var i := 0;
    while i < a.Length
      invariant 0 <= i <= a.Length
      invariant a[..] == SortDesc(s0[..i], key) + s0[i..]
    {
      SortStep(s0, i, key);
      InsertAt(a, i, key);
      i := i + 1;
    }
    assert s0[..i] == s0;
    SortDescSpec(s0, key);
  }

  /** The array during a pass: `x` sits at `j`, the entries it has passed
      follow it, and the rest is as before the pass. */
  function Passing<T>(s0: seq<T>, i: nat, j: nat, x: T): (r: seq<T>)
    requires j <= i < |s0|
    ensures |r| == |s0|
    ensures r[j] == x && (j > 0 ==> r[j - 1] == s0[j - 1])
  {
    s0[..j] + [x] + s0[j..i] + s0[i + 1..]
  }

  /** Passing a strictly smaller entry keeps the insertion's equation. */
  lemma PassStep<T>(s0: seq<T>, i: nat, j: nat, x: T, key: T -> real)
    requires 0 < j <= i < |s0| && key(s0[j - 1]) < key(x)
    requires InsertDesc(s0[..i], x, key) == InsertDesc(s0[..j], x, key) + s0[j..i]
    ensures InsertDesc(s0[..i], x, key) == InsertDesc(s0[..j - 1], x, key) + s0[j - 1..i]
  {
    InsertDescPast(s0, j, x, key);
    assert [s0[j - 1]] + s0[j..i] == s0[j - 1..i];
  }

  /** Swapping `x` with its left neighbour moves the pass one place left. */
  lemma PassingSwap<T>(s0: seq<T>, i: nat, j: nat, x: T)
    requires 0 < j <= i < |s0|
    ensures Passing(s0, i, j, x)[j - 1 := x][j := s0[j - 1]] == Passing(s0, i, j - 1, x)
  {
    var r := Passing(s0, i, j, x)[j - 1 := x][j := s0[j - 1]];
    var t := Passing(s0, i, j - 1, x);
    forall k | 0 <= k < |s0| ensures r[k] == t[k] {
      if k < j - 1 {
        assert r[k] == s0[k] && t[k] == s0[k];
      } else if k > j {
        assert r[k] == Passing(s0, i, j, x)[k];
        if k <= i {
          assert r[k] == s0[k - 1] && t[k] == s0[k - 1];
        } else {
          assert r[k] == s0[k] && t[k] == s0[k];
        }
      }
    }
  }

  /** At the end of a pass the array is the insertion followed by the rest. */
  lemma PassingDone<T>(s0: seq<T>, i: nat, j: nat, x: T, key: T -> real)
    requires j <= i < |s0|
    requires InsertDesc(s0[..i], x, key) == InsertDesc(s0[..j], x, key) + s0[j..i]
    requires j == 0 || key(s0[j - 1]) >= key(x)
    ensures Passing(s0, i, j, x) == InsertDesc(s0[..i], x, key) + s0[i + 1..]
  {
    if j > 0 {
      assert s0[..j][j - 1] == s0[j - 1];
    }
    assert InsertDesc(s0[..j], x, key) == s0[..j] + [x];
  }

  /** One pass of the insertion sort: `a[i]` moves left past the strictly
      smaller entries before it. */
  method InsertAt<T>(a: array<T>, i: nat, key: T -> real)
    requires i < a.Length
    modifies a
    ensures a[..] == InsertDesc(old(a[..i]), old(a[i]), key) + old(a[i + 1..])
  {
    ghost var s0 := a[..];
    ghost var x := a[i];
    var j: nat := i;
    assert a[..] == Passing(s0, i, i, x) by {
      assert s0 == s0[..i] + [s0[i]] + s0[i + 1..];
    }
    while j > 0 && key(a[j - 1]) < key(a[j])
      invariant j <= i
      invariant a[..] == Passing(s0, i, j, x)
      invariant InsertDesc(s0[..i], x, key) == InsertDesc(s0[..j], x, key) + s0[j..i]
    {
      PassStep(s0, i, j, x, key);
      PassingSwap(s0, i, j, x);
      a[j - 1], a[j] := a[j], a[j - 1];
      j := j - 1;
    }
    PassingDone(s0, i, j, x, key);
  }

  /** The number of top consumers shown: five, or all when there are fewer. */
  function TopCount(n: nat): (k: nat)
    ensures k <= n && k <= 5
    ensures k == 5 || k == n
  {
    if n < 5 then n else 5
  }

  /** `.slice(0, 5)` of the sorted breakdown. */
  function TopAppliances(sorted: seq<ApplianceUsage>): (top: seq<ApplianceUsage>)
    ensures |top| == TopCount(|sorted|)
    ensures top == sorted[..|top|]
  {
    sorted[..TopCount(|sorted|)]
  }

  /** Of a breakdown sorted by cost, the top consumers cost at least as much
      as every appliance left out, and are themselves in order. */
  lemma TopAppliancesAreTheLargest(sorted: seq<ApplianceUsage>)
    requires SortedDescending(sorted, UsageCost)
    ensures SortedDescending(TopAppliances(sorted), UsageCost)
    ensures forall i, j :: 0 <= i < |TopAppliances(sorted)| <= j < |sorted| ==>
              TopAppliances(sorted)[i].monthlyCost >= sorted[j].monthlyCost
    ensures |sorted| > 5 ==> |TopAppliances(sorted)| == 5
  {
    var top := TopAppliances(sorted);
    forall i, j | 0 <= i < |top| <= j < |sorted| ensures top[i].monthlyCost >= sorted[j].monthlyCost {
      assert top[i] == sorted[i];
      assert UsageCost(sorted[i]) >= UsageCost(sorted[j]);
    }
  }

  /** Rendering reorders both breakdowns of the shown calculation in place and
      returns the top consumers. */
  method Render(appliances: array<ApplianceUsage>, categories: array<CategoryUsage>)
    returns (top: seq<ApplianceUsage>)
    modifies appliances, categories
    ensures appliances[..] == SortDesc(old(appliances[..]), UsageCost)
    ensures categories[..] == SortDesc(old(categories[..]), CategoryCost)
    ensures SortedDescending(appliances[..], UsageCost)
    ensures multiset(appliances[..]) == multiset(old(appliances[..]))
    ensures SortedDescending(categories[..], CategoryCost)
    ensures multiset(categories[..]) == multiset(old(categories[..]))
    ensures top == TopAppliances(SortDesc(old(appliances[..]), UsageCost))
  {
    SortDescending(appliances, UsageCost);
    top := appliances[..TopCount(appliances.Length)];
    SortDescending(categories, CategoryCost);
  }

  /** The banner above the cards: shown only for averages over at least one
      saved bill, with a plural "s" unless there is exactly one. */
  function Banner(isAggregatedView: bool, totalBillsCount: nat): Option<string> {
    if isAggregatedView && totalBillsCount > 0 then
      Some("Showing Average Data from " + NatToString(totalBillsCount) + " Saved Bill"
           + (if totalBillsCount != 1 then "s" else ""))
    else None
  }

  lemma BannerSpec(isAggregatedView: bool, totalBillsCount: nat)
    ensures Banner(isAggregatedView, totalBillsCount).Some? <==> isAggregatedView && totalBillsCount > 0
    ensures Banner(isAggregatedView, totalBillsCount).Some? ==>
              var text := Banner(isAggregatedView, totalBillsCount).value;
              StartsWith(text, "Showing Average Data from ")
              && (text[|text| - 1] == 's' <==> totalBillsCount != 1)
  {
    if isAggregatedView && totalBillsCount > 0 {
      var text := Banner(isAggregatedView, totalBillsCount).value;
      var head := "Showing Average Data from " + NatToString(totalBillsCount) + " Saved Bill";
      assert text[..|"Showing Average Data from "|] == "Showing Average Data from ";
      if totalBillsCount == 1 {
        assert text == head;
      }
    }
  }

  /** The titles of the four cards (monthly bill, monthly usage, yearly bill,
      daily figure). */
  function CardTitles(isAggregatedView: bool): (r: seq<string>)
    ensures |r| == 4
  {
    if isAggregatedView then
      ["Average Monthly Bill", "Average Monthly Usage", "Average Yearly Bill", "Average Daily Usage"]
    else ["Monthly Bill", "Monthly Usage", "Yearly Bill", "Daily Average"]
  }

  /** Every title starts with "Average " exactly in the aggregated view. */
  lemma CardTitlesSpec(isAggregatedView: bool)
    ensures forall i :: 0 <= i < 4 ==> (StartsWith(CardTitles(isAggregatedView)[i], "Average ") <==> isAggregatedView)
  {
    var r := CardTitles(isAggregatedView);
    if isAggregatedView {
      forall i | 0 <= i < 4 ensures StartsWith(r[i], "Average ") {
        assert r[i][..8] == "Average ";
      }
    } else {
      forall i | 0 <= i < 4 ensures !StartsWith(r[i], "Average ") {
        assert r[i][0] != 'A';
      }
    }
  }
}
