/** Grouping of a list by a key, in order of first appearance, as the app does
    with JavaScript `Map`s and plain-object dictionaries filled in a `forEach`
    (insertion order is iteration order). Every fold runs left to right, so the
    functions recurse on the last element. */
module Grouping {

  /** `items.reduce((sum, x) => sum + val(x), 0)`. */
  function Total<T>(items: seq<T>, val: T -> real): real
    decreases |items|
  {
    if items == [] then 0.0 else Total(items[..|items| - 1], val) + val(items[|items| - 1])
  }

  predicate Distinct<K(==)>(ks: seq<K>) {
    forall i, j :: 0 <= i < j < |ks| ==> ks[i] != ks[j]
  }

  /** The distinct keys of `items`, in order of first appearance. */
  function Keys<T, K(==)>(items: seq<T>, key: T -> K): (ks: seq<K>)
    ensures |ks| <= |items|
    decreases |items|
  {
    if items == [] then []
    else
      var p := Keys(items[..|items| - 1], key);
      var k := key(items[|items| - 1]);
      if k in p then p else p + [k]
  }

  /** The keys are distinct, and they are exactly the keys of the items. */
  lemma {:induction false} KeysSpec<T, K>(items: seq<T>, key: T -> K)
    ensures Distinct(Keys(items, key))
    ensures forall i :: 0 <= i < |items| ==> key(items[i]) in Keys(items, key)
    ensures forall k :: k in Keys(items, key) ==> exists i :: 0 <= i < |items| && key(items[i]) == k
    decreases |items|
  {
    if items != [] {
      var init := items[..|items| - 1];
      KeysSpec(init, key);
      forall k | k in Keys(items, key) ensures exists i :: 0 <= i < |items| && key(items[i]) == k {
        if k in Keys(init, key) {
          var i :| 0 <= i < |init| && key(init[i]) == k;
          assert key(items[i]) == k;
        } else {
          assert key(items[|items| - 1]) == k;
        }
      }
      forall i | 0 <= i < |items| ensures key(items[i]) in Keys(items, key) {
        if i < |init| {
          assert key(init[i]) == key(items[i]);
        }
      }
    }
  }

  /** Sum of `val` over the items whose key is `k`. */
  function KeySum<T, K(==)>(items: seq<T>, key: T -> K, k: K, val: T -> real): real
    decreases |items|
  {
    if items == [] then 0.0
    else
      var last := items[|items| - 1];
      KeySum(items[..|items| - 1], key, k, val) + (if key(last) == k then val(last) else 0.0)
  }

  /** Number of items whose key is `k`. */
  function KeyCount<T, K(==)>(items: seq<T>, key: T -> K, k: K): nat
    decreases |items|
  {
    if items == [] then 0
    else KeyCount(items[..|items| - 1], key, k) + (if key(items[|items| - 1]) == k then 1 else 0)
  }

  /** Position of the first item whose key is `k`. */
  function FirstIndex<T, K(==)>(items: seq<T>, key: T -> K, k: K): (i: nat)
    requires k in Keys(items, key)
    ensures i < |items| && key(items[i]) == k
    ensures forall j :: 0 <= j < i ==> key(items[j]) != k
    decreases |items|
  {
    var init := items[..|items| - 1];
    if k in Keys(init, key) then FirstIndex(init, key, k)
    else KeysSpec(init, key); |items| - 1
  }

  /** The first item whose key is `k`. */
  function First<T, K(==)>(items: seq<T>, key: T -> K, k: K): T
    requires k in Keys(items, key)
  {
    items[FirstIndex(items, key, k)]
  }

  /** A key that does not occur has sum zero and count zero; one that occurs has a positive count. */
  lemma {:induction false} AbsentKey<T, K>(items: seq<T>, key: T -> K, k: K, val: T -> real)
    ensures k !in Keys(items, key) ==> KeySum(items, key, k, val) == 0.0
    ensures KeyCount(items, key, k) > 0 <==> k in Keys(items, key)
    decreases |items|
  {
    if items != [] {
      AbsentKey(items[..|items| - 1], key, k, val);
    }
  }

  /** Keys are listed in the order of their first occurrence. */
  lemma {:induction false} KeysInFirstAppearanceOrder<T, K>(items: seq<T>, key: T -> K)
    ensures forall i, j :: 0 <= i < j < |Keys(items, key)| ==>
      FirstIndex(items, key, Keys(items, key)[i]) < FirstIndex(items, key, Keys(items, key)[j])
    decreases |items|
  {
    if items != [] {
      var n := |items| - 1;
      var init := items[..n];
      KeysInFirstAppearanceOrder(init, key);
      var p := Keys(init, key);
      forall k | k in p ensures FirstIndex(items, key, k) == FirstIndex(init, key, k) < n {
      }
    }
  }

  /** The total of a concatenation is the sum of the totals. */
  lemma {:induction false} TotalAppend<T>(a: seq<T>, b: seq<T>, val: T -> real)
    ensures Total(a + b, val) == Total(a, val) + Total(b, val)
    decreases |b|
  {
    if b == [] {
      assert a + b == a;
    } else {
      TotalAppend(a, b[..|b| - 1], val);
      assert (a + b)[..|a + b| - 1] == a + b[..|b| - 1];
    }
  }

  /** Totals of two lists agree when the lists agree pointwise on the summed values. */
  lemma {:induction false} TotalPointwise<T, U>(a: seq<T>, f: T -> real, b: seq<U>, g: U -> real)
    requires |a| == |b|
    requires forall i :: 0 <= i < |a| ==> f(a[i]) == g(b[i])
    ensures Total(a, f) == Total(b, g)
    decreases |a|
  {
    if a != [] {
      TotalPointwise(a[..|a| - 1], f, b[..|b| - 1], g);
    }
  }

  /** Sum over the keys `ks` of the per-key sums. */
  function SumOverKeys<T, K(==)>(ks: seq<K>, items: seq<T>, key: T -> K, val: T -> real): real
    decreases |ks|
  {
    if ks == [] then 0.0
    else SumOverKeys(ks[..|ks| - 1], items, key, val) + KeySum(items, key, ks[|ks| - 1], val)
  }

  /** Adding one item to the list adds its value to exactly one key's sum. */
  lemma {:induction false} SumOverKeysAppend<T, K>(ks: seq<K>, items: seq<T>, key: T -> K, val: T -> real)
    requires items != [] && Distinct(ks)
    ensures SumOverKeys(ks, items, key, val)
         == SumOverKeys(ks, items[..|items| - 1], key, val)
            + (if key(items[|items| - 1]) in ks then val(items[|items| - 1]) else 0.0)
    decreases |ks|
  {
    if ks != [] {
      var init := ks[..|ks| - 1];
      assert Distinct(init);
      SumOverKeysAppend(init, items, key, val);
      var kx := key(items[|items| - 1]);
      assert kx in ks <==> kx in init || kx == ks[|ks| - 1];
      assert kx in init ==> kx != ks[|ks| - 1];
    }
  }

  /** The per-key sums over all keys add up to the grand total. */
  lemma {:induction false} KeySumsAddUp<T, K>(items: seq<T>, key: T -> K, val: T -> real)
    ensures SumOverKeys(Keys(items, key), items, key, val) == Total(items, val)
    decreases |items|
  {
    if items != [] {
      var init := items[..|items| - 1];
      var x := items[|items| - 1];
      var p := Keys(init, key);
      KeySumsAddUp(init, key, val);
      KeysSpec(init, key);
      SumOverKeysAppend(p, items, key, val);
      if key(x) !in p {
        AbsentKey(init, key, key(x), val);
        assert Keys(items, key) == p + [key(x)];
        assert (p + [key(x)])[..|p|] == p;
      }
    }
  }

  /** When every key occurs once, the key list is the list of keys, and each
      key's first item, count and sum are those of its single item. */
  lemma {:induction false} DistinctKeysAreSingletons<T, K>(items: seq<T>, key: T -> K, val: T -> real)
    requires forall i, j :: 0 <= i < j < |items| ==> key(items[i]) != key(items[j])
    ensures |Keys(items, key)| == |items|
    ensures forall i :: 0 <= i < |items| ==> Keys(items, key)[i] == key(items[i])
    ensures forall i :: 0 <= i < |items| ==> FirstIndex(items, key, key(items[i])) == i
    ensures forall i :: 0 <= i < |items| ==> KeyCount(items, key, key(items[i])) == 1
    ensures forall i :: 0 <= i < |items| ==> KeySum(items, key, key(items[i]), val) == val(items[i])
    decreases |items|
  {
    if items != [] {
      var n := |items| - 1;
      var init := items[..n];
      DistinctKeysAreSingletons(init, key, val);
      var x := items[n];
      assert key(x) !in Keys(init, key);
      AbsentKey(init, key, key(x), val);
      forall i | 0 <= i < |items|
        ensures FirstIndex(items, key, key(items[i])) == i
        ensures KeyCount(items, key, key(items[i])) == 1
        ensures KeySum(items, key, key(items[i]), val) == val(items[i])
      {
        if i < n {
          assert init[i] == items[i];
          assert key(items[i]) != key(x);
        }
      }
    }
  }

  /** Sums of values proportional to one another stay proportional. */
  lemma {:induction false} KeySumScales<T, K>(items: seq<T>, key: T -> K, k: K, f: T -> real, g: T -> real, c: real)
    requires forall i :: 0 <= i < |items| ==> f(items[i]) == g(items[i]) * c
    ensures KeySum(items, key, k, f) == KeySum(items, key, k, g) * c
    decreases |items|
  {
    if items != [] {
      var n := |items| - 1;
      var init, last := items[..n], items[n];
      KeySumScales(init, key, k, f, g, c);
      if key(last) == k {
        Distribute(KeySum(init, key, k, g), g(last), c);
      }
    }
  }

  lemma Distribute(a: real, b: real, c: real)
    ensures (a + b) * c == a * c + b * c
  {
  }

  /** The grand total of proportional values is proportional. */
  lemma {:induction false} TotalScales<T>(items: seq<T>, f: T -> real, g: T -> real, c: real)
    requires forall i :: 0 <= i < |items| ==> f(items[i]) == g(items[i]) * c
    ensures Total(items, f) == Total(items, g) * c
    decreases |items|
  {
    if items != [] {
      var init := items[..|items| - 1];
      TotalScales(init, f, g, c);
      Distribute(Total(init, g), g(items[|items| - 1]), c);
    }
  }

  /** A total of non-negative values is at least each of them. */
  lemma {:induction false} TotalBoundsEach<T>(items: seq<T>, val: T -> real, i: nat)
    requires forall j :: 0 <= j < |items| ==> val(items[j]) >= 0.0
    requires i < |items|
    ensures 0.0 <= val(items[i]) <= Total(items, val)
    decreases |items|
  {
    var init := items[..|items| - 1];
    TotalNonNegative(init, val);
    if i < |items| - 1 {
      TotalBoundsEach(init, val, i);
    }
  }

  lemma {:induction false} TotalNonNegative<T>(items: seq<T>, val: T -> real)
    requires forall j :: 0 <= j < |items| ==> val(items[j]) >= 0.0
    ensures Total(items, val) >= 0.0
    decreases |items|
  {
    if items != [] {
      TotalNonNegative(items[..|items| - 1], val);
    }
  }

  /** The prefix of length j + 1 is the prefix of length j followed by element j. */
  lemma PrefixExtends<T>(s: seq<T>, j: nat)
    requires j < |s|
    ensures s[..j + 1] == s[..j] + [s[j]]
  {
  }

  /** Extending a prefix of `s` after `seen` by one element. */
  lemma AppendPrefixStep<T>(seen: seq<T>, s: seq<T>, j: nat)
    requires j < |s|
    ensures (seen + s[..j]) + [s[j]] == seen + s[..j + 1]
  {
    PrefixExtends(s, j);
  }

  /** Appending an item adds its key at the end if it is new. */
  lemma KeysSnoc<T, K>(items: seq<T>, key: T -> K, x: T)
    ensures Keys(items + [x], key) ==
      if key(x) in Keys(items, key) then Keys(items, key) else Keys(items, key) + [key(x)]
  {
    assert (items + [x])[..|items|] == items;
  }

  /** Appending an item adds its value to its own key's sum only. */
  lemma KeySumSnoc<T, K>(items: seq<T>, key: T -> K, k: K, val: T -> real, x: T)
    ensures KeySum(items + [x], key, k, val) == KeySum(items, key, k, val) + (if key(x) == k then val(x) else 0.0)
  {
    assert (items + [x])[..|items|] == items;
  }

  /** Two lists whose items have the same keys pointwise have the same key list. */
  lemma {:induction false} KeysPointwise<T, U, K>(a: seq<T>, b: seq<U>, key: T -> K, key': U -> K)
    requires |a| == |b|
    requires forall i :: 0 <= i < |a| ==> key(a[i]) == key'(b[i])
    ensures Keys(a, key) == Keys(b, key')
    decreases |a|
  {
    if a != [] {
      KeysPointwise(a[..|a| - 1], b[..|b| - 1], key, key');
    }
  }

  /** Two lists whose items agree pointwise on keys and values have the same per-key sums. */
  lemma {:induction false} KeySumPointwise<T, U, K>(a: seq<T>, b: seq<U>, key: T -> K, key': U -> K, k: K, val: T -> real, val': U -> real)
    requires |a| == |b|
    requires forall i :: 0 <= i < |a| ==> key(a[i]) == key'(b[i]) && val(a[i]) == val'(b[i])
    ensures KeySum(a, key, k, val) == KeySum(b, key', k, val')
    decreases |a|
  {
    if a != [] {
      KeySumPointwise(a[..|a| - 1], b[..|b| - 1], key, key', k, val, val');
    }
  }

  /** Appending an item adds one to its own key's count only. */
  lemma KeyCountSnoc<T, K>(items: seq<T>, key: T -> K, k: K, x: T)
    ensures KeyCount(items + [x], key, k) == KeyCount(items, key, k) + (if key(x) == k then 1 else 0)
  {
    assert (items + [x])[..|items|] == items;
  }

  /** Appending an item keeps the first item of every key already present,
      and makes it the first item of its own key if that key is new. */
  lemma FirstSnoc<T, K>(items: seq<T>, key: T -> K, k: K, x: T)
    requires k in Keys(items, key) || key(x) == k
    ensures k in Keys(items + [x], key)
    ensures k in Keys(items, key) ==> First(items + [x], key, k) == First(items, key, k)
    ensures k !in Keys(items, key) ==> First(items + [x], key, k) == x
  {
    assert (items + [x])[..|items|] == items;
    KeysSnoc(items, key, x);
  }

  /** The mean of `val` over a non-empty list. */
  function Mean<T>(items: seq<T>, val: T -> real): real
    requires |items| > 0
  {
    Total(items, val) / |items| as real
  }

  /** The mean times the number of items is their total. */
  lemma MeanSpec<T>(items: seq<T>, val: T -> real)
    requires |items| > 0
    ensures Mean(items, val) * |items| as real == Total(items, val)
  {
  }

  /** A value that is the mean, times the count, is the total. */
  lemma MeanTimesCount<T>(items: seq<T>, val: T -> real, m: real)
    requires |items| > 0
    requires m == Mean(items, val)
    ensures m * |items| as real == Total(items, val)
  {
    MeanSpec(items, val);
  }

  /** A total of values between `lo` and `hi` lies between the number of
      values times `lo` and times `hi`. */
  lemma {:induction false} TotalBetween<T>(items: seq<T>, val: T -> real, lo: real, hi: real)
    requires forall j :: 0 <= j < |items| ==> lo <= val(items[j]) <= hi
    ensures |items| as real * lo <= Total(items, val) <= |items| as real * hi
    decreases |items|
  {
    if items != [] {
      var init := items[..|items| - 1];
      assert forall j :: 0 <= j < |init| ==> init[j] == items[j];
      TotalBetween(init, val, lo, hi);
      assert |items| as real * lo == |init| as real * lo + lo;
      assert |items| as real * hi == |init| as real * hi + hi;
    }
  }

  /** A mean lies between the smallest and the largest value. */
  lemma MeanBetween<T>(items: seq<T>, val: T -> real, lo: real, hi: real)
    requires |items| > 0
    requires forall j :: 0 <= j < |items| ==> lo <= val(items[j]) <= hi
    ensures lo <= Mean(items, val) <= hi
  {
    TotalBetween(items, val, lo, hi);
    var n := |items| as real;
    var m := Mean(items, val);
    MeanSpec(items, val);
    CancelFactor(m, lo, n);
    CancelFactor(hi, m, n);
  }

  /** A positive factor can be cancelled from both sides of an inequality. */
  lemma CancelFactor(a: real, b: real, n: real)
    requires n > 0.0 && a * n >= b * n
    ensures a >= b
  {
    assert (a - b) * n == a * n - b * n;
  }

  /** The mean of `val` over the items with key `k`; zero when there are none. */
  function KeyMean<T, K(==)>(items: seq<T>, key: T -> K, k: K, val: T -> real): real {
    if KeyCount(items, key, k) == 0 then 0.0
    else KeySum(items, key, k, val) / KeyCount(items, key, k) as real
  }

  /** With distinct keys, each item is the first and only item of its key, so
      the mean of its key is its own value. */
  lemma SingletonAt<T, K>(items: seq<T>, key: T -> K, val: T -> real, i: nat)
    requires forall i, j :: 0 <= i < j < |items| ==> key(items[i]) != key(items[j])
    requires i < |items|
    ensures key(items[i]) in Keys(items, key)
    ensures First(items, key, key(items[i])) == items[i]
    ensures KeyMean(items, key, key(items[i]), val) == val(items[i])
  {
    DistinctKeysAreSingletons(items, key, val);
    KeysSpec(items, key);
  }
}
