/** The statistics helpers plugins share: item frequencies, the most
    frequent items, the median, and grouping or counting items by a key. */
module Statistics {
  import opened Wrappers
  import opened Js
  import opened Sorting

  // ---------------------------------------------------------------
  // Insertion-ordered dictionaries
  // ---------------------------------------------------------------

  /** A `Map`, or a plain object used as a dictionary: entries in the order
      their keys were first set. */
  type Dict<K, V> = seq<(K, V)>

  function Find<K(==), V>(d: Dict<K, V>, k: K): Option<V> {
    if d == [] then None
    else if d[0].0 == k then Some(d[0].1)
    else Find(d[1..], k)
  }

  /** `d.set(k, v)` / `d[k] = v`: an existing key keeps its place, a new one
      goes last. */
  function Put<K(==), V>(d: Dict<K, V>, k: K, v: V): Dict<K, V> {
    if d == [] then [(k, v)]
    else if d[0].0 == k then [(k, v)] + d[1..]
    else [d[0]] + Put(d[1..], k, v)
  }

  predicate DistinctKeys<K(==), V>(d: Dict<K, V>) {
    forall i, j :: 0 <= i < j < |d| ==> d[i].0 != d[j].0
  }

  lemma {:induction false} FindPut<K, V>(d: Dict<K, V>, k: K, v: V, j: K)
    ensures Find(Put(d, k, v), j) == if j == k then Some(v) else Find(d, j)
  {
    if d != [] && d[0].0 != k {
      FindPut(d[1..], k, v, j);
    }
  }

  /** Setting a key replaces its entry in place when present and appends
      one otherwise. */
  lemma {:induction false} PutShape<K, V>(d: Dict<K, V>, k: K, v: V)
    requires DistinctKeys(d)
    ensures Find(d, k).None? ==> Put(d, k, v) == d + [(k, v)]
    ensures Find(d, k).Some? ==> |Put(d, k, v)| == |d|
    ensures Find(d, k).Some? ==>
      forall i :: 0 <= i < |d| ==> Put(d, k, v)[i] == if d[i].0 == k then (k, v) else d[i]
  {
    if d != [] && d[0].0 != k {
      PutShape(d[1..], k, v);
      assert d == [d[0]] + d[1..];
    }
  }

  lemma {:induction false} FindNone<K, V>(d: Dict<K, V>, k: K)
    ensures Find(d, k).None? <==> forall i :: 0 <= i < |d| ==> d[i].0 != k
  {
    if d != [] {
      FindNone(d[1..], k);
      assert forall i :: 0 < i < |d| ==> d[i] == d[1..][i - 1];
    }
  }

  lemma PutKeys<K, V>(d: Dict<K, V>, k: K, v: V)
    requires DistinctKeys(d)
    ensures DistinctKeys(Put(d, k, v))
  {
    PutShape(d, k, v);
    FindNone(d, k);
  }

  /** A key that is found is the key of some entry, and is not the first
      key when it follows it. */
  lemma {:induction false} FindSome<K, V>(d: Dict<K, V>, k: K)
    requires DistinctKeys(d)
    requires Find(d, k).Some?
    ensures exists i :: 0 <= i < |d| && d[i] == (k, Find(d, k).value)
  {
    if d[0].0 != k {
      FindSome(d[1..], k);
      var i :| 0 <= i < |d[1..]| && d[1..][i] == (k, Find(d, k).value);
      assert d[i + 1] == d[1..][i];
    }
  }

  /** With distinct keys, every entry is what a lookup of its key finds. */
  lemma {:induction false} FindAt<K, V>(d: Dict<K, V>, i: nat)
    requires DistinctKeys(d) && i < |d|
    ensures Find(d, d[i].0) == Some(d[i].1)
  {
    if i > 0 {
      FindAt(d[1..], i - 1);
    }
  }

  function SumCounts<K>(d: Dict<K, int>): int {
    if d == [] then 0 else d[0].1 + SumCounts(d[1..])
  }

  /** Setting a key changes the total by the difference of the values. */
  lemma {:induction false} SumPut<K>(d: Dict<K, int>, k: K, v: int)
    ensures SumCounts(Put(d, k, v)) == SumCounts(d) - Find(d, k).GetOr(0) + v
  {
    if d != [] && d[0].0 != k {
      SumPut(d[1..], k, v);
    }
  }

  // ---------------------------------------------------------------
  // frequency
  // ---------------------------------------------------------------

  /** One step of `frequency`: `freq.set(item, (freq.get(item) || 0) + 1)`. */
  function Bump<T(==)>(freq: Dict<T, int>, item: T): Dict<T, int> {
    Put(freq, item, Find(freq, item).GetOr(0) + 1)
  }

  /** The map `frequency` has built after the given items. */
  function Freq<T(==)>(items: seq<T>): Dict<T, int> {
    if items == [] then []
    else Bump(Freq(items[..|items| - 1]), items[|items| - 1])
  }

  /** Every item seen is a key, counted once per occurrence; nothing else
      is a key; and the counts add up to the number of items. */
  lemma {:induction false} FreqCounts<T>(items: seq<T>)
    ensures DistinctKeys(Freq(items))
    ensures forall x :: Find(Freq(items), x) == if x in items then Some(multiset(items)[x]) else None
    ensures SumCounts(Freq(items)) == |items|
  {
    if items != [] {
      var p, x := items[..|items| - 1], items[|items| - 1];
      assert items == p + [x];
      FreqCounts(p);
      PutKeys(Freq(p), x, Find(Freq(p), x).GetOr(0) + 1);
      SumPut(Freq(p), x, Find(Freq(p), x).GetOr(0) + 1);
      forall y ensures Find(Freq(items), y) == if y in items then Some(multiset(items)[y]) else None {
        FindPut(Freq(p), x, Find(Freq(p), x).GetOr(0) + 1, y);
      }
    }
  }

  /** Each entry of the map pairs an item with its number of occurrences. */
  lemma FreqEntries<T>(items: seq<T>)
    ensures forall i :: 0 <= i < |Freq(items)| ==>
      Freq(items)[i].0 in items && Freq(items)[i].1 == multiset(items)[Freq(items)[i].0]
  {
    var f := Freq(items);
    FreqCounts(items);
    forall i | 0 <= i < |f|
      ensures f[i].0 in items && f[i].1 == multiset(items)[f[i].0]
    {
      FindAt(f, i);
      assert Find(f, f[i].0) == Some(f[i].1);
      assert Find(f, f[i].0) == if f[i].0 in items then Some(multiset(items)[f[i].0]) else None;
    }
  }

  /** `frequency(items)` */
  method Frequency<T(==)>(items: seq<T>) returns (freq: Dict<T, int>)
    ensures freq == Freq(items)
    ensures DistinctKeys(freq)
    ensures forall x :: Find(freq, x) == if x in items then Some(multiset(items)[x]) else None
    ensures SumCounts(freq) == |items|
  {
    freq := [];
    for i := 0 to |items|
      invariant freq == Freq(items[..i])
    {
      assert items[..i + 1][..i] == items[..i];
      freq := Put(freq, items[i], Find(freq, items[i]).GetOr(0) + 1);
    }
    assert items[..|items|] == items;
    FreqCounts(items);
  }

  // ---------------------------------------------------------------
  // topN
  // ---------------------------------------------------------------

  datatype Ranked<T> = Ranked(item: T, count: int)

  function ToRanked<T>(es: seq<(T, int)>): (r: seq<Ranked<T>>)
    ensures |r| == |es|
    ensures forall i :: 0 <= i < |es| ==> r[i] == Ranked(es[i].0, es[i].1)
  {
    seq(|es|, i requires 0 <= i < |es| => Ranked(es[i].0, es[i].1))
  }

  /** `topN(items, n)`: the frequency entries, largest count first (ties in
      first-occurrence order), cut to `n`. */
  function TopN<T(==)>(items: seq<T>, n: int): (r: seq<Ranked<T>>)
    ensures n >= 0 ==> |r| == if n < |Freq(items)| then n else |Freq(items)|
    ensures forall i, j :: 0 <= i < j < |r| ==> r[i].count >= r[j].count
  {
    var sorted := SortDesc(Freq(items));
    SliceContiguous(sorted, Some(0), Some(n));
    ToRanked(Slice(sorted, Some(0), Some(n)))
  }

  /** At most `n` entries, counts non-increasing, each count the item's
      number of occurrences. */
  lemma TopNShape<T>(items: seq<T>, n: int)
    requires n >= 0
    ensures var r := TopN(items, n);
      |r| <= n
      && (forall i, j :: 0 <= i < j < |r| ==> r[i].count >= r[j].count)
      && (forall i :: 0 <= i < |r| ==> r[i].item in items && r[i].count == multiset(items)[r[i].item])
  {
    var sorted := SortDesc(Freq(items));
    SliceFromStart(sorted, n);
    var r := TopN(items, n);
    FreqEntries(items);
    forall i | 0 <= i < |r| ensures r[i].item in items && r[i].count == multiset(items)[r[i].item] {
      assert sorted[i] in multiset(sorted);
      var k :| 0 <= k < |Freq(items)| && Freq(items)[k] == sorted[i];
    }
  }

  /** No item left out of a `topN` result beats the last one kept: when an
      item that occurs is missing, all `n` places are taken by items
      occurring at least as often. */
  lemma TopNIsTop<T>(items: seq<T>, n: int, x: T)
    requires n >= 0 && x in items
    requires forall i :: 0 <= i < |TopN(items, n)| ==> TopN(items, n)[i].item != x
    ensures |TopN(items, n)| == n
    ensures n > 0 ==> TopN(items, n)[n - 1].count >= multiset(items)[x]
  {
    var f := Freq(items);
    var sorted := SortDesc(f);
    var b := if n < |sorted| then n else |sorted|;
    SliceFromStart(sorted, n);
    var r := TopN(items, n);
    assert r == ToRanked(sorted[..b]);
    var c := multiset(items)[x];
    FreqCounts(items);
    assert Find(f, x) == Some(c);
    FindSome(f, x);
    var i :| 0 <= i < |f| && f[i] == (x, c);
    assert f[i] in multiset(sorted);
    var k :| 0 <= k < |sorted| && sorted[k] == (x, c);
    assert k < |r| ==> r[k].item == x;
    assert b == n;
    if n > 0 {
      assert r[n - 1].count == sorted[n - 1].1;
    }
  }

  // ---------------------------------------------------------------
  // median
  // ---------------------------------------------------------------

  /** `median(numbers)`: 0 for none, otherwise the middle of a sorted copy
      (the mean of the two middle values for an even count). */
  function Median(numbers: seq<int>): (r: real)
    ensures numbers == [] ==> r == 0.0
    ensures numbers != [] ==> exists i, j :: 0 <= i < |numbers| && 0 <= j < |numbers|
                                             && numbers[i] as real <= r <= numbers[j] as real
  {
    if numbers == [] then 0.0
    else
      var sorted := SortAsc(numbers);
      var mid := |sorted| / 2;
      assert sorted[mid] in multiset(numbers);
      if |sorted| % 2 == 0 then
        assert sorted[mid - 1] in multiset(numbers) && sorted[mid - 1] <= sorted[mid];
        (sorted[mid - 1] + sorted[mid]) as real / 2.0
      else sorted[mid] as real
  }

  function CountWhere(xs: seq<int>, p: int -> bool): (c: nat)
    ensures c <= |xs|
  {
    if xs == [] then 0 else (if p(xs[0]) then 1 else 0) + CountWhere(xs[1..], p)
  }

  lemma {:induction false} CountWhereAppend(a: seq<int>, b: seq<int>, p: int -> bool)
    ensures CountWhere(a + b, p) == CountWhere(a, p) + CountWhere(b, p)
  {
    if a != [] {
      assert (a + b)[1..] == a[1..] + b;
      CountWhereAppend(a[1..], b, p);
    } else {
      assert a + b == b;
    }
  }

  /** Counting does not depend on the order of the numbers. */
  lemma {:induction false} CountWherePermutation(xs: seq<int>, ys: seq<int>, p: int -> bool)
    requires multiset(xs) == multiset(ys)
    ensures CountWhere(xs, p) == CountWhere(ys, p)
  {
    if xs != [] {
      assert xs[0] in multiset(ys);
      var k :| 0 <= k < |ys| && ys[k] == xs[0];
      var rest := ys[..k] + ys[k + 1..];
      assert ys == ys[..k] + [ys[k]] + ys[k + 1..];
      assert xs == [xs[0]] + xs[1..];
      assert multiset(ys) == multiset(ys[..k]) + multiset{ys[k]} + multiset(ys[k + 1..]);
      assert multiset(rest) == multiset(ys[..k]) + multiset(ys[k + 1..]);
      assert multiset(xs) == multiset{xs[0]} + multiset(xs[1..]);
      assert multiset(xs[1..]) == multiset(xs) - multiset{xs[0]};
      assert multiset(rest) == multiset(ys) - multiset{ys[k]};
      CountWherePermutation(xs[1..], rest, p);
      CountWhereAppend(ys[..k] + [ys[k]], ys[k + 1..], p);
      CountWhereAppend(ys[..k], [ys[k]], p);
      CountWhereAppend(ys[..k], ys[k + 1..], p);
    }
  }

  /** In ascending order, nothing after an index is smaller than the value
      there and nothing before it is larger. */
  lemma AscendingAround(s: seq<int>, mid: nat, below: int -> bool, above: int -> bool)
    requires Ascending(s) && mid < |s|
    requires forall y :: below(y) ==> y < s[mid]
    requires forall y :: above(y) ==> y > s[mid]
    ensures CountWhere(s, below) <= mid
    ensures CountWhere(s, above) <= |s| - mid - 1
  {
    assert s == s[..mid] + s[mid..];
    CountWhereAppend(s[..mid], s[mid..], below);
    NoneWhere(s[mid..], below);
    assert s == s[..mid + 1] + s[mid + 1..];
    CountWhereAppend(s[..mid + 1], s[mid + 1..], above);
    NoneWhere(s[..mid + 1], above);
  }

  lemma {:induction false} NoneWhere(xs: seq<int>, p: int -> bool)
    requires forall i :: 0 <= i < |xs| ==> !p(xs[i])
    ensures CountWhere(xs, p) == 0
  {
    if xs != [] {
      NoneWhere(xs[1..], p);
    }
  }

  /** For an odd count the median is one of the numbers, with at most half
      of the others below it and at most half above it; the numbers
      themselves are only read. */
  lemma MedianOdd(numbers: seq<int>)
    requires |numbers| % 2 == 1
    ensures exists i :: 0 <= i < |numbers| && Median(numbers) == numbers[i] as real
    ensures CountWhere(numbers, y => y as real < Median(numbers)) <= |numbers| / 2
    ensures CountWhere(numbers, y => y as real > Median(numbers)) <= |numbers| / 2
  {
    var sorted := SortAsc(numbers);
    var mid := |sorted| / 2;
    var m := sorted[mid];
    assert Median(numbers) == m as real;
    assert m in multiset(numbers) by { assert sorted[mid] in multiset(sorted); }
    var below: int -> bool := y => y as real < Median(numbers);
    var above: int -> bool := y => y as real > Median(numbers);
    AscendingAround(sorted, mid, below, above);
    CountWherePermutation(numbers, sorted, below);
    CountWherePermutation(numbers, sorted, above);
  }

  lemma MedianEmpty()
    ensures Median([]) == 0.0
  {
  }

  // ---------------------------------------------------------------
  // groupBy and countBy
  // ---------------------------------------------------------------

  /** The items whose key is `k`, in input order. */
  function Filter<T>(items: seq<T>, keyFn: T -> string, k: string): seq<T> {
    if items == [] then []
    else
      var last := items[|items| - 1];
      Filter(items[..|items| - 1], keyFn, k) + (if keyFn(last) == k then [last] else [])
  }

  /** An item lies in the group for `k` exactly when it is an input item
      whose key is `k`. */
  lemma {:induction false} FilterMembers<T>(items: seq<T>, keyFn: T -> string, k: string, x: T)
    ensures x in Filter(items, keyFn, k) <==> x in items && keyFn(x) == k
  {
    if items != [] {
      var p := items[..|items| - 1];
      assert items == p + [items[|items| - 1]];
      FilterMembers(p, keyFn, k, x);
    }
  }

  /** A group is never longer than the input, and is the whole input when
      every item has its key. */
  lemma {:induction false} FilterCounts<T>(items: seq<T>, keyFn: T -> string, k: string)
    ensures |Filter(items, keyFn, k)| <= |items|
    ensures (forall i :: 0 <= i < |items| ==> keyFn(items[i]) == k) ==> Filter(items, keyFn, k) == items
  {
    if items != [] {
      var p := items[..|items| - 1];
      assert items == p + [items[|items| - 1]];
      FilterCounts(p, keyFn, k);
    }
  }

  function Grouped<T>(items: seq<T>, keyFn: T -> string, k: string): Option<seq<T>> {
    if Filter(items, keyFn, k) == [] then None else Some(Filter(items, keyFn, k))
  }

  /** `groupBy(items, keyFn)` */
  method GroupBy<T>(items: seq<T>, keyFn: T -> string) returns (groups: Dict<string, seq<T>>)
    ensures DistinctKeys(groups)
    ensures forall k :: Find(groups, k) == Grouped(items, keyFn, k)
  {
    groups := [];
    for i := 0 to |items|
      invariant DistinctKeys(groups)
      invariant forall k :: Find(groups, k) == Grouped(items[..i], keyFn, k)
    {
      var key := keyFn(items[i]);
      var group := Find(groups, key).GetOr([]);
      PutKeys(groups, key, group + [items[i]]);
      ghost var before := groups;
      groups := Put(groups, key, group + [items[i]]);
      assert items[..i + 1][..i] == items[..i];
      forall k ensures Find(groups, k) == Grouped(items[..i + 1], keyFn, k) {
        FindPut(before, key, group + [items[i]], k);
        assert Find(before, k) == Grouped(items[..i], keyFn, k);
        assert group == Filter(items[..i], keyFn, key);
        if k == key {
          assert Find(groups, k) == Some(group + [items[i]]);
          assert Filter(items[..i + 1], keyFn, k) == group + [items[i]];
        } else {
          assert Find(groups, k) == Find(before, k);
          assert Filter(items[..i + 1], keyFn, k) == Filter(items[..i], keyFn, k);
        }
        assert Filter(items[..i + 1], keyFn, k)
          == Filter(items[..i], keyFn, k) + (if key == k then [items[i]] else []);
      }
    }
    assert items[..|items|] == items;
  }

  function Counted<T>(items: seq<T>, keyFn: T -> string, k: string): Option<int> {
    if Filter(items, keyFn, k) == [] then None else Some(|Filter(items, keyFn, k)|)
  }

  /** `countBy(items, keyFn)`: for each key, the size of its `groupBy` group. */
  method CountBy<T>(items: seq<T>, keyFn: T -> string) returns (counts: Dict<string, int>)
    ensures DistinctKeys(counts)
    ensures forall k :: Find(counts, k) == Counted(items, keyFn, k)
    ensures SumCounts(counts) == |items|
  {
    counts := [];
    for i := 0 to |items|
      invariant DistinctKeys(counts)
      invariant forall k :: Find(counts, k) == Counted(items[..i], keyFn, k)
      invariant SumCounts(counts) == i
    {
      var key := keyFn(items[i]);
      PutKeys(counts, key, Find(counts, key).GetOr(0) + 1);
      SumPut(counts, key, Find(counts, key).GetOr(0) + 1);
      ghost var before := counts;
      counts := Put(counts, key, Find(counts, key).GetOr(0) + 1);
      assert items[..i + 1][..i] == items[..i];
      forall k ensures Find(counts, k) == Counted(items[..i + 1], keyFn, k) {
        FindPut(before, key, Find(before, key).GetOr(0) + 1, k);
      }
    }
    assert items[..|items|] == items;
  }
}
