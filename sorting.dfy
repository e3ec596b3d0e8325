/** The two uses the modelled code makes of `Array.prototype.sort`, which is
    stable: pairs ordered by their count, largest first, and numbers in
    ascending order. */
module Sorting {

  predicate NonIncreasing<T>(es: seq<(T, int)>) {
    forall i, j :: 0 <= i < j < |es| ==> es[i].1 >= es[j].1
  }

  /** Places `e` after every leading pair whose count is at least its own,
      so equal counts keep their input order. */
  function InsertDesc<T>(sorted: seq<(T, int)>, e: (T, int)): (r: seq<(T, int)>)
    ensures |r| == |sorted| + 1
  {
    if sorted == [] then [e]
    else if sorted[0].1 >= e.1 then [sorted[0]] + InsertDesc(sorted[1..], e)
    else [e] + sorted
  }

  /** Inserting adds `e` and keeps every other pair. */
  lemma {:induction false} InsertDescPerm<T>(sorted: seq<(T, int)>, e: (T, int))
    ensures multiset(InsertDesc(sorted, e)) == multiset(sorted) + multiset{e}
    decreases |sorted|
  {
    if sorted != [] && sorted[0].1 >= e.1 {
      InsertDescPerm(sorted[1..], e);
      assert sorted == [sorted[0]] + sorted[1..];
    }
  }

  /** Inserting into a list ordered by count keeps it ordered. */
  lemma {:induction false} InsertDescOrdered<T>(sorted: seq<(T, int)>, e: (T, int))
    requires NonIncreasing(sorted)
    ensures NonIncreasing(InsertDesc(sorted, e))
    ensures InsertDesc(sorted, e)[0] == if sorted != [] && sorted[0].1 >= e.1 then sorted[0] else e
    decreases |sorted|
  {
    if sorted != [] && sorted[0].1 >= e.1 {
      var rest := InsertDesc(sorted[1..], e);
      InsertDescOrdered(sorted[1..], e);
      var r := [sorted[0]] + rest;
      assert InsertDesc(sorted, e) == r;
      forall i, j | 0 <= i < j < |r| ensures r[i].1 >= r[j].1 {
        if i > 0 { assert r[i] == rest[i - 1] && r[j] == rest[j - 1]; }
        else { assert r[j] == rest[j - 1] && rest[0].1 >= rest[j - 1].1; }
      }
    }
  }

  /** `.sort((a, b) => b[1] - a[1])` */
  function SortDesc<T>(es: seq<(T, int)>): (r: seq<(T, int)>)
    ensures NonIncreasing(r)
    ensures multiset(r) == multiset(es)
    ensures |r| == |es|
  {
    if es == [] then []
    else
      assert es == es[..|es| - 1] + [es[|es| - 1]];
      InsertDescOrdered(SortDesc(es[..|es| - 1]), es[|es| - 1]);
      InsertDescPerm(SortDesc(es[..|es| - 1]), es[|es| - 1]);
      InsertDesc(SortDesc(es[..|es| - 1]), es[|es| - 1])
  }

  /** The items of keyed pairs, without their keys. */
  function Firsts<T>(es: seq<(T, int)>): (xs: seq<T>)
    ensures |xs| == |es|
  {
    if es == [] then [] else [es[0].0] + Firsts(es[1..])
  }

  /** Inserting a pair adds its item to the items, and nothing else. */
  lemma {:induction false} InsertDescFirsts<T>(sorted: seq<(T, int)>, e: (T, int))
    ensures multiset(Firsts(InsertDesc(sorted, e))) == multiset(Firsts(sorted)) + multiset{e.0}
    decreases |sorted|
  {
    if sorted != [] && sorted[0].1 >= e.1 {
      var head, tail := sorted[0], sorted[1..];
      var rest := InsertDesc(tail, e);
      calc {
        multiset(Firsts(InsertDesc(sorted, e)));
        == { assert InsertDesc(sorted, e) == [head] + rest; }
        multiset(Firsts([head] + rest));
        == { FirstsCons(head, rest); }
        multiset{head.0} + multiset(Firsts(rest));
        == { InsertDescFirsts(tail, e); }
        multiset{head.0} + multiset(Firsts(tail)) + multiset{e.0};
        == { FirstsCons(head, tail); assert sorted == [head] + tail; }
        multiset(Firsts(sorted)) + multiset{e.0};
      }
    } else {
      assert InsertDesc(sorted, e) == [e] + sorted;
      FirstsCons(e, sorted);
    }
  }

  /** Sorting by count permutes the items along with their pairs. */
  lemma {:induction false} SortDescFirsts<T>(es: seq<(T, int)>)
    ensures multiset(Firsts(SortDesc(es))) == multiset(Firsts(es))
    decreases |es|
  {
    if es != [] {
      var init, last := es[..|es| - 1], es[|es| - 1];
      var s := SortDesc(init);
      calc {
        multiset(Firsts(SortDesc(es)));
        == { assert SortDesc(es) == InsertDesc(s, last); }
        multiset(Firsts(InsertDesc(s, last)));
        == { InsertDescFirsts(s, last); }
        multiset(Firsts(s)) + multiset{last.0};
        == { SortDescFirsts(init); }
        multiset(Firsts(init)) + multiset{last.0};
        == { FirstsSnoc(init, last); assert es == init + [last]; }
        multiset(Firsts(es));
      }
    }
  }

  lemma FirstsSnoc<T>(s: seq<(T, int)>, x: (T, int))
    ensures multiset(Firsts(s + [x])) == multiset(Firsts(s)) + multiset{x.0}
  {
    FirstsAppend(s, [x]);
    assert Firsts([x]) == [x.0];
  }

  lemma FirstsCons<T>(x: (T, int), s: seq<(T, int)>)
    ensures multiset(Firsts([x] + s)) == multiset{x.0} + multiset(Firsts(s))
  {
    assert ([x] + s)[1..] == s;
  }

  lemma {:induction false} FirstsAppend<T>(x: seq<(T, int)>, y: seq<(T, int)>)
    ensures Firsts(x + y) == Firsts(x) + Firsts(y)
    decreases |x|
  {
    if x != [] {
      FirstsAppend(x[1..], y);
      assert (x + y)[0] == x[0];
      assert (x + y)[1..] == x[1..] + y;
    } else {
      assert x + y == y;
    }
  }

  lemma {:induction false} FirstsAt<T>(es: seq<(T, int)>)
    ensures forall i :: 0 <= i < |es| ==> Firsts(es)[i] == es[i].0
    decreases |es|
  {
    if es != [] {
      FirstsAt(es[1..]);
    }
  }

  lemma PrefixMultiset<T>(s: seq<T>, b: nat)
    requires b <= |s|
    ensures multiset(s[..b]) <= multiset(s)
  {
    assert s == s[..b] + s[b..];
  }

  predicate Ascending(xs: seq<int>) {
    forall i, j :: 0 <= i < j < |xs| ==> xs[i] <= xs[j]
  }

  function InsertAsc(sorted: seq<int>, x: int): (r: seq<int>)
    ensures |r| == |sorted| + 1
  {
    if sorted == [] then [x]
    else if sorted[0] <= x then [sorted[0]] + InsertAsc(sorted[1..], x)
    else [x] + sorted
  }

  lemma {:induction false} InsertAscPerm(sorted: seq<int>, x: int)
    ensures multiset(InsertAsc(sorted, x)) == multiset(sorted) + multiset{x}
    decreases |sorted|
  {
    if sorted != [] && sorted[0] <= x {
      InsertAscPerm(sorted[1..], x);
      assert sorted == [sorted[0]] + sorted[1..];
    }
  }

  lemma {:induction false} InsertAscOrdered(sorted: seq<int>, x: int)
    requires Ascending(sorted)
    ensures Ascending(InsertAsc(sorted, x))
    ensures InsertAsc(sorted, x)[0] == if sorted != [] && sorted[0] <= x then sorted[0] else x
    decreases |sorted|
  {
    if sorted != [] && sorted[0] <= x {
      var rest := InsertAsc(sorted[1..], x);
      InsertAscOrdered(sorted[1..], x);
      var r := [sorted[0]] + rest;
      assert InsertAsc(sorted, x) == r;
      forall i, j | 0 <= i < j < |r| ensures r[i] <= r[j] {
        if i > 0 { assert r[i] == rest[i - 1] && r[j] == rest[j - 1]; }
        else { assert r[j] == rest[j - 1] && rest[0] <= rest[j - 1]; }
      }
    }
  }

  /** `[...numbers].sort((a, b) => a - b)` */
  function SortAsc(xs: seq<int>): (r: seq<int>)
    ensures Ascending(r)
    ensures multiset(r) == multiset(xs)
    ensures |r| == |xs|
  {
    if xs == [] then []
    else
      assert xs == xs[..|xs| - 1] + [xs[|xs| - 1]];
      InsertAscOrdered(SortAsc(xs[..|xs| - 1]), xs[|xs| - 1]);
      InsertAscPerm(SortAsc(xs[..|xs| - 1]), xs[|xs| - 1]);
      InsertAsc(SortAsc(xs[..|xs| - 1]), xs[|xs| - 1])
  }
}
