/** The pure template filters the report engine registers with its template
    environment: `safe`, `truncate`, `slice`, `top_entries` and `title`. */
module ReportFilters {
  import opened Wrappers
  import opened Js
  import opened Sorting

  /** The ellipsis `truncate` appends. */
  const Ellipsis: char := '\U{2026}'

  /** `String(v ?? "")`, the text most filters start from. */
  function Text(v: Value): string {
    ToStr(Coalesce(v, Str("")))
  }

  /** `safe`: nullish values print as nothing, everything else through `String`. */
  function Safe(v: Value): (s: string)
    ensures Nullish(v) ==> s == ""
    ensures v.Str? ==> s == v.s
  {
    if Nullish(v) then "" else ToStr(v)
  }

  // ---------------------------------------------------------------
  // truncate
  // ---------------------------------------------------------------

  /** `truncate(v, l)`: `String(v ?? "")`, cut to `l` characters followed by
      an ellipsis when it is longer than `l`. */
  function Truncate(v: Value, l: int): string {
    TruncateText(Text(v), l)
  }

  function TruncateText(s: string, l: int): string {
    if |s| > l then Slice(s, Some(0), Some(l)) + [Ellipsis] else s
  }

  /** `truncate` without a length argument. */
  function TruncateDefault(v: Value): string {
    Truncate(v, 100)
  }

  /** For a non-negative length the text is kept whole exactly when it fits;
      otherwise its first `l` characters are kept and the ellipsis added, so
      the result never has more than `l + 1` characters. */
  lemma TruncateShape(s: string, l: int)
    requires l >= 0
    ensures var r := TruncateText(s, l);
      (|s| <= l ==> r == s)
      && (|s| > l ==> r == s[..l] + [Ellipsis] && |r| == l + 1)
      && |r| <= l + 1
  {
    if |s| > l {
      assert Slice(s, Some(0), Some(l)) == s[..l];
      assert |TruncateText(s, l)| == l + 1;
    }
  }

  // ---------------------------------------------------------------
  // slice
  // ---------------------------------------------------------------

  /** `slice(arr, start, end)`: a non-array gives an empty list. */
  function SliceFilter(v: Value, start: Option<int>, end: Option<int>): (r: seq<Value>)
    ensures !v.Arr? ==> r == []
    ensures v.Arr? ==> exists a, b :: 0 <= a <= b <= |v.items| && r == v.items[a..b]
  {
    if v.Arr? then SliceContiguous(v.items, start, end); Slice(v.items, start, end) else []
  }

  /** With bounds inside the list, `slice` picks exactly that stretch. */
  lemma SliceWithin(items: seq<Value>, a: nat, b: nat)
    requires a <= b <= |items|
    ensures SliceFilter(Arr(items), Some(a), Some(b)) == items[a..b]
    ensures SliceFilter(Arr(items), None, None) == items
  {
  }

  // ---------------------------------------------------------------
  // top_entries
  // ---------------------------------------------------------------

  /** One `[key, count]` pair. */
  type Entry = (Value, int)

  /** The pairs destructured from one element of an array input:
      `[k, v]` takes the first two elements of an array and the first two
      characters of a string; any other element is not iterable. */
  function PairOf(item: Value): Result<(Value, Value)> {
    match item
    case Arr(xs) =>
      Ok((if |xs| > 0 then xs[0] else Undefined, if |xs| > 1 then xs[1] else Undefined))
    case Str(s) =>
      Ok((if |s| > 0 then Str([s[0]]) else Undefined, if |s| > 1 then Str([s[1]]) else Undefined))
    case _ => Err(ToStr(item) + " is not iterable")
  }

  /** `Array.isArray(input) ? input : Object.entries(input)`, as pairs. */
  function RawEntries(input: Value): Result<seq<(Value, Value)>> {
    match input
    case Arr(items) => PairsOf(items)
    case Obj(props) => Ok(seq(|props|, i requires 0 <= i < |props| => (Str(props[i].key), props[i].val)))
    case Str(s) => Ok(seq(|s|, i requires 0 <= i < |s| => (Str(NatToString(i)), Str([s[i]]))))
    case _ => Ok([])
  }

  function PairsOf(items: seq<Value>): Result<seq<(Value, Value)>> {
    if items == [] then Ok([])
    else
      var p :- PairOf(items[0]);
      var rest :- PairsOf(items[1..]);
      Ok([p] + rest)
  }

  /** `.map(([k, v]) => [k, Number(v) || 0])` */
  function Coerce(pairs: seq<(Value, Value)>): (es: seq<Entry>)
    ensures |es| == |pairs|
    ensures forall i :: 0 <= i < |pairs| ==> es[i] == (pairs[i].0, NumberOrZero(pairs[i].1))
  {
    if pairs == [] then [] else [(pairs[0].0, NumberOrZero(pairs[0].1))] + Coerce(pairs[1..])
  }

  /** `top_entries(input, limit)` */
  function TopEntries(input: Value, limit: int): Result<seq<Entry>> {
    if !Truthy(input) then Ok([])
    else
      var pairs :- RawEntries(input);
      Ok(Slice(SortDesc(Coerce(pairs)), Some(0), Some(limit)))
  }

  /** `top_entries` without a limit argument. */
  function TopEntriesDefault(input: Value): Result<seq<Entry>> {
    TopEntries(input, 10)
  }

  /** The first `limit` entries of the sorted list: at most `limit` of
      them, still largest first, all taken from the list. */
  lemma {:induction false} TopOfSorted(es: seq<Entry>, limit: int)
    requires limit >= 0
    ensures var r := Slice(SortDesc(es), Some(0), Some(limit));
      |r| <= limit && |r| <= |es| && NonIncreasing(r) && multiset(r) <= multiset(es)
      && r == SortDesc(es)[..|r|]
  {
    var sorted := SortDesc(es);
    var b := RelIndex(limit, |sorted|);
    var r := Slice(sorted, Some(0), Some(limit));
    assert r == sorted[..b];
    PrefixMultiset(sorted, b);
  }

  /** A successful `top_entries` gives at most `limit` pairs, largest count
      first, each a coerced pair of the input; a falsy input gives none. */
  lemma TopEntriesShape(input: Value, limit: int)
    requires limit >= 0
    requires TopEntries(input, limit).Ok?
    ensures var r := TopEntries(input, limit).value;
      |r| <= limit && NonIncreasing(r)
      && (Truthy(input) ==> multiset(r) <= multiset(Coerce(RawEntries(input).value)))
      && (!Truthy(input) ==> r == [])
  {
    if Truthy(input) {
      TopOfSorted(Coerce(RawEntries(input).value), limit);
    }
  }

  /** Every count comes from `Number(v) || 0`: an object's numeric values
      are ranked by value and anything not numeric counts as 0. */
  lemma ObjectEntriesCoerced(props: seq<Prop>)
    requires props != []
    ensures var es := Coerce(RawEntries(Obj(props)).value);
      |es| == |props|
      && forall i :: 0 <= i < |props| ==>
           es[i].0 == Str(props[i].key) && es[i].1 == NumberOrZero(props[i].val)
  {
  }

  // ---------------------------------------------------------------
  // title
  // ---------------------------------------------------------------

  /** `word.charAt(0).toUpperCase() + word.slice(1)` */
  function Capitalize(w: string): (r: string)
    ensures |r| == |w|
    ensures w != [] ==> r[0] == UpperChar(w[0])
    ensures forall i :: 0 < i < |w| ==> r[i] == w[i]
  {
    if w == [] then [] else [UpperChar(w[0])] + w[1..]
  }

  function CapitalizeAll(ws: seq<string>): (r: seq<string>)
    ensures |r| == |ws|
    ensures forall i :: 0 <= i < |ws| ==> r[i] == Capitalize(ws[i])
  {
    if ws == [] then [] else [Capitalize(ws[0])] + CapitalizeAll(ws[1..])
  }

  /** `title(v)`: lower-cases the text and capitalises every space-separated word. */
  function Title(v: Value): string {
    TitleText(Text(v))
  }

  function TitleText(s: string): string {
    Join(CapitalizeAll(Split(Lower(s), ' ')), " ")
  }

  /** The character `title` puts at position `i` of `s`: upper case at the
      start of the text and after a space, lower case elsewhere. */
  function TitleChar(s: string, i: nat): char
    requires i < |s|
  {
    if i == 0 || s[i - 1] == ' ' then UpperChar(LowerChar(s[i])) else LowerChar(s[i])
  }

  /** Upper case at the start of `t` and after a space, as it is elsewhere. */
  function StartUpper(t: string, i: nat): char
    requires i < |t|
  {
    if i == 0 || t[i - 1] == ' ' then UpperChar(t[i]) else t[i]
  }

  /** Capitalising each word of a space-free list of words and joining them
      capitalises exactly the characters at word starts of the joined text. */
  lemma {:induction false} CapitalizedJoin(ws: seq<string>)
    requires |ws| >= 1
    requires forall k :: 0 <= k < |ws| ==> ' ' !in ws[k]
    ensures |Join(CapitalizeAll(ws), " ")| == |Join(ws, " ")|
    ensures forall i :: 0 <= i < |Join(ws, " ")| ==>
      Join(CapitalizeAll(ws), " ")[i] == StartUpper(Join(ws, " "), i)
  {
    var w := ws[0];
    assert forall k :: 0 <= k < |w| ==> w[k] != ' ' by {
      forall k | 0 <= k < |w| ensures w[k] != ' ' { assert w[k] in w; }
    }
    var cw := Capitalize(w);
    if |ws| == 1 {
      assert CapitalizeAll(ws) == [cw];
      assert Join(ws, " ") == w;
      assert Join(CapitalizeAll(ws), " ") == cw;
    } else {
      var rest := ws[1..];
      CapitalizedJoin(rest);
      var t := Join(ws, " ");
      var tr := Join(rest, " ");
      var rr := Join(CapitalizeAll(rest), " ");
      var caps := CapitalizeAll(ws);
      assert t == w + " " + tr;
      assert caps[1..] == CapitalizeAll(rest);
      assert caps[0] == cw;
      var r := Join(caps, " ");
      assert r == cw + " " + rr;
      forall i | 0 <= i < |t|
        ensures r[i] == StartUpper(t, i)
      {
        if i < |w| {
          assert r[i] == cw[i] && t[i] == w[i];
          if i > 0 { assert t[i - 1] == w[i - 1]; }
        } else if i == |w| {
          assert r[i] == ' ' && t[i] == ' ';
          if i > 0 { assert t[i - 1] == w[i - 1]; }
        } else {
          var j := i - |w| - 1;
          assert r[i] == rr[j] && t[i] == tr[j];
          if j > 0 { assert t[i - 1] == tr[j - 1]; } else { assert t[i - 1] == ' '; }
        }
      }
    }
  }

  /** `title` changes no length and no space, and is determined character by
      character: upper case at the start and after a space, lower case
      elsewhere. */
  lemma TitleAt(s: string)
    ensures var r := TitleText(s);
      |r| == |s|
      && forall i :: 0 <= i < |s| ==> r[i] == TitleChar(s, i)
  {
    var low := Lower(s);
    var ws := Split(low, ' ');
    SplitNoSeparator(low, ' ');
    JoinSplit(low, ' ');
    CapitalizedJoin(ws);
    assert Join(ws, " ") == low;
    forall k | 0 <= k < |s| ensures low[k] == ' ' <==> s[k] == ' ' {
      LowerCharSpace(s[k]);
    }
  }

  lemma LowerCharSpace(c: char)
    ensures LowerChar(c) == ' ' <==> c == ' '
    ensures UpperChar(LowerChar(c)) == ' ' <==> c == ' '
    ensures LowerChar(LowerChar(c)) == LowerChar(c)
    ensures LowerChar(UpperChar(LowerChar(c))) == LowerChar(c)
  {
  }

  /** Applying `title` twice gives the same text as applying it once. */
  lemma TitleIdempotent(s: string)
    ensures TitleText(TitleText(s)) == TitleText(s)
  {
    var r := TitleText(s);
    TitleAt(s);
    TitleAt(r);
    var rr := TitleText(r);
    forall i | 0 <= i < |r| ensures rr[i] == r[i] {
      LowerCharSpace(s[i]);
      if i > 0 {
        LowerCharSpace(s[i - 1]);
        assert r[i - 1] == TitleChar(s, i - 1);
      }
    }
  }
}
