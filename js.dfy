/** The JavaScript values the modelled code inspects at run time: plugin
    instances checked by duck typing, specifications read from YAML, bundles
    read from JSON, template data and HTTP request bodies.

    Objects are association lists, so that the order `Object.keys` and
    `Object.entries` report is kept. Numbers are integers. */
module Js {
  import opened Wrappers

  datatype Value =
    | Undefined
    | Null
    | Bool(b: bool)
    | Num(n: int)
    | Str(s: string)
    | Arr(items: seq<Value>)
    | Obj(props: seq<Prop>)
    | Fn

  datatype Prop = Prop(key: string, val: Value)

  // ---------------------------------------------------------------
  // Truthiness and types
  // ---------------------------------------------------------------

  /** `!!v`: undefined, null, false, 0 and "" are the falsy values. */
  predicate Truthy(v: Value) {
    match v
    case Undefined => false
    case Null => false
    case Bool(b) => b
    case Num(n) => n != 0
    case Str(s) => s != ""
    case _ => true
  }

  /** `v == null`, the test behind `??` and `?.`. */
  predicate Nullish(v: Value) {
    v.Undefined? || v.Null?
  }

  /** `typeof v`. */
  function TypeOf(v: Value): string {
    match v
    case Undefined => "undefined"
    case Null => "object"
    case Bool(_) => "boolean"
    case Num(_) => "number"
    case Str(_) => "string"
    case Arr(_) => "object"
    case Obj(_) => "object"
    case Fn => "function"
  }

  /** `a ?? b` */
  function Coalesce(a: Value, b: Value): Value {
    if Nullish(a) then b else a
  }

  /** `a || b` */
  function Or(a: Value, b: Value): Value {
    if Truthy(a) then a else b
  }

  /** `n || d` for a number that may be absent: an absent or zero number
      gives `d`, any other is kept. */
  function OrNum(n: Option<int>, d: int): (r: int)
    ensures n.Some? && n.value != 0 ==> r == n.value
    ensures n.None? || n.value == 0 ==> r == d
  {
    if n.Some? && n.value != 0 then n.value else d
  }

  // ---------------------------------------------------------------
  // Objects as association lists
  // ---------------------------------------------------------------

  function Keys(props: seq<Prop>): (ks: seq<string>)
    ensures |ks| == |props|
    ensures forall i :: 0 <= i < |props| ==> ks[i] == props[i].key
  {
    if props == [] then [] else [props[0].key] + Keys(props[1..])
  }

  /** JavaScript objects never hold the same key twice. */
  predicate DistinctKeys(props: seq<Prop>) {
    forall i, j :: 0 <= i < j < |props| ==> props[i].key != props[j].key
  }

  /** `obj[k]` on an object: the value stored under `k`, or undefined. */
  function Lookup(props: seq<Prop>, k: string): Value {
    if props == [] then Undefined
    else if props[0].key == k then props[0].val
    else Lookup(props[1..], k)
  }

  /** Reading a key stored at a known position. */
  lemma {:induction false} LookupAt(props: seq<Prop>, i: nat)
    requires i < |props| && DistinctKeys(props)
    ensures Lookup(props, props[i].key) == props[i].val
  {
    if i > 0 {
      assert props[1..][i - 1] == props[i];
      LookupAt(props[1..], i - 1);
    }
  }

  lemma {:induction false} LookupAbsent(props: seq<Prop>, k: string)
    requires k !in Keys(props)
    ensures Lookup(props, k) == Undefined
  {
    if props != [] {
      assert Keys(props) == [props[0].key] + Keys(props[1..]);
      LookupAbsent(props[1..], k);
    }
  }

  /** `obj[k] = v`: an existing key keeps its place, a new key goes last. */
  function Assign(props: seq<Prop>, k: string, v: Value): seq<Prop> {
    if props == [] then [Prop(k, v)]
    else if props[0].key == k then [Prop(k, v)] + props[1..]
    else [props[0]] + Assign(props[1..], k, v)
  }

  /** `{...a, ...b}` */
  function Spread(a: seq<Prop>, b: seq<Prop>): seq<Prop>
    decreases |b|
  {
    if b == [] then a else Spread(Assign(a, b[0].key, b[0].val), b[1..])
  }

  lemma {:induction false} LookupAssign(props: seq<Prop>, k: string, v: Value, j: string)
    ensures Lookup(Assign(props, k, v), j) == if j == k then v else Lookup(props, j)
  {
    if props != [] && props[0].key != k {
      LookupAssign(props[1..], k, v, j);
    }
  }

  lemma {:induction false} KeysAssign(props: seq<Prop>, k: string, v: Value)
    ensures Keys(Assign(props, k, v)) == if k in Keys(props) then Keys(props) else Keys(props) + [k]
  {
    if props != [] && props[0].key != k {
      KeysAssign(props[1..], k, v);
      assert Keys(props) == [props[0].key] + Keys(props[1..]);
    }
  }

  lemma {:induction false} DistinctAssign(props: seq<Prop>, k: string, v: Value)
    requires DistinctKeys(props)
    ensures DistinctKeys(Assign(props, k, v))
  {
    KeysAssign(props, k, v);
    var r := Assign(props, k, v);
    forall i, j | 0 <= i < j < |r| ensures r[i].key != r[j].key {
      assert Keys(r)[i] == r[i].key && Keys(r)[j] == r[j].key;
      if k in Keys(props) {
        assert Keys(r)[i] == props[i].key && Keys(r)[j] == props[j].key;
      } else if j == |props| {
        assert Keys(r)[i] == Keys(props)[i];
      } else {
        assert Keys(r)[i] == props[i].key && Keys(r)[j] == props[j].key;
      }
    }
  }

  /** The values spread last win; keys of `a` keep their place. */
  lemma {:induction false} LookupSpread(a: seq<Prop>, b: seq<Prop>, k: string)
    requires DistinctKeys(b)
    ensures Lookup(Spread(a, b), k) == if k in Keys(b) then Lookup(b, k) else Lookup(a, k)
    decreases |b|
  {
    if b != [] {
      assert DistinctKeys(b[1..]) by {
        forall i, j | 0 <= i < j < |b[1..]| ensures b[1..][i].key != b[1..][j].key {
          assert b[1..][i] == b[i + 1] && b[1..][j] == b[j + 1];
        }
      }
      LookupSpread(Assign(a, b[0].key, b[0].val), b[1..], k);
      LookupAssign(a, b[0].key, b[0].val, k);
      assert Keys(b) == [b[0].key] + Keys(b[1..]);
      if k == b[0].key {
        assert k !in Keys(b[1..]) by {
          forall i | 0 <= i < |b[1..]| ensures Keys(b[1..])[i] != k {
            assert b[1..][i] == b[i + 1];
          }
        }
      }
    }
  }

  lemma {:induction false} DistinctSpread(a: seq<Prop>, b: seq<Prop>)
    requires DistinctKeys(a)
    ensures DistinctKeys(Spread(a, b))
    decreases |b|
  {
    if b != [] {
      DistinctAssign(a, b[0].key, b[0].val);
      DistinctSpread(Assign(a, b[0].key, b[0].val), b[1..]);
    }
  }

  /** `v.k` on any value: reading a property of null or undefined throws a
      TypeError (None here); other primitives have no own properties. */
  function Get(v: Value, k: string): Option<Value> {
    match v
    case Undefined => None
    case Null => None
    case Obj(props) => Some(Lookup(props, k))
    case _ => Some(Undefined)
  }

  /** The TypeError thrown by `v.k` when `v` is null or undefined. */
  function ReadError(v: Value, k: string): string {
    "Cannot read properties of " + (if v.Null? then "null" else "undefined") + " (reading '" + k + "')"
  }

  /** `v?.k` */
  function OptGet(v: Value, k: string): Value {
    match v
    case Obj(props) => Lookup(props, k)
    case _ => Undefined
  }

  // ---------------------------------------------------------------
  // Strings
  // ---------------------------------------------------------------

  /** A `slice` bound resolved against a length: negative bounds count from
      the end, and every bound is clamped to `[0, len]`. */
  function RelIndex(i: int, len: nat): (k: nat)
    ensures k <= len
    ensures 0 <= i <= len ==> k == i
  {
    if i < 0 then (if len + i < 0 then 0 else len + i)
    else if i > len then len
    else i
  }

  /** `s.slice(start, end)` on an array or a string; an absent bound is
      `undefined`, which means the start or the end. */
  function Slice<T>(s: seq<T>, start: Option<int>, end: Option<int>): (r: seq<T>)
    ensures |r| <= |s|
  {
    var a := RelIndex(start.GetOr(0), |s|);
    var b := if end.None? then |s| else RelIndex(end.value, |s|);
    if a < b then s[a..b] else []
  }

  /** A slice is a contiguous stretch of the list. */
  lemma SliceContiguous<T>(s: seq<T>, start: Option<int>, end: Option<int>)
    ensures exists a, b :: 0 <= a <= b <= |s| && Slice(s, start, end) == s[a..b]
  {
    var a := RelIndex(start.GetOr(0), |s|);
    var b := if end.None? then |s| else RelIndex(end.value, |s|);
    if a < b {
      assert Slice(s, start, end) == s[a..b];
    } else {
      assert Slice(s, start, end) == s[a..a];
    }
  }

  /** `s.slice(0, n)` for `n >= 0`: the first `n` elements, or all of them. */
  lemma SliceFromStart<T>(s: seq<T>, n: int)
    requires n >= 0
    ensures Slice(s, Some(0), Some(n)) == s[..if n < |s| then n else |s|]
  {
  }

  /** `s.startsWith(p)` */
  predicate StartsWith(s: string, p: string) {
    |p| <= |s| && s[..|p|] == p
  }

  /** `s.endsWith(p)` */
  predicate EndsWith(s: string, p: string) {
    |p| <= |s| && s[|s| - |p|..] == p
  }

  /** `s.includes(t)` */
  predicate Contains(s: string, t: string)
    decreases |s|
  {
    StartsWith(s, t) || (s != [] && Contains(s[1..], t))
  }

  lemma {:induction false} ContainsAt(s: string, t: string, i: nat)
    requires i + |t| <= |s| && s[i..i + |t|] == t
    ensures Contains(s, t)
    decreases i
  {
    if i > 0 {
      assert s[1..][i - 1..i - 1 + |t|] == s[i..i + |t|];
      ContainsAt(s[1..], t, i - 1);
    } else {
      assert s[..|t|] == t;
    }
  }

  /** `xs.join(sep)` */
  function Join(xs: seq<string>, sep: string): string {
    if xs == [] then ""
    else if |xs| == 1 then xs[0]
    else xs[0] + sep + Join(xs[1..], sep)
  }

  /** `s.split(c)` for a one-character separator. */
  function Split(s: string, c: char): (parts: seq<string>)
    ensures |parts| >= 1
    decreases |s|
  {
    if s == [] then [""]
    else if s[0] == c then [""] + Split(s[1..], c)
    else var rest := Split(s[1..], c); [[s[0]] + rest[0]] + rest[1..]
  }

  lemma {:induction false} SplitNoSeparator(s: string, c: char)
    ensures forall i :: 0 <= i < |Split(s, c)| ==> c !in Split(s, c)[i]
    decreases |s|
  {
    if s != [] {
      SplitNoSeparator(s[1..], c);
    }
  }

  /** Splitting and joining again on the same character gives the string back. */
  lemma {:induction false} JoinSplit(s: string, c: char)
    ensures Join(Split(s, c), [c]) == s
    decreases |s|
  {
    if s != [] {
      JoinSplit(s[1..], c);
      var rest := Split(s[1..], c);
      if s[0] == c {
        assert Split(s, c) == [""] + rest;
        assert Join([""] + rest, [c]) == "" + [c] + Join(rest, [c]);
      } else {
        var parts := Split(s, c);
        assert parts == [[s[0]] + rest[0]] + rest[1..];
        if |rest| == 1 {
          assert parts == [[s[0]] + rest[0]];
        } else {
          assert parts[1..] == rest[1..];
          assert Join(rest, [c]) == rest[0] + [c] + Join(rest[1..], [c]);
        }
      }
    }
  }

  lemma {:induction false} SplitWithout(s: string, c: char)
    requires c !in s
    ensures Split(s, c) == [s]
    decreases |s|
  {
    if s != [] {
      assert c !in s[1..] by { assert forall x :: x in s[1..] ==> x in s; }
      SplitWithout(s[1..], c);
      assert [s[0]] + s[1..] == s;
    }
  }

  lemma {:induction false} SplitAfter(a: string, b: string, c: char)
    requires c !in a
    ensures Split(a + [c] + b, c) == [a] + Split(b, c)
    decreases |a|
  {
    var s := a + [c] + b;
    if a == [] {
      assert s == [c] + b && s[1..] == b;
    } else {
      assert s[0] == a[0] && s[1..] == a[1..] + [c] + b;
      assert c !in a[1..] by { assert forall x :: x in a[1..] ==> x in a; }
      SplitAfter(a[1..], b, c);
      assert [a[0]] + a[1..] == a;
    }
  }

  /** The last piece of a split is what follows the last separator. */
  lemma {:induction false} SplitLast(a: string, b: string, c: char)
    requires c !in b
    ensures |Split(a + [c] + b, c)| >= 2
    ensures Split(a + [c] + b, c)[|Split(a + [c] + b, c)| - 1] == b
    decreases |a|
  {
    var s := a + [c] + b;
    if a == [] {
      assert s == [c] + b && s[1..] == b;
      SplitWithout(b, c);
    } else {
      assert s[0] == a[0] && s[1..] == a[1..] + [c] + b;
      SplitLast(a[1..], b, c);
    }
  }

  /** Joining pieces that do not contain the separator and splitting again
      gives the pieces back. */
  lemma {:induction false} SplitJoin(xs: seq<string>, c: char)
    requires |xs| >= 1
    requires forall i :: 0 <= i < |xs| ==> c !in xs[i]
    ensures Split(Join(xs, [c]), c) == xs
  {
    if |xs| == 1 {
      SplitWithout(xs[0], c);
    } else {
      SplitJoin(xs[1..], c);
      assert Join(xs, [c]) == xs[0] + [c] + Join(xs[1..], [c]);
      SplitAfter(xs[0], Join(xs[1..], [c]), c);
      assert [xs[0]] + xs[1..] == xs;
    }
  }

  /** `path.join(dir, name)` for a directory and a plain file name; the
      segment normalisation of `path.join` is not modelled. */
  function PathJoin(dir: string, name: string): (p: string)
    ensures EndsWith(p, "/" + name)
  {
    var p := dir + "/" + name;
    assert p[|p| - |"/" + name|..] == "/" + name;
    p
  }

  /** `s.split(c)[0]`: everything before the first separator. */
  function Before(s: string, c: char): string {
    Split(s, c)[0]
  }

  /** `s.split(c).slice(1).join(c)`: everything after the first separator,
      or "" when there is none. */
  function After(s: string, c: char): string {
    Join(Split(s, c)[1..], [c])
  }

  lemma {:induction false} BeforeAfter(s: string, c: char)
    ensures c !in Before(s, c)
    ensures c in s ==> s == Before(s, c) + [c] + After(s, c)
    ensures c !in s ==> Before(s, c) == s && After(s, c) == ""
    decreases |s|
  {
    SplitNoSeparator(s, c);
    if s != [] {
      BeforeAfter(s[1..], c);
      if s[0] == c {
        assert Split(s, c) == [""] + Split(s[1..], c);
        assert Split(s, c)[1..] == Split(s[1..], c);
        JoinSplit(s[1..], c);
      } else {
        var rest := Split(s[1..], c);
        assert Split(s, c)[1..] == rest[1..];
        assert s == [s[0]] + s[1..];
      }
    }
  }

  /** The characters `trim` strips: JavaScript's white space (tab, vertical
      tab, form feed, the byte-order mark and the space separators) and its
      line terminators. */
  predicate IsSpace(ch: char) {
    ch == ' ' || ch == '\t' || ch == '\n' || ch == '\r' || ch == '\U{000B}' || ch == '\U{000C}'
    || ch == '\U{00A0}' || ch == '\U{1680}' || '\U{2000}' <= ch <= '\U{200A}'
    || ch == '\U{2028}' || ch == '\U{2029}' || ch == '\U{202F}' || ch == '\U{205F}'
    || ch == '\U{3000}' || ch == '\U{FEFF}'
  }

  /** `s.trim()` */
  function Trim(s: string): (t: string)
    ensures |t| <= |s|
    ensures t != [] ==> !IsSpace(t[0]) && !IsSpace(t[|t| - 1])
    decreases |s|
  {
    if s == [] then s
    else if IsSpace(s[0]) then Trim(s[1..])
    else if IsSpace(s[|s| - 1]) then Trim(s[..|s| - 1])
    else s
  }

  /** `s.trim().length === 0` */
  predicate Blank(s: string) {
    forall i :: 0 <= i < |s| ==> IsSpace(s[i])
  }

  lemma {:induction false} TrimEmptyIffBlank(s: string)
    ensures Trim(s) == "" <==> Blank(s)
    decreases |s|
  {
    if s != [] {
      if IsSpace(s[0]) {
        TrimEmptyIffBlank(s[1..]);
        assert Blank(s) <==> Blank(s[1..]) by {
          if Blank(s[1..]) {
            forall i | 0 <= i < |s| ensures IsSpace(s[i]) {
              if i > 0 { assert s[i] == s[1..][i - 1]; }
            }
          }
          if Blank(s) {
            forall i | 0 <= i < |s[1..]| ensures IsSpace(s[1..][i]) {
              assert s[1..][i] == s[i + 1];
            }
          }
        }
      } else if IsSpace(s[|s| - 1]) {
        TrimEmptyIffBlank(s[..|s| - 1]);
        assert !Blank(s[..|s| - 1]) by { assert s[..|s| - 1][0] == s[0]; }
      }
    }
  }

  /** Trimming removes exactly the blank text around a core that starts
      and ends with a non-blank character. */
  lemma {:induction false} TrimAround(a: string, core: string, b: string)
    requires Blank(a) && Blank(b)
    requires core != [] && !IsSpace(core[0]) && !IsSpace(core[|core| - 1])
    ensures Trim(a + core + b) == core
    decreases |a| + |b|
  {
    var s := a + core + b;
    if a != [] {
      assert s[1..] == a[1..] + core + b;
      assert Blank(a[1..]) by {
        forall i | 0 <= i < |a[1..]| ensures IsSpace(a[1..][i]) { assert a[1..][i] == a[i + 1]; }
      }
      TrimAround(a[1..], core, b);
    } else if b != [] {
      assert s[0] == core[0];
      assert s[..|s| - 1] == [] + core + b[..|b| - 1];
      assert Blank(b[..|b| - 1]);
      TrimAround([], core, b[..|b| - 1]);
    } else {
      assert s == core;
    }
  }

  function LowerChar(ch: char): char {
    if 'A' <= ch <= 'Z' then (ch as int + 32) as char else ch
  }

  function UpperChar(ch: char): char {
    if 'a' <= ch <= 'z' then (ch as int - 32) as char else ch
  }

  /** `s.toLowerCase()` */
  function Lower(s: string): (t: string)
    ensures |t| == |s|
    ensures forall i :: 0 <= i < |s| ==> t[i] == LowerChar(s[i])
  {
    if s == [] then [] else [LowerChar(s[0])] + Lower(s[1..])
  }

  /** `s.toUpperCase()` */
  function Upper(s: string): (t: string)
    ensures |t| == |s|
    ensures forall i :: 0 <= i < |s| ==> t[i] == UpperChar(s[i])
  {
    if s == [] then [] else [UpperChar(s[0])] + Upper(s[1..])
  }

  /** `s.replace(/x/g, y)` for single characters. */
  function ReplaceChar(s: string, x: char, y: char): (t: string)
    ensures |t| == |s|
    ensures forall i :: 0 <= i < |s| ==> t[i] == (if s[i] == x then y else s[i])
  {
    if s == [] then [] else [if s[0] == x then y else s[0]] + ReplaceChar(s[1..], x, y)
  }

  function DigitChar(d: nat): char
    requires d < 10
  {
    "0123456789"[d]
  }

  predicate IsDigit(ch: char) {
    '0' <= ch <= '9'
  }

  /** `String(n)` for a whole number. */
  function NatToString(n: nat): (s: string)
    ensures s != []
    ensures forall i :: 0 <= i < |s| ==> IsDigit(s[i])
  {
    if n < 10 then [DigitChar(n)] else NatToString(n / 10) + [DigitChar(n % 10)]
  }

  function IntToString(n: int): string {
    if n < 0 then "-" + NatToString(-n) else NatToString(n)
  }

  /** `String(v)` */
  function ToStr(v: Value): string {
    match v
    case Undefined => "undefined"
    case Null => "null"
    case Bool(b) => if b then "true" else "false"
    case Num(n) => IntToString(n)
    case Str(s) => s
    case Arr(items) =>
      Join(seq(|items|, i requires 0 <= i < |items| =>
        if Nullish(items[i]) then "" else ToStr(items[i])), ",")
    case Obj(_) => "[object Object]"
    case Fn => "function"
  }

  // ---------------------------------------------------------------
  // Number conversion
  // ---------------------------------------------------------------

  function DigitsEnd(s: string, i: nat): (j: nat)
    requires i <= |s|
    ensures i <= j <= |s|
    ensures forall k :: i <= k < j ==> IsDigit(s[k])
    ensures j < |s| ==> !IsDigit(s[j])
    decreases |s| - i
  {
    if i < |s| && IsDigit(s[i]) then DigitsEnd(s, i + 1) else i
  }

  /** `e` or `E`, an optional sign and at least one digit, ending the string. */
  predicate ExponentPart(s: string, j: nat)
    requires j < |s|
  {
    var k := if j + 1 < |s| && (s[j + 1] == '+' || s[j + 1] == '-') then j + 2 else j + 1;
    (s[j] == 'e' || s[j] == 'E') && k < |s| && DigitsEnd(s, k) == |s|
  }

  /** `s[i..]` is an unsigned decimal literal: `Infinity`, or digits with at
      most one decimal point and at least one digit, then an optional exponent. */
  predicate UnsignedDecimal(s: string, i: nat)
    requires i <= |s|
  {
    s[i..] == "Infinity"
    || (var a := DigitsEnd(s, i);
        var b := if a < |s| && s[a] == '.' then DigitsEnd(s, a + 1) else a;
        (a > i || b > a + 1) && (b == |s| || ExponentPart(s, b)))
  }

  predicate IsHexDigit(ch: char) {
    IsDigit(ch) || 'a' <= ch <= 'f' || 'A' <= ch <= 'F'
  }

  /** `0x`, `0o` or `0b` (either case) followed by at least one digit of that base. */
  predicate NonDecimalLiteral(s: string) {
    |s| >= 3 && s[0] == '0'
    && (if s[1] == 'x' || s[1] == 'X' then forall k :: 2 <= k < |s| ==> IsHexDigit(s[k])
        else if s[1] == 'o' || s[1] == 'O' then forall k :: 2 <= k < |s| ==> '0' <= s[k] <= '7'
        else if s[1] == 'b' || s[1] == 'B' then forall k :: 2 <= k < |s| ==> s[k] == '0' || s[k] == '1'
        else false)
  }

  /** A literal `Number(s)` accepts once trimmed (the string numeric literal
      of section 7.1.4.1 of ECMA-262): an optionally signed decimal literal
      or `Infinity`, or an unsigned hexadecimal, octal or binary integer. */
  predicate DecimalLiteral(s: string) {
    var start := if |s| > 0 && (s[0] == '+' || s[0] == '-') then 1 else 0;
    UnsignedDecimal(s, start) || NonDecimalLiteral(s)
  }

  /** `!isNaN(Number(s))` for a string: blank strings convert to 0. */
  predicate NumericString(s: string) {
    var t := Trim(s);
    t == "" || DecimalLiteral(t)
  }

  /** Exponents, hexadecimal, octal and binary prefixes, `Infinity` and a
      leading point are numbers. */
  lemma NumericLiteralForms()
    ensures DecimalLiteral("1e3") && DecimalLiteral("0x10") && DecimalLiteral("-Infinity")
    ensures DecimalLiteral("0b101") && DecimalLiteral(".5")
  {
    assert DigitsEnd("1e3", 0) == 1 && DigitsEnd("1e3", 2) == 3;
    assert DigitsEnd(".5", 0) == 0 && DigitsEnd(".5", 1) == 2;
    assert "-Infinity"[1..] == "Infinity";
  }

  /** A dangling exponent, a signed hexadecimal literal, a lone point and
      trailing letters are not numbers. */
  lemma NonNumericLiterals()
    ensures !DecimalLiteral("1e") && !DecimalLiteral("-0x10") && !DecimalLiteral(".") && !DecimalLiteral("12px")
  {
    assert DigitsEnd("1e", 0) == 1;
    assert DigitsEnd(".", 0) == 0 && DigitsEnd(".", 1) == 1;
    assert DigitsEnd("12px", 0) == 2;
    assert DigitsEnd("-0x10", 1) == 2;
    assert "-0x10"[1..] != "Infinity" && "12px"[0..] != "Infinity";
  }

  /** Surrounding white space, Unicode spaces included, is trimmed before
      the conversion, and a string of spaces converts to 0. */
  lemma NumericStringTrims()
    ensures NumericString(" 2e1\U{00A0}") && NumericString("\U{3000}\U{FEFF}")
  {
    TrimAround(" ", "2e1", "\U{00A0}");
    assert DigitsEnd("2e1", 0) == 1 && DigitsEnd("2e1", 2) == 3;
    TrimEmptyIffBlank("\U{3000}\U{FEFF}");
  }

  /** `!isNaN(Number(v))` */
  predicate Numeric(v: Value) {
    match v
    case Undefined => false
    case Null => true
    case Bool(_) => true
    case Num(_) => true
    case Str(s) => NumericString(s)
    case _ => NumericString(ToStr(v))
  }

  function DigitsValue(s: string): nat
    requires forall k :: 0 <= k < |s| ==> IsDigit(s[k])
  {
    if s == [] then 0
    else
      assert IsDigit(s[|s| - 1]);
      DigitsValue(s[..|s| - 1]) * 10 + (s[|s| - 1] as int - '0' as int)
  }

  /** `Number(s)` for a string holding an optionally signed whole number. */
  function ParseInt(s: string): Option<int> {
    var t := Trim(s);
    var start := if |t| > 0 && (t[0] == '+' || t[0] == '-') then 1 else 0;
    if t == "" then Some(0)
    else if DigitsEnd(t, start) == |t| && |t| > start then
      var m: int := DigitsValue(t[start..]);
      Some(if t[0] == '-' then -m else m)
    else None
  }

  /** `Number(v) || 0`; an array is converted through its string form. */
  function NumberOrZero(v: Value): int {
    match v
    case Num(n) => n
    case Bool(b) => if b then 1 else 0
    case Str(s) => (match ParseInt(s) case Some(n) => n case None => 0)
    case Arr(_) => (match ParseInt(ToStr(v)) case Some(n) => n case None => 0)
    case _ => 0
  }

  /** A one-element array converts as its element's text does, and an
      empty one to 0. */
  lemma ArrayNumbers()
    ensures NumberOrZero(Arr([Num(5)])) == 5 && NumberOrZero(Arr([Str("-7")])) == -7
    ensures NumberOrZero(Arr([])) == 0
  {
    assert ToStr(Arr([Num(5)])) == "5";
    assert Trim("5") == "5" && DigitsEnd("5", 0) == 1 && DigitsValue("5") == 5;
    assert ToStr(Arr([Str("-7")])) == "-7";
    assert Trim("-7") == "-7" && DigitsEnd("-7", 1) == 2 && DigitsValue("-7"[1..]) == 7;
    assert ToStr(Arr([])) == "";
  }

  /** An array of two or more elements has a comma in its text, which is
      not a number, so it converts to 0. */
  lemma LongArrayIsZero()
    ensures NumberOrZero(Arr([Num(1), Num(2)])) == 0
  {
    var parts := seq(2, i requires 0 <= i < 2 =>
      if Nullish([Num(1), Num(2)][i]) then "" else ToStr([Num(1), Num(2)][i]));
    assert parts == ["1", "2"];
    assert Join(parts, ",") == "1" + "," + Join(["2"], ",");
    assert ToStr(Arr([Num(1), Num(2)])) == "1,2";
    assert Trim("1,2") == "1,2" && DigitsEnd("1,2", 0) == 1;
  }
}
