/**
  Character- and sequence-level helpers shared by the TypeScript server and the
  Python bridges: the two runtimes' whitespace sets and trimming, JavaScript's
  `slice` index rules, prefixes and substrings, joining, and the decimal
  rendering of integers.
 */
module Strings {

  /** The runtime whose notion of whitespace a trim follows. */
  datatype Runtime = JS | Python

  /** ECMAScript WhiteSpace and LineTerminator code points: what `String.prototype.trim` removes. */
  predicate IsJsSpace(c: char) {
    || c == '\t' || c == '\n' || c == '\U{B}' || c == '\U{C}' || c == '\r' || c == ' '
    || c == '\U{A0}' || c == '\U{1680}' || ('\U{2000}' <= c <= '\U{200A}')
    || c == '\U{2028}' || c == '\U{2029}' || c == '\U{202F}' || c == '\U{205F}'
    || c == '\U{3000}' || c == '\U{FEFF}'
  }

  /** Code points for which Python's `str.isspace` holds: what `str.strip()` removes. */
  predicate IsPySpace(c: char) {
    || ('\t' <= c <= '\r') || ('\U{1C}' <= c <= ' ') || c == '\U{85}' || c == '\U{A0}'
    || c == '\U{1680}' || ('\U{2000}' <= c <= '\U{200A}') || c == '\U{2028}' || c == '\U{2029}'
    || c == '\U{202F}' || c == '\U{205F}' || c == '\U{3000}'
  }

  predicate IsSpace(rt: Runtime, c: char) {
    match rt
    case JS => IsJsSpace(c)
    case Python => IsPySpace(c)
  }

  predicate AllSpace(rt: Runtime, s: string) {
    forall i :: 0 <= i < |s| ==> IsSpace(rt, s[i])
  }

  /** Neither the first nor the last character is whitespace. */
  predicate Trimmed(rt: Runtime, s: string) {
    |s| == 0 || (!IsSpace(rt, s[0]) && !IsSpace(rt, s[|s| - 1]))
  }

  /** Index of the first non-whitespace character at or after `i` (or `|s|`). */
  function SkipSpace(rt: Runtime, s: string, i: nat): (k: nat)
    requires i <= |s|
    ensures i <= k <= |s|
    ensures forall j :: i <= j < k ==> IsSpace(rt, s[j])
    ensures k < |s| ==> !IsSpace(rt, s[k])
    decreases |s| - i
  {
    if i < |s| && IsSpace(rt, s[i]) then SkipSpace(rt, s, i + 1) else i
  }

  /** End of `s[lo..e]` once its trailing whitespace is dropped. */
  function SkipSpaceBack(rt: Runtime, s: string, lo: nat, e: nat): (k: nat)
    requires lo <= e <= |s|
    ensures lo <= k <= e
    ensures forall j :: k <= j < e ==> IsSpace(rt, s[j])
    ensures k > lo ==> !IsSpace(rt, s[k - 1])
    decreases e
  {
    if e > lo && IsSpace(rt, s[e - 1]) then SkipSpaceBack(rt, s, lo, e - 1) else e
  }

  /** `s.trim()` in JavaScript, `s.strip()` in Python: the infix of `s` left once
      the whitespace at both ends is removed (see `TrimSpec`). */
  function Trim(rt: Runtime, s: string): (r: string)
    ensures Trimmed(rt, r)
    ensures |r| <= |s|
  {
    var a := SkipSpace(rt, s, 0);
    s[a..SkipSpaceBack(rt, s, a, |s|)]
  }

  /** The trim is an infix with only whitespace around it, and it is empty
      exactly when the whole string is whitespace. */
  lemma TrimSpec(rt: Runtime, s: string)
    ensures var r := Trim(rt, s);
      && (exists i :: 0 <= i <= |s| - |r| && r == s[i..i + |r|] && AllSpace(rt, s[..i]) && AllSpace(rt, s[i + |r|..]))
      && (r == "" <==> AllSpace(rt, s))
  {
    var a := SkipSpace(rt, s, 0);
    var b := SkipSpaceBack(rt, s, a, |s|);
    assert AllSpace(rt, s[..a]) && AllSpace(rt, s[a + (b - a)..]);
    assert a == b ==> AllSpace(rt, s);
  }

  /** A string that already has no surrounding whitespace is left as is. */
  lemma TrimOfTrimmed(rt: Runtime, s: string)
    requires Trimmed(rt, s)
    ensures Trim(rt, s) == s
  {
    if |s| > 0 {
      assert SkipSpace(rt, s, 0) == 0;
      assert SkipSpaceBack(rt, s, 0, |s|) == |s|;
    }
  }

  /** Trimming is idempotent. */
  lemma TrimIdempotent(rt: Runtime, s: string)
    ensures Trim(rt, Trim(rt, s)) == Trim(rt, s)
  {
    TrimOfTrimmed(rt, Trim(rt, s));
  }

  function Min(a: int, b: int): int { if a <= b then a else b }
  function Max(a: int, b: int): int { if a >= b then a else b }

  /** How JavaScript's `slice` resolves an index argument against a length:
      negative counts from the end, and the result is clamped to `[0, len]`. */
  function SliceIndex(i: int, len: nat): (k: nat)
    ensures k <= len
  {
    if i < 0 then Max(len + i, 0) else Min(i, len)
  }

  /** `s.slice(start, end)` on a JavaScript array or string. */
  function Slice<T>(s: seq<T>, start: int, end: int): seq<T> {
    var a := SliceIndex(start, |s|);
    var b := SliceIndex(end, |s|);
    if a < b then s[a..b] else []
  }

  /** `s.slice(0, n)` keeps the first `min(n, |s|)` elements. */
  lemma SliceHead<T>(s: seq<T>, n: nat)
    ensures Slice(s, 0, n) == s[..Min(n, |s|)]
  {
  }

  /** `s.slice(-n)` keeps the last `min(n, |s|)` elements, in order (for `n > 0`:
      `-0` is `0`, which keeps everything). */
  lemma SliceTail<T>(s: seq<T>, n: nat)
    requires n > 0
    ensures Slice(s, -(n as int), |s|) == s[|s| - Min(n, |s|)..]
  {
  }

  predicate IsPrefix<T(==)>(p: seq<T>, s: seq<T>) {
    |p| <= |s| && s[..|p|] == p
  }

  predicate IsSuffix<T(==)>(p: seq<T>, s: seq<T>) {
    |p| <= |s| && s[|s| - |p|..] == p
  }

  /** `t` occurs somewhere in `s` (`s.includes(t)` in JavaScript, `t in s` in Python). */
  predicate Contains<T(==)>(s: seq<T>, t: seq<T>)
    decreases |s|
  {
    IsPrefix(t, s) || (|s| > 0 && Contains(s[1..], t))
  }

  lemma {:induction false} ContainsInfix<T>(a: seq<T>, t: seq<T>, b: seq<T>)
    ensures Contains(a + t + b, t)
    decreases |a|
  {
    if |a| == 0 {
      assert a + t + b == t + b;
      assert (t + b)[..|t|] == t;
    } else {
      assert (a + t + b)[1..] == a[1..] + t + b;
      ContainsInfix(a[1..], t, b);
    }
  }

  /** Elements joined with a separator, as `Array.prototype.join` does. */
  function Join(sep: string, xs: seq<string>): string
    decreases |xs|
  {
    if |xs| == 0 then ""
    else if |xs| == 1 then xs[0]
    else xs[0] + sep + Join(sep, xs[1..])
  }

  /** A non-empty join starts with its first element. */
  lemma {:induction false} JoinStartsWithFirst(sep: string, xs: seq<string>)
    requires |xs| > 0
    ensures IsPrefix(xs[0], Join(sep, xs))
  {
    if |xs| > 1 {
      assert Join(sep, xs) == xs[0] + (sep + Join(sep, xs[1..]));
    }
  }

  function DigitChar(d: nat): (c: char)
    requires d < 10
    ensures '0' <= c <= '9'
  {
    (48 + d) as char
  }

  /** Decimal digits of a natural number, most significant first, no leading zero. */
  function NatToString(n: nat): (r: string)
    ensures |r| > 0
    ensures forall i :: 0 <= i < |r| ==> '0' <= r[i] <= '9'
    ensures n > 0 ==> r[0] != '0'
  {
    if n < 10 then [DigitChar(n)] else NatToString(n / 10) + [DigitChar(n % 10)]
  }

  /** `String(n)` in JavaScript and `str(n)` in Python for an integer. */
  function IntToString(i: int): (r: string)
    ensures |r| > 0
    ensures Trimmed(JS, r) && Trimmed(Python, r)
  {
    if i < 0 then "-" + NatToString(-i) else NatToString(i)
  }
}
