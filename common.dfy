/** Values and string operations of JavaScript that the application's logic relies on:
    nullable values, white space as `String.prototype.trim` and the regular-expression
    class `\s` see it, `String(n)` for integers and `Array.prototype.join`. */
module Common {

  /** A JavaScript value that may be `null` or `undefined`. */
  datatype Option<+T> = None | Some(value: T) {
    /** `x ?? default` */
    function GetOr(default: T): T {
      match this
      case Some(v) => v
      case None => default
    }
  }

  /** The characters ECMAScript counts as WhiteSpace or LineTerminator: what `trim()`
      removes and what `\s` matches. */
  predicate IsWhitespace(c: char) {
    c == '\t' || c == '\n' || c == '\U{B}' || c == '\U{C}' || c == '\r' || c == ' '
    || c == '\U{A0}' || c == '\U{1680}' || ('\U{2000}' <= c <= '\U{200A}')
    || c == '\U{2028}' || c == '\U{2029}' || c == '\U{202F}' || c == '\U{205F}'
    || c == '\U{3000}' || c == '\U{FEFF}'
  }

  predicate AllWhitespace(s: string) {
    forall i :: 0 <= i < |s| ==> IsWhitespace(s[i])
  }

  predicate NoWhitespace(s: string) {
    forall i :: 0 <= i < |s| ==> !IsWhitespace(s[i])
  }

  /** `r` is the slice `s[k..k + |r|]`. */
  predicate SliceAt(r: string, s: string, k: nat) {
    k + |r| <= |s| && forall i :: 0 <= i < |r| ==> r[i] == s[k + i]
  }

  /** Every character of `s[lo..hi]` is white space. */
  predicate WhitespaceBetween(s: string, lo: nat, hi: nat) {
    lo <= hi <= |s| && forall i :: lo <= i < hi ==> IsWhitespace(s[i])
  }

  /** `s.trimStart()`: the suffix of `s` left after its leading white space. */
  function TrimStart(s: string): (r: string)
    ensures |r| <= |s| && SliceAt(r, s, |s| - |r|)
    ensures WhitespaceBetween(s, 0, |s| - |r|)
    ensures r == [] || !IsWhitespace(r[0])
    ensures |s| > 0 && IsWhitespace(s[0]) ==> |r| < |s|
  {
    if s != [] && IsWhitespace(s[0]) then
      var r := TrimStart(s[1..]);
      TrimStartStep(s, r);
      r
    else s
  }

  /** What `trimStart` keeps of `s[1..]` it keeps of `s`, when `s[0]` is white space. */
  lemma TrimStartStep(s: string, r: string)
    requires s != [] && IsWhitespace(s[0]) && |r| <= |s| - 1
    requires SliceAt(r, s[1..], |s| - 1 - |r|) && WhitespaceBetween(s[1..], 0, |s| - 1 - |r|)
    ensures SliceAt(r, s, |s| - |r|) && WhitespaceBetween(s, 0, |s| - |r|)
  {
    forall i | 0 < i < |s| - |r| ensures IsWhitespace(s[i]) {
      assert s[i] == s[1..][i - 1];
    }
  }

  /** `s.trimEnd()`: the prefix of `s` left after its trailing white space. */
  function TrimEnd(s: string): (r: string)
    ensures |r| <= |s| && SliceAt(r, s, 0)
    ensures WhitespaceBetween(s, |r|, |s|)
    ensures r == [] || !IsWhitespace(r[|r| - 1])
  {
    if s != [] && IsWhitespace(s[|s| - 1]) then
      var r := TrimEnd(s[..|s| - 1]);
      TrimEndStep(s, r);
      r
    else s
  }

  /** What `trimEnd` keeps of `s[..|s| - 1]` it keeps of `s`, when `s`'s last character
      is white space. */
  lemma TrimEndStep(s: string, r: string)
    requires s != [] && IsWhitespace(s[|s| - 1]) && |r| <= |s| - 1
    requires SliceAt(r, s[..|s| - 1], 0) && WhitespaceBetween(s[..|s| - 1], |r|, |s| - 1)
    ensures SliceAt(r, s, 0) && WhitespaceBetween(s, |r|, |s|)
  {
    forall i | |r| <= i < |s| - 1 ensures IsWhitespace(s[i]) {
      assert s[i] == s[..|s| - 1][i];
    }
  }

  /** `s.trim()`: `s` with white space removed from both ends. */
  function Trim(s: string): (r: string)
    ensures |r| <= |s|
    ensures r == [] || (!IsWhitespace(r[0]) && !IsWhitespace(r[|r| - 1]))
  {
    var t := TrimStart(s);
    assert TrimEnd(t) != [] ==> TrimEnd(t)[0] == t[0];
    TrimEnd(t)
  }

  /** What `s.trim()` keeps is the part of `s` between a white-space prefix and a
      white-space suffix. */
  lemma TrimSlices(s: string)
    ensures var k, r := |s| - |TrimStart(s)|, Trim(s);
      SliceAt(r, s, k) && WhitespaceBetween(s, 0, k) && WhitespaceBetween(s, k + |r|, |s|)
  {
    TrimParts(s, TrimStart(s), TrimEnd(TrimStart(s)));
  }

  /** Trimming the end of a suffix `t` of `s` leaves a slice of `s`, followed in `s` by
      white space only. */
  lemma TrimParts(s: string, t: string, r: string)
    requires |t| <= |s| && SliceAt(t, s, |s| - |t|) && (t == [] || !IsWhitespace(t[0]))
    requires |r| <= |t| && SliceAt(r, t, 0) && WhitespaceBetween(t, |r|, |t|)
    ensures SliceAt(r, s, |s| - |t|) && WhitespaceBetween(s, |s| - |t| + |r|, |s|)
  {
    var k := |s| - |t|;
    forall i | k + |r| <= i < |s| ensures IsWhitespace(s[i]) {
      assert s[i] == t[i - k];
    }
  }

  /** A string trims to "" exactly when it is all white space: the test `!s.trim()`. */
  lemma TrimEmptyIff(s: string)
    ensures Trim(s) == [] <==> AllWhitespace(s)
  {
    var k := |s| - |TrimStart(s)|;
    var r := Trim(s);
    TrimSlices(s);
    if r == [] {
      assert WhitespaceBetween(s, 0, k) && WhitespaceBetween(s, k, |s|);
    } else {
      assert r[0] == s[k];
    }
  }

  predicate IsDigit(c: char) {
    '0' <= c <= '9'
  }

  predicate AllDigits(s: string) {
    forall i :: 0 <= i < |s| ==> IsDigit(s[i])
  }

  function DigitChar(d: nat): (c: char)
    requires d < 10
    ensures IsDigit(c)
  {
    ('0' as int + d) as char
  }

  /** `String(n)` for a non-negative integer: its decimal digits, without leading zeros. */
  function NatToString(n: nat): (r: string)
    ensures |r| >= 1 && AllDigits(r)
    ensures (|r| == 1) == (n < 10)
    decreases n
  {
    if n < 10 then [DigitChar(n)] else NatToString(n / 10) + [DigitChar(n % 10)]
  }

  /** Distinct numbers print differently, so an index converted to text identifies it. */
  lemma {:induction false} NatToStringInjective(a: nat, b: nat)
    requires NatToString(a) == NatToString(b)
    ensures a == b
  {
    if a >= 10 && b >= 10 {
      var sa, sb := NatToString(a), NatToString(b);
      assert sa[|sa| - 1] == DigitChar(a % 10) && sb[|sb| - 1] == DigitChar(b % 10);
      assert NatToString(a / 10) == sa[..|sa| - 1] == sb[..|sb| - 1] == NatToString(b / 10);
      NatToStringInjective(a / 10, b / 10);
    } else if a < 10 && b < 10 {
      assert NatToString(a)[0] == DigitChar(a);
    }
  }

  /** `String(i)` for an integer: its decimal digits, after a "-" when it is negative. */
  function IntToString(i: int): (r: string)
    ensures r != []
    ensures i >= 0 <==> AllDigits(r)
    ensures i >= 0 ==> r == NatToString(i)
    ensures i < 0 ==> r == "-" + NatToString(-i)
  {
    if i < 0 then
      var r := "-" + NatToString(-i);
      assert !IsDigit(r[0]);
      r
    else NatToString(i)
  }

  /** `Math.min` and `Math.max` on integers. */
  function Min(a: int, b: int): int { if a <= b then a else b }

  function Max(a: int, b: int): int { if a >= b then a else b }

  /** `xs.join(sep)`: the text starts with the first element. */
  function Join(xs: seq<string>, sep: string): (r: string)
    ensures xs == [] ==> r == ""
    ensures xs != [] ==> |xs[0]| <= |r| && r[..|xs[0]|] == xs[0]
  {
    if |xs| == 0 then "" else if |xs| == 1 then xs[0]
    else
      var r := xs[0] + sep + Join(xs[1..], sep);
      assert r[..|xs[0]|] == xs[0];
      r
  }

  /** The text ends with the last element, and between the first and the last stands at
      least one separator. */
  lemma {:induction false} JoinEnds(xs: seq<string>, sep: string)
    requires xs != []
    ensures var r := Join(xs, sep);
      |xs[|xs| - 1]| <= |r| && r[|r| - |xs[|xs| - 1]|..] == xs[|xs| - 1]
      && (|xs| > 1 ==> |r| >= |xs[0]| + |sep| + |xs[|xs| - 1]|)
  {
    if |xs| > 1 {
      var rest := Join(xs[1..], sep);
      JoinEnds(xs[1..], sep);
      assert xs[1..][|xs[1..]| - 1] == xs[|xs| - 1];
      var r := xs[0] + sep + rest;
      assert r[|r| - |xs[|xs| - 1]|..] == rest[|rest| - |xs[|xs| - 1]|..];
    }
  }

  /** Joining two non-empty lists puts one separator between the two joins. */
  lemma {:induction false} JoinAppend(xs: seq<string>, ys: seq<string>, sep: string)
    requires |xs| > 0 && |ys| > 0
    ensures Join(xs + ys, sep) == Join(xs, sep) + sep + Join(ys, sep)
  {
    if |xs| == 1 {
      assert (xs + ys)[1..] == ys;
    } else {
      assert (xs + ys)[1..] == xs[1..] + ys;
      JoinAppend(xs[1..], ys, sep);
    }
  }
}
