/** String primitives the agents rely on: digit and whitespace classes, leftmost search,
    JavaScript's `split(..)[0]`, Python's `str.strip()`, lower-casing and `str(int)`. */
module Text {
  import opened Wrappers

  predicate IsDigit(c: char) { '0' <= c <= '9' }

  predicate AllDigits(s: string) { forall i :: 0 <= i < |s| ==> IsDigit(s[i]) }

  /** The characters for which Python's `str.isspace()` holds. */
  predicate IsSpace(c: char) {
    || c == ' '
    || '\t' <= c <= '\r'
    || '\U{1c}' <= c <= '\U{1f}'
    || c == '\U{85}' || c == '\U{a0}' || c == '\U{1680}'
    || '\U{2000}' <= c <= '\U{200a}'
    || c == '\U{2028}' || c == '\U{2029}' || c == '\U{202f}' || c == '\U{205f}' || c == '\U{3000}'
  }

  predicate AllSpace(s: string) { forall i :: 0 <= i < |s| ==> IsSpace(s[i]) }

  // ---------------------------------------------------------------------------
  // Leftmost search

  /** The least index in [from, to) satisfying `p`, if any: the scan a regular-expression
      search or `indexOf` performs from left to right. */
  function FirstWhere(p: nat -> bool, from: nat, to: nat): (r: Option<nat>)
    decreases to - from
    ensures r.Some? ==> from <= r.value < to && p(r.value)
    ensures r.Some? ==> forall j :: from <= j < r.value ==> !p(j)
    ensures r.None? ==> forall j :: from <= j < to ==> !p(j)
  {
    if from >= to then None
    else if p(from) then Some(from)
    else FirstWhere(p, from + 1, to)
  }

  predicate OccursAt(s: string, w: string, i: nat) {
    i + |w| <= |s| && s[i..i + |w|] == w
  }

  /** Index of the leftmost occurrence of `w` in `s`. */
  function IndexOf(s: string, w: string): (r: Option<nat>)
    ensures r.Some? ==> OccursAt(s, w, r.value) && forall j :: 0 <= j < r.value ==> !OccursAt(s, w, j)
    ensures r.None? ==> forall j :: 0 <= j <= |s| ==> !OccursAt(s, w, j)
  {
    var p := (i: nat) => OccursAt(s, w, i);
    var r := FirstWhere(p, 0, |s| + 1);
    assert forall j: nat :: p(j) == OccursAt(s, w, j);
    r
  }

  /** Substring containment, Python's `w in s`. */
  predicate Contains(s: string, w: string) { IndexOf(s, w).Some? }

  lemma ContainsAt(s: string, w: string, i: nat)
    requires OccursAt(s, w, i)
    ensures Contains(s, w)
  {
    var r := IndexOf(s, w);
  }

  /** JavaScript's `s.split(w)[0]` for a non-empty separator: the text before the first `w`. */
  function Before(s: string, w: string): (r: string)
    ensures r <= s
    ensures forall j :: 0 <= j < |r| ==> !OccursAt(s, w, j)
    ensures |r| < |s| ==> OccursAt(s, w, |r|)
  {
    match IndexOf(s, w)
    case Some(i) => s[..i]
    case None => s
  }

  /** When `s` is `a + b` and `w` can only start at the seam, the text before `w` is `a`. */
  lemma {:induction false} BeforeSeam(a: string, b: string, w: string)
    requires forall j :: 0 <= j < |a| ==> !OccursAt(a + b, w, j)
    requires OccursAt(b, w, 0) || b == []
    ensures Before(a + b, w) == a
  {
    var s := a + b;
    if b != [] {
      assert s[|a|..|a| + |w|] == b[..|w|];
      assert OccursAt(s, w, |a|);
    }
  }

  // ---------------------------------------------------------------------------
  // Digit runs

  /** Length of the maximal run of digits in `s` starting at index `i` (greedy `\d*`). */
  function DigitRun(s: string, i: nat): (n: nat)
    decreases |s| - i
    ensures i + n <= |s| || (i > |s| && n == 0)
    ensures forall k :: i <= k < i + n ==> IsDigit(s[k])
    ensures i + n < |s| ==> !IsDigit(s[i + n])
  {
    if i < |s| && IsDigit(s[i]) then 1 + DigitRun(s, i + 1) else 0
  }

  /** A run of `n` digits that ends at a non-digit or at the end is the maximal run. */
  lemma DigitRunExact(s: string, i: nat, n: nat)
    requires i + n <= |s|
    requires forall k :: i <= k < i + n ==> IsDigit(s[k])
    requires i + n == |s| || !IsDigit(s[i + n])
    ensures DigitRun(s, i) == n
  {
  }

  // ---------------------------------------------------------------------------
  // Python's str.strip()

  function LeadingSpaces(s: string): (n: nat)
    ensures n <= |s| && AllSpace(s[..n])
    ensures n < |s| ==> !IsSpace(s[n])
  {
    if s == [] || !IsSpace(s[0]) then 0
    else
      var m := LeadingSpaces(s[1..]);
      assert s[..1 + m] == [s[0]] + s[1..][..m];
      1 + m
  }

  function TrailingSpaces(s: string): (n: nat)
    ensures n <= |s| && AllSpace(s[|s| - n..])
    ensures n < |s| ==> !IsSpace(s[|s| - 1 - n])
  {
    if s == [] || !IsSpace(s[|s| - 1]) then 0
    else
      var t := s[..|s| - 1];
      var m := TrailingSpaces(t);
      assert s[|s| - (1 + m)..] == t[|t| - m..] + [s[|s| - 1]];
      1 + m
  }

  /** Cutting `n` leading and `m` trailing characters off `s` leaves a slice of `s`, and
      what was cut at the end is the end of `s`. */
  lemma TrimmedSlice(s: string, n: nat, m: nat)
    requires n <= |s| && m <= |s| - n
    ensures var t := s[n..]; var r := t[..|t| - m];
      r == s[n..n + |r|] && t[|t| - m..] == s[n + |r|..]
  {
  }

  /** The first and last characters of what is left after the cut. */
  lemma TrimmedEnds(s: string, n: nat, m: nat)
    requires n <= |s| && m < |s| - n
    ensures var t := s[n..]; var r := t[..|t| - m];
      r[0] == s[n] && r[|r| - 1] == t[|t| - 1 - m]
  {
  }

  /** `s.strip()`: `s` without its leading and trailing whitespace. */
  function Strip(s: string): (r: string)
    ensures var n := LeadingSpaces(s);
      && n + |r| <= |s| && r == s[n..n + |r|]
      && AllSpace(s[..n]) && AllSpace(s[n + |r|..])
    ensures r != [] ==> !IsSpace(r[0]) && !IsSpace(r[|r| - 1])
  {
    var n := LeadingSpaces(s);
    var m := TrailingSpaces(s[n..]);
    TrimmedSlice(s, n, m);
    if m < |s| - n then TrimmedEnds(s, n, m); s[n..][..|s| - n - m] else []
  }

  /** Stripping twice is stripping once. */
  lemma StripIdempotent(s: string)
    ensures Strip(Strip(s)) == Strip(s)
  {
    var r := Strip(s);
    if r != [] {
      assert LeadingSpaces(r) == 0;
      assert TrailingSpaces(r[0..]) == 0 by { assert r[0..] == r; }
    }
  }

  /** The text strips to nothing exactly when it is all whitespace. */
  lemma StripEmptyIff(s: string)
    ensures Strip(s) == [] <==> AllSpace(s)
  {
    var n := LeadingSpaces(s);
    var r := Strip(s);
    if r == [] {
      // A non-space at `n` would start the stripped text, so the leading run is all of `s`.
      assert AllSpace(s[n..]);
      assert n == |s|;
      assert s[..n] == s;
    }
    if AllSpace(s) {
      assert n == |s| && n + |r| <= |s|;
    }
  }

  // ---------------------------------------------------------------------------
  // Lower-casing

  /** Python's `str.lower()` on the characters that lower-case to ASCII: `A`-`Z`, and the
      Kelvin sign, which lower-cases to `k`. Every other character is kept. */
  function LowerChar(c: char): (d: char)
  {
    if 'A' <= c <= 'Z' then (c as int + 32) as char
    else if c == '\U{212a}' then 'k'
    else c
  }

  function Lower(s: string): (r: string)
    ensures |r| == |s|
    ensures forall i :: 0 <= i < |s| ==> r[i] == LowerChar(s[i])
  {
    if s == [] then [] else [LowerChar(s[0])] + Lower(s[1..])
  }

  /** Text of lower-case letters is its own lower-case form. */
  lemma LowerOfLowercase(s: string)
    requires forall i :: 0 <= i < |s| ==> 'a' <= s[i] <= 'z'
    ensures Lower(s) == s
  {
    assert forall i :: 0 <= i < |s| ==> Lower(s)[i] == s[i];
  }

  /** Lower-casing a lower-cased string changes nothing. */
  lemma LowerIdempotent(s: string)
    ensures Lower(Lower(s)) == Lower(s)
  {
    var r := Lower(s);
    assert forall i :: 0 <= i < |r| ==> Lower(r)[i] == r[i];
  }

  /** Strings that agree up to case lower-case to the same string. */
  lemma LowerCaseInsensitive(a: string, b: string)
    requires |a| == |b|
    requires forall i :: 0 <= i < |a| ==> LowerChar(a[i]) == LowerChar(b[i])
    ensures Lower(a) == Lower(b)
  {
  }

  // ---------------------------------------------------------------------------
  // Python's str(int) and its inverse

  function DigitChar(d: nat): (c: char)
    requires d < 10
    ensures IsDigit(c)
  {
    ('0' as int + d) as char
  }

  function DigitValue(c: char): (d: nat)
    requires IsDigit(c)
    ensures d < 10 && DigitChar(d) == c
  {
    c as int - '0' as int
  }

  /** Decimal digits of `n`, most significant first, no leading zeros. */
  function NatToString(n: nat): (s: string)
    ensures |s| >= 1 && AllDigits(s)
    ensures |s| > 1 ==> s[0] != '0'
    decreases n
  {
    if n < 10 then [DigitChar(n)]
    else
      var p := NatToString(n / 10);
      p + [DigitChar(n % 10)]
  }

  /** The number a string of decimal digits denotes. */
  function DigitsValue(s: string): nat
    requires AllDigits(s)
  {
    if s == [] then 0 else 10 * DigitsValue(s[..|s| - 1]) + DigitValue(s[|s| - 1])
  }

  lemma {:induction false} NatToStringRoundTrip(n: nat)
    ensures DigitsValue(NatToString(n)) == n
    decreases n
  {
    if n >= 10 {
      NatToStringRoundTrip(n / 10);
      var s := NatToString(n);
      assert s[..|s| - 1] == NatToString(n / 10);
    }
  }

  /** Python's `str(i)` for an integer. */
  function IntToString(i: int): (s: string)
  {
    if i < 0 then "-" + NatToString(-i) else NatToString(i)
  }

  /** The inverse of `IntToString` on its image. */
  function ParseInt(s: string): Option<int>
  {
    if |s| >= 2 && s[0] == '-' && AllDigits(s[1..]) then Some(-(DigitsValue(s[1..]) as int))
    else if |s| >= 1 && AllDigits(s) then Some(DigitsValue(s))
    else None
  }

  lemma IntToStringRoundTrip(i: int)
    ensures ParseInt(IntToString(i)) == Some(i)
  {
    var s := IntToString(i);
    if i < 0 {
      var d := NatToString(-i);
      assert s[1..] == d;
      assert |s| >= 2 && s[0] == '-' && AllDigits(s[1..]);
      NatToStringRoundTrip(-i);
    } else {
      assert IsDigit(s[0]);
      NatToStringRoundTrip(i);
    }
  }

  /** Distinct integers print differently, so a printed quantity identifies it. */
  lemma IntToStringInjective(i: int, j: int)
    requires IntToString(i) == IntToString(j)
    ensures i == j
  {
    IntToStringRoundTrip(i);
    IntToStringRoundTrip(j);
  }
}
