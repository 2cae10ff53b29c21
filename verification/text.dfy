/**
 * The handful of JavaScript string operations the application relies on,
 * stated over `string` (a `seq<char>`): case mapping, `trim`, `includes`,
 * `startsWith`, `padStart` and `String(n)` for a non-negative integer.
 * Case mapping covers ASCII letters only; other characters map to themselves.
 */
module Text {

  import opened Optional

  /* ----------------------------- case mapping ----------------------------- */

  function LowerChar(c: char): char {
    if 'A' <= c <= 'Z' then (c as int + 32) as char else c
  }

  function UpperChar(c: char): char {
    if 'a' <= c <= 'z' then (c as int - 32) as char else c
  }

  /** `s.toLowerCase()` on ASCII letters. */
  function Lower(s: string): (r: string)
    ensures |r| == |s|
    ensures forall i :: 0 <= i < |s| ==> r[i] == LowerChar(s[i])
  {
    seq(|s|, i requires 0 <= i < |s| => LowerChar(s[i]))
  }

  /** `s.toUpperCase()` on ASCII letters. */
  function Upper(s: string): (r: string)
    ensures |r| == |s|
    ensures forall i :: 0 <= i < |s| ==> r[i] == UpperChar(s[i])
  {
    seq(|s|, i requires 0 <= i < |s| => UpperChar(s[i]))
  }

  /** Lower-casing twice is lower-casing once. */
  lemma LowerIdempotent(s: string)
    ensures Lower(Lower(s)) == Lower(s)
  {
    assert forall i :: 0 <= i < |s| ==> LowerChar(LowerChar(s[i])) == LowerChar(s[i]);
  }

  lemma LowerAppend(a: string, b: string)
    ensures Lower(a + b) == Lower(a) + Lower(b)
  {
  }

  /** Lower-casing commutes with taking a slice. */
  lemma LowerSlice(s: string, i: nat, j: nat)
    requires i <= j <= |s|
    ensures Lower(s)[i..j] == Lower(s[i..j])
  {
  }

  /* ------------------------ prefixes and substrings ----------------------- */

  /** `s.startsWith(p)`. */
  predicate StartsWith(s: string, p: string) {
    |p| <= |s| && s[..|p|] == p
  }

  /** `q` occurs in `s` starting at index `i`. */
  predicate OccursAt(s: string, q: string, i: int) {
    0 <= i <= |s| - |q| && s[i..i + |q|] == q
  }

  /** `s.includes(q)`: `q` occurs in `s` at some position. */
  predicate Contains(s: string, q: string)
    decreases |s|
  {
    StartsWith(s, q) || (|s| > 0 && Contains(s[1..], q))
  }

  /** The recursive definition of `Contains` agrees with "`q` occurs at some index". */
  lemma {:induction false} ContainsIff(s: string, q: string)
    ensures Contains(s, q) <==> exists i :: OccursAt(s, q, i)
    decreases |s|
  {
    if |s| > 0 {
      ContainsIff(s[1..], q);
      if Contains(s[1..], q) {
        var i :| OccursAt(s[1..], q, i);
        assert OccursAt(s, q, i + 1);
      }
      if StartsWith(s, q) {
        assert OccursAt(s, q, 0);
      }
      if !StartsWith(s, q) && exists i :: OccursAt(s, q, i) {
        var i :| OccursAt(s, q, i);
        assert i != 0;
        assert OccursAt(s[1..], q, i - 1);
      }
    } else {
      if exists i :: OccursAt(s, q, i) {
        var i :| OccursAt(s, q, i);
        assert i == 0;
      }
      if StartsWith(s, q) {
        assert OccursAt(s, q, 0);
      }
    }
  }

  /** Every string contains the empty string. */
  lemma ContainsEmpty(s: string)
    ensures Contains(s, "")
  {
  }

  /** A string contains every slice of itself. */
  lemma ContainsSlice(s: string, i: nat, j: nat)
    requires i <= j <= |s|
    ensures Contains(s, s[i..j])
  {
    assert OccursAt(s, s[i..j], i);
    ContainsIff(s, s[i..j]);
  }

  /** A non-empty query whose first character does not occur in `s` is not contained in it. */
  lemma {:induction false} NotContainsFirstChar(s: string, q: string)
    requires |q| > 0 && q[0] !in s
    ensures !Contains(s, q)
    decreases |s|
  {
    if |s| > 0 {
      assert s[0] != q[0];
      assert s[1..] <= s[1..] && forall c :: c in s[1..] ==> c in s;
      NotContainsFirstChar(s[1..], q);
    }
  }

  /* ------------------------------ whitespace ------------------------------ */

  /**
   * The characters `String.prototype.trim` removes: the ECMAScript WhiteSpace
   * and LineTerminator code points.
   */
  const SpaceChars: set<char> := {
    ' ', '\t', '\n', '\r', '\U{000B}', '\U{000C}', '\U{00A0}', '\U{1680}',
    '\U{2000}', '\U{2001}', '\U{2002}', '\U{2003}', '\U{2004}', '\U{2005}',
    '\U{2006}', '\U{2007}', '\U{2008}', '\U{2009}', '\U{200A}',
    '\U{2028}', '\U{2029}', '\U{202F}', '\U{205F}', '\U{3000}', '\U{FEFF}'
  }

  predicate IsSpace(c: char) {
    c in SpaceChars
  }

  predicate AllSpace(s: string) {
    forall i :: 0 <= i < |s| ==> IsSpace(s[i])
  }

  /** A concatenation is all whitespace exactly when both parts are. */
  lemma AllSpaceAppend(a: string, b: string)
    ensures AllSpace(a + b) <==> AllSpace(a) && AllSpace(b)
  {
    if AllSpace(a + b) {
      forall i | 0 <= i < |a|
        ensures IsSpace(a[i])
      {
        assert a[i] == (a + b)[i];
      }
      forall i | 0 <= i < |b|
        ensures IsSpace(b[i])
      {
        assert b[i] == (a + b)[|a| + i];
      }
    }
  }

  function TrimStart(s: string): (r: string)
    ensures |r| <= |s| && r == s[|s| - |r|..]
    ensures |r| > 0 ==> !IsSpace(r[0])
    ensures AllSpace(s[..|s| - |r|])
    decreases |s|
  {
    if |s| > 0 && IsSpace(s[0]) then
      var r := TrimStart(s[1..]);
      assert s[..|s| - |r|] == [s[0]] + s[1..][..|s| - 1 - |r|];
      AllSpaceAppend([s[0]], s[1..][..|s| - 1 - |r|]);
      r
    else s
  }

  function TrimEnd(s: string): (r: string)
    ensures |r| <= |s| && r == s[..|r|]
    ensures |r| > 0 ==> !IsSpace(r[|r| - 1])
    ensures AllSpace(s[|r|..])
    decreases |s|
  {
    if |s| > 0 && IsSpace(s[|s| - 1]) then TrimEnd(s[..|s| - 1]) else s
  }

  /** `r` is `s[i..]` less only leading/trailing whitespace around it. */
  predicate TrimmedAt(s: string, r: string, i: int) {
    OccursAt(s, r, i) && AllSpace(s[..i]) && AllSpace(s[i + |r|..])
  }

  /** `s.trim()`: `s` without its leading and trailing whitespace. */
  function Trim(s: string): (r: string)
    ensures exists i :: TrimmedAt(s, r, i)
    ensures |r| > 0 ==> !IsSpace(r[0]) && !IsSpace(r[|r| - 1])
    ensures r == "" <==> AllSpace(s)
  {
    var t := TrimStart(s);
    TrimBothAt(s, t);
    TrimBothEmpty(s, t);
    TrimEnd(t)
  }

  /** Trimming both ends leaves the slice of `s` after the leading whitespace. */
  lemma TrimBothAt(s: string, t: string)
    requires t == TrimStart(s)
    ensures TrimmedAt(s, TrimEnd(t), |s| - |t|)
  {
    var r := TrimEnd(t);
    TrimStartFacts(s, t);
    TrimEndFacts(t, r);
    TrimmedAtParts(s, t, r);
  }

  /** The postcondition of TrimStart, as plain facts about `t`. */
  lemma TrimStartFacts(s: string, t: string)
    requires t == TrimStart(s)
    ensures |t| <= |s| && t == s[|s| - |t|..] && AllSpace(s[..|s| - |t|])
  {
  }

  /** The postcondition of TrimEnd, as plain facts about `r`. */
  lemma TrimEndFacts(t: string, r: string)
    requires r == TrimEnd(t)
    ensures |r| <= |t| && r == t[..|r|] && AllSpace(t[|r|..])
  {
  }

  /**
   * `r` is trimmed out of `s` when `t` is `s` less a whitespace prefix and
   * `r` is `t` less a whitespace suffix.
   */
  lemma TrimmedAtParts(s: string, t: string, r: string)
    requires |t| <= |s| && t == s[|s| - |t|..] && AllSpace(s[..|s| - |t|])
    requires |r| <= |t| && r == t[..|r|] && AllSpace(t[|r|..])
    ensures TrimmedAt(s, r, |s| - |t|)
  {
    PrefixOfSuffix(s, t, r);
  }

  /** A prefix `r` of the suffix `t` of `s` occurs in `s` where `t` starts, and what follows it is the rest of `t`. */
  lemma PrefixOfSuffix(s: string, t: string, r: string)
    requires |t| <= |s| && t == s[|s| - |t|..]
    requires |r| <= |t| && r == t[..|r|]
    ensures OccursAt(s, r, |s| - |t|)
    ensures s[|s| - |t| + |r|..] == t[|r|..]
  {
  }

  /** Nothing is left after trimming exactly when `s` is all whitespace. */
  lemma TrimBothEmpty(s: string, t: string)
    requires t == TrimStart(s)
    ensures TrimEnd(t) == "" <==> AllSpace(s)
  {
    var i := |s| - |t|;
    assert s == s[..i] + t;
    AllSpaceAppend(s[..i], t);
    if TrimEnd(t) == "" {
      assert t == t[0..];
    }
  }

  /** Trimming a trimmed string changes nothing. */
  lemma TrimIdempotent(s: string)
    ensures Trim(Trim(s)) == Trim(s)
  {
  }

  /* ------------------------------- padding -------------------------------- */

  function Repeat(c: char, n: nat): (r: string)
    ensures |r| == n && forall i :: 0 <= i < n ==> r[i] == c
  {
    if n == 0 then [] else [c] + Repeat(c, n - 1)
  }

  /**
   * `s.padStart(width, c)`: `s` prefixed with copies of `c` up to `width`
   * characters; a string already that long is returned unchanged, never cut.
   */
  function PadStart(s: string, width: nat, c: char): (r: string)
    ensures |r| == if |s| >= width then |s| else width
    ensures r[|r| - |s|..] == s
    ensures forall i :: 0 <= i < |r| - |s| ==> r[i] == c
  {
    if |s| >= width then s else Repeat(c, width - |s|) + s
  }

  /* ---------------------------- decimal digits ---------------------------- */

  predicate IsDigit(c: char) {
    '0' <= c <= '9'
  }

  predicate AllDigits(s: string) {
    forall i :: 0 <= i < |s| ==> IsDigit(s[i])
  }

  function DigitChar(d: nat): char
    requires d < 10
  {
    ('0' as int + d) as char
  }

  function DigitValue(c: char): nat
    requires IsDigit(c)
  {
    c as int - '0' as int
  }

  function Pow10(k: nat): (r: nat)
    ensures r >= 1
  {
    if k == 0 then 1 else 10 * Pow10(k - 1)
  }

  /** The number a string of decimal digits denotes; leading zeros are allowed. */
  function DigitsValue(s: string): nat
    requires AllDigits(s)
  {
    if |s| == 0 then 0 else 10 * DigitsValue(s[..|s| - 1]) + DigitValue(s[|s| - 1])
  }

  /** `String(n)` for a non-negative integer: its shortest decimal representation. */
  function Decimal(n: nat): (r: string)
    ensures |r| > 0 && AllDigits(r)
    ensures DigitsValue(r) == n
    ensures |r| > 1 ==> r[0] != '0'
  {
    if n < 10 then [DigitChar(n)]
    else
      var r := Decimal(n / 10) + [DigitChar(n % 10)];
      assert r[..|r| - 1] == Decimal(n / 10);
      r
  }

  /** `String(n)` has exactly as many digits as `n` needs. */
  lemma {:induction false} DecimalLength(n: nat)
    ensures n < Pow10(|Decimal(n)|)
    ensures |Decimal(n)| == 1 || Pow10(|Decimal(n)| - 1) <= n
  {
    if n >= 10 {
      DecimalLength(n / 10);
    }
  }

  /** `String(d)` for a single digit. */
  lemma DecimalDigit(d: nat)
    requires d < 10
    ensures Decimal(d) == [DigitChar(d)]
  {
  }

  /** `String(n)` for `n >= 10` is `String(n / 10)` followed by the last digit. */
  lemma DecimalStep(n: nat, prefix: string, last: char)
    requires n >= 10 && Decimal(n / 10) == prefix && last == DigitChar(n % 10)
    ensures Decimal(n) == prefix + [last]
  {
  }

  /** Leading zeros do not change the value of a digit string. */
  lemma {:induction false} LeadingZeros(k: nat, s: string)
    requires AllDigits(s)
    ensures AllDigits(Repeat('0', k) + s)
    ensures DigitsValue(Repeat('0', k) + s) == DigitsValue(s)
    decreases |s|
  {
    var z := Repeat('0', k);
    if |s| == 0 {
      assert z + s == z;
      ZerosValue(k);
    } else {
      var t := z + s;
      assert t[..|t| - 1] == z + s[..|s| - 1];
      LeadingZeros(k, s[..|s| - 1]);
    }
  }

  /** Padding a digit string with leading zeros keeps it a digit string of the same value. */
  lemma PadStartDigits(s: string, width: nat)
    requires AllDigits(s)
    ensures AllDigits(PadStart(s, width, '0'))
    ensures DigitsValue(PadStart(s, width, '0')) == DigitsValue(s)
  {
    if |s| < width {
      LeadingZeros(width - |s|, s);
    } else {
      assert Repeat('0', 0) + s == s;
      LeadingZeros(0, s);
    }
  }

  lemma {:induction false} ZerosValue(k: nat)
    ensures AllDigits(Repeat('0', k)) && DigitsValue(Repeat('0', k)) == 0
  {
    if k > 0 {
      var z := Repeat('0', k);
      assert z[..k - 1] == Repeat('0', k - 1);
      ZerosValue(k - 1);
    }
  }

  /** Index of the first occurrence of `c` in `s`, if any. */
  function IndexOf(s: string, c: char): (r: Option<nat>)
    ensures r.Some? ==> r.value < |s| && s[r.value] == c && c !in s[..r.value]
    ensures r.None? <==> c !in s
  {
    if |s| == 0 then None
    else if s[0] == c then Some(0)
    else
      var k := IndexOf(s[1..], c);
      if k.None? then None
      else
        assert s[..k.value + 1] == [s[0]] + s[1..][..k.value];
        Some(k.value + 1)
  }
}
