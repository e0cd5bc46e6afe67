/**
 * The C library's decimal conversions as the ingester uses them:
 * `sscanf` with `%d`, `%Nd` and `%hu`, and `atoi`. A conversion skips
 * leading white space, accepts one optional sign (counted in the field
 * width), then needs at least one digit.
 */
module Scan {
  import opened Common

  predicate IsDigit(c: char) { '0' <= c <= '9' }

  /** C's `isspace` in the "C" locale: space, \t, \n, \v, \f, \r. */
  predicate IsSpace(c: char) { c == ' ' || '\t' <= c <= '\r' }

  predicate AllDigits(d: seq<char>) { forall k | 0 <= k < |d| :: IsDigit(d[k]) }

  function DigitValue(c: char): nat
    requires IsDigit(c)
  {
    (c as int) - ('0' as int)
  }

  function DigitChar(v: nat): (c: char)
    requires v < 10
    ensures IsDigit(c) && DigitValue(c) == v
  {
    (('0' as int) + v) as char
  }

  /** The number a run of decimal digits denotes, most significant digit first. */
  function DigitsValue(d: seq<char>): nat
    requires AllDigits(d)
  {
    if d == [] then 0 else DigitsValue(d[..|d| - 1]) * 10 + DigitValue(d[|d| - 1])
  }

  /** Shortest decimal rendering of a natural number (as `%d` prints it). */
  function NatText(n: nat): (r: string)
    ensures |r| >= 1 && AllDigits(r)
    decreases n
  {
    if n < 10 then [DigitChar(n)] else NatText(n / 10) + [DigitChar(n % 10)]
  }

  /** `%d` rendering of an `int`. */
  function IntText(n: int): (r: string)
    ensures |r| >= 1
  {
    if n < 0 then "-" + NatText(-n) else NatText(n)
  }

  /** A `w`-digit zero-padded rendering (`%0wd` of a non-negative number below 10^w). */
  function Padded(n: nat, w: nat): (r: string)
    ensures |r| == w && AllDigits(r)
  {
    if w == 0 then [] else Padded(n / 10, w - 1) + [DigitChar(n % 10)]
  }

  function Pow10(w: nat): nat { if w == 0 then 1 else 10 * Pow10(w - 1) }

  /** First position at or after `i` that is not white space. */
  function SkipSpace(s: string, i: nat): (j: nat)
    requires i <= |s|
    ensures i <= j <= |s|
    ensures j < |s| ==> !IsSpace(s[j])
    ensures forall k | i <= k < j :: IsSpace(s[k])
    decreases |s| - i
  {
    if i < |s| && IsSpace(s[i]) then SkipSpace(s, i + 1) else i
  }

  /** Length of the run of digits starting at `i`, read at most `limit` characters. */
  function DigitRun(s: string, i: nat, limit: nat): (n: nat)
    requires i <= |s|
    ensures n <= limit && i + n <= |s|
    ensures AllDigits(s[i..i + n])
    ensures n < limit && i + n < |s| ==> !IsDigit(s[i + n])
    decreases limit
  {
    if limit > 0 && i < |s| && IsDigit(s[i]) then
      var m := DigitRun(s, i + 1, limit - 1);
      assert s[i..i + 1 + m] == [s[i]] + s[i + 1..i + 1 + m];
      1 + m
    else 0
  }

  /**
   * One `%d` conversion (width `Some(w)` for `%wd`) starting at position `i`:
   * the value and the position after it, or None when no digit was read.
   */
  function ScanInt(s: string, i: nat, width: Option<nat>): (r: Option<(int, nat)>)
    requires i <= |s|
    ensures r.Some? ==> i < r.value.1 <= |s|
  {
    var j := SkipSpace(s, i);
    var limit := match width case None => |s| case Some(w) => w;
    var signed := limit > 0 && j < |s| && (s[j] == '+' || s[j] == '-');
    var k := if signed then j + 1 else j;
    Converted(s, k, DigitRun(s, k, if signed then limit - 1 else limit), signed && s[j] == '-')
  }

  /** The value of the `n` digits at `k`, negated when a minus sign preceded them; None when `n == 0`. */
  function Converted(s: string, k: nat, n: nat, negative: bool): (r: Option<(int, nat)>)
    requires k + n <= |s| && AllDigits(s[k..k + n])
    ensures r.Some? ==> r.value.1 == k + n
  {
    if n == 0 then None
    else
      var v: int := DigitsValue(s[k..k + n]);
      Some((if negative then -v else v, k + n))
  }

  /** `sscanf(s, "%hu", &x)`: the converted `unsigned short`, if any. */
  function ScanU16(s: string): Option<U16>
  {
    match ScanInt(s, 0, None)
    case None => None
    case Some((v, _)) => Some(ToU16(v))
  }

  /** `atoi(s)`: 0 when nothing converts. */
  function Atoi(s: string): int
  {
    match ScanInt(s, 0, None)
    case None => 0
    case Some((v, _)) => v
  }

  // ---------------------------------------------------------------------
  // Round trips: what the renderings above produce, the conversions read back.
  // ---------------------------------------------------------------------

  /** Appending a digit multiplies the value of what is before it by ten. */
  lemma {:induction false} ShiftDecimal(a: int, p: int, y: int)
    ensures (a * p + y) * 10 == a * (10 * p) + y * 10
  {
  }

  lemma {:induction false} DigitsValueAppend(d: seq<char>, e: seq<char>)
    requires AllDigits(d) && AllDigits(e)
    ensures AllDigits(d + e)
    ensures DigitsValue(d + e) == DigitsValue(d) * Pow10(|e|) + DigitsValue(e)
    decreases |e|
  {
    if e == [] {
      assert d + e == d;
    } else {
      var e' := e[..|e| - 1];
      assert (d + e)[..|d + e| - 1] == d + e';
      assert (d + e)[|d + e| - 1] == e[|e| - 1];
      DigitsValueAppend(d, e');
      ShiftDecimal(DigitsValue(d), Pow10(|e'|), DigitsValue(e'));
    }
  }

  /** Reading back the `%d` rendering of a natural number gives the number. */
  lemma {:induction false} NatTextValue(n: nat)
    ensures DigitsValue(NatText(n)) == n
    decreases n
  {
    if n >= 10 {
      var t := NatText(n);
      assert t[..|t| - 1] == NatText(n / 10);
      NatTextValue(n / 10);
    }
  }

  /** Reading back a `w`-digit padded rendering gives the number, when it fits. */
  lemma {:induction false} PaddedValue(n: nat, w: nat)
    requires n < Pow10(w)
    ensures DigitsValue(Padded(n, w)) == n
  {
    if w > 0 {
      var t := Padded(n, w);
      assert t[..|t| - 1] == Padded(n / 10, w - 1);
      PaddedValue(n / 10, w - 1);
    }
  }

  lemma {:induction false} DigitRunOfDigits(s: string, i: nat, n: nat, limit: nat)
    requires i + n <= |s| && n <= limit
    requires AllDigits(s[i..i + n])
    requires n == limit || i + n == |s| || !IsDigit(s[i + n])
    ensures DigitRun(s, i, limit) == n
    decreases n
  {
    if n > 0 {
      assert IsDigit(s[i..i + n][0]);
      assert s[i + 1..i + n] == s[i..i + n][1..];
      DigitRunOfDigits(s, i + 1, n - 1, limit - 1);
    }
  }

  /** `%d` reads a whole run of digits. */
  lemma {:induction false} ScanDigits(s: string)
    requires |s| >= 1 && AllDigits(s)
    ensures ScanInt(s, 0, None) == Some((DigitsValue(s), |s|))
  {
    assert IsDigit(s[0]);
    DigitRunOfDigits(s, 0, |s|, |s|);
    ScanUnsignedRun(s, 0, None, |s|);
    assert s[0..|s|] == s;
  }

  /** `sscanf("%hu")` on a run of digits reads their value, reduced to 16 bits. */
  lemma {:induction false} ScanU16Digits(s: string)
    requires |s| >= 1 && AllDigits(s)
    ensures ScanU16(s) == Some(ToU16(DigitsValue(s)))
  {
    ScanDigits(s);
  }

  /** `%wd` reads back exactly a `w`-digit padded field, whatever follows it. */
  lemma {:induction false} ScanPadded(s: string, i: nat, n: nat, w: nat)
    requires 1 <= w && i + w <= |s| && n < Pow10(w)
    requires s[i..i + w] == Padded(n, w)
    ensures ScanInt(s, i, Some(w)) == Some((n, i + w))
  {
    assert IsDigit(s[i..i + w][0]);
    DigitRunOfDigits(s, i, w, w);
    ScanUnsignedRun(s, i, Some(w), w);
    PaddedValue(n, w);
  }

  /** A conversion at a digit that starts a run of `m` digits within the width reads that run. */
  lemma {:induction false} ScanUnsignedRun(s: string, i: nat, width: Option<nat>, m: nat)
    requires i < |s| && IsDigit(s[i]) && 0 < m
    requires DigitRun(s, i, match width case None => |s| case Some(w) => w) == m
    ensures ScanInt(s, i, width) == Converted(s, i, m, false)
  {
    assert SkipSpace(s, i) == i;
  }

  /** `%d` at a minus sign followed by a run of `m` digits reads that run, negated. */
  lemma {:induction false} ScanMinusRun(s: string, i: nat, m: nat)
    requires i < |s| && s[i] == '-' && 0 < m
    requires DigitRun(s, i + 1, |s| - 1) == m
    ensures ScanInt(s, i, None) == Converted(s, i + 1, m, true)
  {
    assert SkipSpace(s, i) == i;
  }

  /** `%d` at position `i` reads back the digits `t` found there and followed by no digit. */
  lemma {:induction false} ScanDigitsAt(s: string, i: nat, t: string)
    requires AllDigits(t) && |t| >= 1
    requires i + |t| <= |s| && s[i..i + |t|] == t
    requires i + |t| == |s| || !IsDigit(s[i + |t|])
    ensures ScanInt(s, i, None) == Some((DigitsValue(t) as int, i + |t|))
  {
    assert s[i] == s[i..i + |t|][0];
    DigitRunOfDigits(s, i, |t|, |s|);
    ScanUnsignedRun(s, i, None, |t|);
  }

  /** `%d` at position `i` reads back a minus sign and the digits `t` found there and followed by no digit. */
  lemma {:induction false} ScanMinusDigitsAt(s: string, i: nat, t: string)
    requires AllDigits(t) && |t| >= 1
    requires i + 1 + |t| <= |s| && s[i..i + 1 + |t|] == "-" + t
    requires i + 1 + |t| == |s| || !IsDigit(s[i + 1 + |t|])
    ensures ScanInt(s, i, None) == Some((-(DigitsValue(t) as int), i + 1 + |t|))
  {
    SliceSplit(s, i, "-", t);
    DigitRunOfDigits(s, i + 1, |t|, |s| - 1);
    ScanMinusRun(s, i, |t|);
  }

  /** Where `p + t` occurs at `i`, `t` occurs right after `p`. */
  lemma {:induction false} SliceSplit(s: string, i: nat, p: string, t: string)
    requires i + |p| + |t| <= |s| && s[i..i + |p| + |t|] == p + t
    ensures s[i + |p|..i + |p| + |t|] == t
    ensures |p| > 0 ==> s[i] == p[0]
  {
    assert s[i + |p|..i + |p| + |t|] == s[i..i + |p| + |t|][|p|..];
    if |p| > 0 {
      assert s[i] == s[i..i + |p| + |t|][0];
    }
  }

  /** `%d` at position `i` reads back the rendering of any `int` that is not followed by a digit. */
  lemma {:induction false} ScanIntAt(s: string, i: nat, n: int)
    requires i + |IntText(n)| <= |s|
    requires s[i..i + |IntText(n)|] == IntText(n)
    requires i + |IntText(n)| == |s| || !IsDigit(s[i + |IntText(n)|])
    ensures ScanInt(s, i, None) == Some((n, i + |IntText(n)|))
  {
    if n < 0 {
      NatTextValue(-n);
      ScanMinusDigitsAt(s, i, NatText(-n));
    } else {
      NatTextValue(n);
      ScanDigitsAt(s, i, NatText(n));
    }
  }

  /** `%d` reads back the rendering of any `int` that ends the string. */
  lemma {:induction false} ScanIntText(n: int)
    ensures ScanInt(IntText(n), 0, None) == Some((n, |IntText(n)|))
  {
    var s := IntText(n);
    assert s[0..|s|] == s;
    ScanIntAt(s, 0, n);
  }

  /** Distinct integers have distinct `%d` renderings. */
  lemma {:induction false} IntTextInjective(a: int, b: int)
    requires IntText(a) == IntText(b)
    ensures a == b
  {
    ScanIntText(a);
    ScanIntText(b);
  }

  /** `atoi` undoes `%d`. */
  lemma {:induction false} AtoiIntText(n: int)
    ensures Atoi(IntText(n)) == n
  {
    ScanIntText(n);
  }
}
