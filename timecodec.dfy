/**
 * Feed timestamps (`_xmltv_str2time`): `YYYYMMDDHHMMSS`, optionally
 * followed by a signed `HHMM` offset from UTC. The fields are read with
 * `sscanf(str, "%04d%02d%02d%02d%02d%02d %d", ...)`; six converted fields
 * are local civil time, seven are UTC civil time corrected by the offset,
 * any other count gives instant 0.
 */
module TimeCodec {
  import opened Common
  import opened Scan

  /** The fields of C's `struct tm` that the conversion fills (year since 1900, month from 0). */
  datatype Tm = Tm(year: int, mon: int, mday: int, hour: int, min: int, sec: int)

  /**
   * The values `sscanf(s, "%04d%02d%02d%02d%02d%02d %d", ...)` stores, in
   * order: it stops at the first conversion that fails. The blank in the
   * format skips white space before the offset.
   */
  function TimeFields(s: string): (f: seq<int>)
    ensures |f| <= 7
  {
    match ScanInt(s, 0, Some(4))
    case None => []
    case Some((y, i1)) => (
      match ScanInt(s, i1, Some(2))
      case None => [y]
      case Some((mo, i2)) => (
        match ScanInt(s, i2, Some(2))
        case None => [y, mo]
        case Some((d, i3)) => (
          match ScanInt(s, i3, Some(2))
          case None => [y, mo, d]
          case Some((h, i4)) => (
            match ScanInt(s, i4, Some(2))
            case None => [y, mo, d, h]
            case Some((mi, i5)) => (
              match ScanInt(s, i5, Some(2))
              case None => [y, mo, d, h, mi]
              case Some((se, i6)) => (
                match ScanInt(s, SkipSpace(s, i6), None)
                case None => [y, mo, d, h, mi, se]
                case Some((tz, _)) => [y, mo, d, h, mi, se, tz]))))))
  }

  /** The offset `HHMM` in minutes, with C's truncating `/` and `%`. */
  function OffsetMinutes(tz: int): int
  {
    CMod(tz, 100) + CDiv(tz, 100) * 60
  }

  /** Days from 1970-01-01 to the given proleptic Gregorian date (month 1..12). */
  function DaysFromCivil(y: int, m: int, d: int): int
    requires 1 <= m <= 12
  {
    var y' := if m <= 2 then y - 1 else y;
    var era := y' / 400;
    var yoe := y' - era * 400;
    var mp := (m + 9) % 12;
    var doy := (153 * mp + 2) / 5 + d - 1;
    var doe := yoe * 365 + yoe / 4 - yoe / 100 + doy;
    era * 146097 + doe - 719468
  }

  /** `timegm`: the fields as UTC, out-of-range months carried into the year. */
  function Timegm(tm: Tm): int
  {
    var y := tm.year + 1900 + tm.mon / 12;
    var m := tm.mon % 12 + 1;
    (DaysFromCivil(y, m, 1) + tm.mday - 1) * 86400 + tm.hour * 3600 + tm.min * 60 + tm.sec
  }

  /** The `struct tm` built from the first six converted fields. */
  function TmOf(f: seq<int>): Tm
    requires |f| >= 6
  {
    Tm(f[0] - 1900, f[1] - 1, f[2], f[3], f[4], f[5])
  }

  /**
   * `_xmltv_str2time`. `localTime` is `mktime` on a `struct tm` with
   * `tm_isdst = -1`: it depends on the host's time zone, so it is a parameter.
   */
  function Str2Time(s: string, localTime: Tm -> int): int
  {
    var f := TimeFields(s);
    if |f| == 6 then localTime(TmOf(f))
    else if |f| == 7 then Timegm(TmOf(f)) - OffsetMinutes(f[6]) * 60
    else 0
  }

  // ---------------------------------------------------------------------
  // Properties
  // ---------------------------------------------------------------------

  /** The empty string converts nothing and gives instant 0. */
  lemma {:induction false} EmptyIsEpoch(localTime: Tm -> int)
    ensures Str2Time("", localTime) == 0
  {
    assert ScanInt("", 0, Some(4)).None?;
  }

  /** Truncating division: `-0130` is -90 minutes and `+0100` is 60 (Euclidean division would give -50 for the first). */
  lemma {:induction false} OffsetExamples()
    ensures OffsetMinutes(-130) == -90
    ensures OffsetMinutes(100) == 60
    ensures OffsetMinutes(-100) == -60
    ensures (-130 % 100) + (-130 / 100) * 60 == -50
  {
  }

  /** A negative offset is the mirror image of the positive one. */
  lemma {:induction false} OffsetOdd(tz: int)
    ensures OffsetMinutes(-tz) == -OffsetMinutes(tz)
  {
  }

  /** For offsets written `HHMM` with MM < 60 the conversion is exact: HH*60+MM. */
  lemma {:induction false} OffsetOfHoursMinutes(hh: nat, mm: nat, negative: bool)
    requires mm < 60
    ensures OffsetMinutes(if negative then -(hh * 100 + mm) else hh * 100 + mm)
         == (if negative then -(hh * 60 + mm) else hh * 60 + mm)
  {
    var t := hh * 100 + mm;
    assert t / 100 == hh && t % 100 == mm;
    OffsetOdd(t);
  }

  /** The wire text of a timestamp with the given civil fields. */
  function LocalText(y: nat, mo: nat, d: nat, h: nat, mi: nat, se: nat): string
  {
    Padded(y, 4) + Padded(mo, 2) + Padded(d, 2) + Padded(h, 2) + Padded(mi, 2) + Padded(se, 2)
  }

  /** ... followed by a space and a signed four-digit offset. */
  function ZonedText(y: nat, mo: nat, d: nat, h: nat, mi: nat, se: nat, tz: int): string
    requires -10000 < tz < 10000
  {
    LocalText(y, mo, d, h, mi, se) + " " + (if tz < 0 then "-" else "+") + Padded(Abs(tz), 4)
  }

  predicate FieldsFit(y: nat, mo: nat, d: nat, h: nat, mi: nat, se: nat)
  {
    y < 10000 && mo < 100 && d < 100 && h < 100 && mi < 100 && se < 100
  }

  lemma {:induction false} ScanSixFields(s: string, y: nat, mo: nat, d: nat, h: nat, mi: nat, se: nat)
    requires FieldsFit(y, mo, d, h, mi, se)
    requires |s| >= 14 && s[..14] == LocalText(y, mo, d, h, mi, se)
    ensures ScanInt(s, 0, Some(4)) == Some((y, 4))
    ensures ScanInt(s, 4, Some(2)) == Some((mo, 6))
    ensures ScanInt(s, 6, Some(2)) == Some((d, 8))
    ensures ScanInt(s, 8, Some(2)) == Some((h, 10))
    ensures ScanInt(s, 10, Some(2)) == Some((mi, 12))
    ensures ScanInt(s, 12, Some(2)) == Some((se, 14))
  {
    var t := LocalText(y, mo, d, h, mi, se);
    assert s[0..4] == t[0..4] == Padded(y, 4);
    assert s[4..6] == t[4..6] == Padded(mo, 2);
    assert s[6..8] == t[6..8] == Padded(d, 2);
    assert s[8..10] == t[8..10] == Padded(h, 2);
    assert s[10..12] == t[10..12] == Padded(mi, 2);
    assert s[12..14] == t[12..14] == Padded(se, 2);
    ScanPadded(s, 0, y, 4);
    ScanPadded(s, 4, mo, 2);
    ScanPadded(s, 6, d, 2);
    ScanPadded(s, 8, h, 2);
    ScanPadded(s, 10, mi, 2);
    ScanPadded(s, 12, se, 2);
  }

  /** Round trip without offset: six fields, so the host's local-time conversion applies. */
  lemma {:induction false} LocalRoundTrip(y: nat, mo: nat, d: nat, h: nat, mi: nat, se: nat, localTime: Tm -> int)
    requires FieldsFit(y, mo, d, h, mi, se)
    ensures TimeFields(LocalText(y, mo, d, h, mi, se)) == [y, mo, d, h, mi, se]
    ensures Str2Time(LocalText(y, mo, d, h, mi, se), localTime)
         == localTime(Tm(y - 1900, mo - 1, d, h, mi, se))
  {
    var s := LocalText(y, mo, d, h, mi, se);
    LocalFields(y, mo, d, h, mi, se);
    SixFieldsTime(s, y, mo, d, h, mi, se, localTime);
  }

  /** Any text whose conversion yields six fields reads as the local time of those fields. */
  lemma {:induction false} SixFieldsTime(s: string, y: int, mo: int, d: int, h: int, mi: int, se: int, localTime: Tm -> int)
    requires TimeFields(s) == [y, mo, d, h, mi, se]
    ensures Str2Time(s, localTime) == localTime(Tm(y - 1900, mo - 1, d, h, mi, se))
  {
    var f := TimeFields(s);
    assert |f| == 6 && f[0] == y && f[1] == mo && f[2] == d && f[3] == h && f[4] == mi && f[5] == se;
    assert TmOf(f) == Tm(y - 1900, mo - 1, d, h, mi, se);
  }

  lemma {:induction false} LocalFields(y: nat, mo: nat, d: nat, h: nat, mi: nat, se: nat)
    requires FieldsFit(y, mo, d, h, mi, se)
    ensures TimeFields(LocalText(y, mo, d, h, mi, se)) == [y, mo, d, h, mi, se]
  {
    var s := LocalText(y, mo, d, h, mi, se);
    assert |s| == 14 && s[..14] == s;
    ScanSixFields(s, y, mo, d, h, mi, se);
    NothingAtEnd(s);
    SixFields(s, y, mo, d, h, mi, se);
  }

  /** Past the end of the text, `%d` converts nothing. */
  lemma {:induction false} NothingAtEnd(s: string)
    ensures SkipSpace(s, |s|) == |s| && ScanInt(s, |s|, None).None?
  {
  }

  /** Exactly the first six directives convert: six fields. */
  lemma {:induction false} SixFields(s: string, y: nat, mo: nat, d: nat, h: nat, mi: nat, se: nat)
    requires |s| == 14
    requires ScanInt(s, 0, Some(4)) == Some((y, 4))
    requires ScanInt(s, 4, Some(2)) == Some((mo, 6))
    requires ScanInt(s, 6, Some(2)) == Some((d, 8))
    requires ScanInt(s, 8, Some(2)) == Some((h, 10))
    requires ScanInt(s, 10, Some(2)) == Some((mi, 12))
    requires ScanInt(s, 12, Some(2)) == Some((se, 14))
    requires SkipSpace(s, 14) == 14 && ScanInt(s, 14, None).None?
    ensures TimeFields(s) == [y, mo, d, h, mi, se]
  {
  }

  /** The blank directive and `%d` read back a signed four-digit offset that ends the text. */
  lemma {:induction false} ScanOffset(s: string, tz: int)
    requires -10000 < tz < 10000
    requires |s| == 20 && s[14..] == " " + (if tz < 0 then "-" else "+") + Padded(Abs(tz), 4)
    ensures SkipSpace(s, 14) == 15
    ensures ScanInt(s, 15, None) == Some((tz, 20))
  {
    var p := Padded(Abs(tz), 4);
    var t := " " + (if tz < 0 then "-" else "+") + p;
    assert t[2..] == p;
    assert s[16..] == s[14..][2..] == t[2..];
    assert s[14] == t[0] == ' ' && (s[15] == '-' || s[15] == '+');
    assert SkipSpace(s, 15) == 15;
    assert s[16..20] == p;
    DigitRunOfDigits(s, 16, 4, |s| - 1 - 15);
    PaddedValue(Abs(tz), 4);
  }

  /** Round trip with offset: seven fields, UTC corrected by the offset in minutes. */
  lemma {:induction false} ZonedRoundTrip(y: nat, mo: nat, d: nat, h: nat, mi: nat, se: nat, tz: int, localTime: Tm -> int)
    requires FieldsFit(y, mo, d, h, mi, se) && -10000 < tz < 10000
    ensures TimeFields(ZonedText(y, mo, d, h, mi, se, tz)) == [y, mo, d, h, mi, se, tz]
    ensures Str2Time(ZonedText(y, mo, d, h, mi, se, tz), localTime)
         == Timegm(Tm(y - 1900, mo - 1, d, h, mi, se)) - 60 * OffsetMinutes(tz)
  {
    var s := ZonedText(y, mo, d, h, mi, se, tz);
    ZonedFields(y, mo, d, h, mi, se, tz);
    SevenFieldsTime(s, y, mo, d, h, mi, se, tz, localTime);
  }

  /** Any text whose conversion yields seven fields reads as their UTC time less the offset. */
  lemma {:induction false} SevenFieldsTime(s: string, y: int, mo: int, d: int, h: int, mi: int, se: int, tz: int, localTime: Tm -> int)
    requires TimeFields(s) == [y, mo, d, h, mi, se, tz]
    ensures Str2Time(s, localTime) == Timegm(Tm(y - 1900, mo - 1, d, h, mi, se)) - 60 * OffsetMinutes(tz)
  {
    var f := TimeFields(s);
    assert |f| == 7 && f[0] == y && f[1] == mo && f[2] == d && f[3] == h && f[4] == mi && f[5] == se && f[6] == tz;
    assert TmOf(f) == Tm(y - 1900, mo - 1, d, h, mi, se);
  }

  lemma {:induction false} ZonedFields(y: nat, mo: nat, d: nat, h: nat, mi: nat, se: nat, tz: int)
    requires FieldsFit(y, mo, d, h, mi, se) && -10000 < tz < 10000
    ensures TimeFields(ZonedText(y, mo, d, h, mi, se, tz)) == [y, mo, d, h, mi, se, tz]
  {
    var s := ZonedText(y, mo, d, h, mi, se, tz);
    var L := LocalText(y, mo, d, h, mi, se);
    var T := " " + (if tz < 0 then "-" else "+") + Padded(Abs(tz), 4);
    assert |L| == 14 && |T| == 6;
    assert s == L + T;
    assert s[..14] == L && s[14..] == T;
    ScanSixFields(s, y, mo, d, h, mi, se);
    ScanOffset(s, tz);
    SevenFields(s, y, mo, d, h, mi, se, tz);
  }

  /** All seven directives convert: seven fields. */
  lemma {:induction false} SevenFields(s: string, y: nat, mo: nat, d: nat, h: nat, mi: nat, se: nat, tz: int)
    requires |s| == 20
    requires ScanInt(s, 0, Some(4)) == Some((y, 4))
    requires ScanInt(s, 4, Some(2)) == Some((mo, 6))
    requires ScanInt(s, 6, Some(2)) == Some((d, 8))
    requires ScanInt(s, 8, Some(2)) == Some((h, 10))
    requires ScanInt(s, 10, Some(2)) == Some((mi, 12))
    requires ScanInt(s, 12, Some(2)) == Some((se, 14))
    requires SkipSpace(s, 14) == 15 && ScanInt(s, 15, None) == Some((tz, 20))
    ensures TimeFields(s) == [y, mo, d, h, mi, se, tz]
  {
  }

  /** `"20230101120000 +0100"` is 2023-01-01 11:00:00 UTC. */
  lemma {:induction false} ZonedExample(localTime: Tm -> int)
    ensures Str2Time("20230101120000 +0100", localTime) == 1672570800
    ensures Str2Time("20230101120000 +0100", localTime) == Timegm(Tm(123, 0, 1, 11, 0, 0))
  {
    ZonedExampleText();
    ZonedRoundTrip(2023, 1, 1, 12, 0, 0, 100, localTime);
    OffsetExamples();
    TimegmExample();
  }

  /** 2023-01-01 is day 19358 of the Unix epoch. */
  lemma {:induction false} TimegmExample()
    ensures Timegm(Tm(123, 0, 1, 12, 0, 0)) == 1672574400
    ensures Timegm(Tm(123, 0, 1, 11, 0, 0)) == 1672570800
  {
    DaysExample();
  }

  lemma {:induction false} DaysExample()
    ensures DaysFromCivil(2023, 1, 1) == 19358
  {
    assert 2022 / 400 == 5 && (1 + 9) % 12 == 10 && (153 * 10 + 2) / 5 == 306;
    assert 22 / 4 == 5 && 22 / 100 == 0;
  }

  /** `"20230101120000"` is local 2023-01-01 12:00:00. */
  lemma {:induction false} LocalExample(localTime: Tm -> int)
    ensures Str2Time("20230101120000", localTime) == localTime(Tm(123, 0, 1, 12, 0, 0))
  {
    LocalExampleText();
    LocalRoundTrip(2023, 1, 1, 12, 0, 0, localTime);
    assert Tm(2023 - 1900, 1 - 1, 1, 12, 0, 0) == Tm(123, 0, 1, 12, 0, 0);
  }

  lemma {:induction false} LocalExampleText()
    ensures "20230101120000" == LocalText(2023, 1, 1, 12, 0, 0)
  {
  }

  lemma {:induction false} ZonedExampleText()
    ensures "20230101120000 +0100" == ZonedText(2023, 1, 1, 12, 0, 0, 100)
  {
    LocalExampleText();
  }
}
