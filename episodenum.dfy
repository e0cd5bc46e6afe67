/**
 * Episode numbering from a programme's `episode-num` elements: the
 * `xmltv_ns` notation of the XMLTV DTD (`season.episode.part`, each `X` or
 * `X/Y`, counted from zero), the `dd_progid` programme identifiers, and the
 * free-text `onscreen` label (`xmltv_ns_get_parse_num`,
 * `parse_xmltv_ns_episode`, `parse_xmltv_dd_progid`, `get_episode_info`).
 */
module EpisodeNumbering {
  import opened Common
  import opened Scan
  import opened Htsmsg

  /**
   * `epg_episode_num_t`: six `uint16_t` counters, 0 meaning unknown and
   * otherwise one more than the zero-based number, and an optional label.
   */
  datatype EpNum = EpNum(sNum: U16, sCnt: U16, eNum: U16, eCnt: U16, pNum: U16, pCnt: U16,
                         text: Option<string>)

  /** The caller's `memset(&epnum, 0, sizeof(epnum))`. */
  const ZeroEpNum := EpNum(0, 0, 0, 0, 0, 0, None)

  // ---------------------------------------------------------------------
  // xmltv_ns
  // ---------------------------------------------------------------------

  /** The digits of a field in order; spaces and every other character are ignored. */
  function DigitsIn(t: string): (d: string)
    ensures AllDigits(d) && |d| <= |t|
  {
    if t == [] then []
    else DigitsIn(t[..|t| - 1]) + (if IsDigit(t[|t| - 1]) then [t[|t| - 1]] else [])
  }

  /** The number a field spells, or -1 (the source's "unset") when it has no digit. */
  function FieldNumber(t: string): int
  {
    var d := DigitsIn(t);
    if d == [] then -1 else DigitsValue(d)
  }

  /** What a counter stores for a field number: one more, as a `uint16_t`. */
  function Stored(x: int): U16 { ToU16(x + 1) }

  predicate IsStop(c: char, slashStops: bool) { c == '.' || (slashStops && c == '/') }

  /** First position at or after `i` holding `.` (or `/` when `slashStops`), or the end. */
  function StopAt(t: string, i: nat, slashStops: bool): (j: nat)
    requires i <= |t|
    ensures i <= j <= |t|
    decreases |t| - i
  {
    if i == |t| || IsStop(t[i], slashStops) then i else StopAt(t, i + 1, slashStops)
  }

  /**
   * The number `s[i..j]` spells, accumulated as the scanning loop does: a
   * digit `d` turns `a` into `a*10+d`, an unset `a` (-1) counting as 0, and
   * any other character leaves `a` alone.
   */
  function NumberIn(s: string, i: nat, j: nat): int
    requires i <= j <= |s|
    decreases j
  {
    if j == i then -1
    else
      var a := NumberIn(s, i, j - 1);
      if IsDigit(s[j - 1]) then (if a == -1 then 0 else a) * 10 + DigitValue(s[j - 1]) else a
  }

  /** One `X`, `X/Y` or empty field: the two numbers (-1 when absent) and where the next field starts. */
  datatype NsField = NsField(a: int, b: int, next: nat)

  /**
   * The field starting at position `i`. `X` runs to the first `.` or `/`;
   * after a `/`, `Y` runs to the next `.` (a second `/` is just ignored). A
   * closing `.` is consumed; the end of the text ends every field.
   */
  function FieldAt(s: string, i: nat): (r: NsField)
    requires i <= |s|
    ensures i <= r.next <= |s|
  {
    var j := StopAt(s, i, true);
    var a := NumberIn(s, i, j);
    if j == |s| then NsField(a, -1, j)
    else if s[j] == '.' then NsField(a, -1, j + 1)
    else
      var k := StopAt(s, j + 1, false);
      NsField(a, NumberIn(s, j + 1, k), if k == |s| then k else k + 1)
  }

  /** `parse_xmltv_ns_episode`: three fields, season, episode and part; all six counters are written. */
  function ParseNs(s: string, ep: EpNum): EpNum
  {
    var f1 := FieldAt(s, 0);
    var f2 := FieldAt(s, f1.next);
    var f3 := FieldAt(s, f2.next);
    ep.(sNum := Stored(f1.a), sCnt := Stored(f1.b),
        eNum := Stored(f2.a), eCnt := Stored(f2.b),
        pNum := Stored(f3.a), pCnt := Stored(f3.b))
  }

  lemma {:induction false} FieldNumberSnoc(t: string, c: char)
    ensures FieldNumber(t + [c]) ==
      if !IsDigit(c) then FieldNumber(t)
      else (if FieldNumber(t) == -1 then 0 else FieldNumber(t)) * 10 + DigitValue(c)
  {
    assert (t + [c])[..|t|] == t;
    var d := DigitsIn(t);
    if IsDigit(c) {
      assert DigitsIn(t + [c]) == d + [c];
      assert (d + [c])[..|d|] == d;
    } else {
      assert DigitsIn(t + [c]) == d;
    }
  }

  /** `StopAt` is the first stop: any position with no stop before it and a stop (or the end) at it. */
  lemma {:induction false} StopAtIs(t: string, i: nat, j: nat, slashStops: bool)
    requires i <= j <= |t|
    requires forall k | i <= k < j :: !IsStop(t[k], slashStops)
    requires j < |t| ==> IsStop(t[j], slashStops)
    ensures StopAt(t, i, slashStops) == j
    decreases j - i
  {
    if i < j {
      StopAtIs(t, i + 1, j, slashStops);
    }
  }

  /** The field number after one more character, in terms of the one before. */
  lemma {:induction false} NumberStep(s: string, i: nat, j: nat)
    requires i <= j < |s|
    ensures FieldNumber(s[i..j + 1]) ==
      if !IsDigit(s[j]) then FieldNumber(s[i..j])
      else (if FieldNumber(s[i..j]) == -1 then 0 else FieldNumber(s[i..j])) * 10 + DigitValue(s[j])
  {
    FieldNumberSnoc(s[i..j], s[j]);
    assert s[i..j + 1] == s[i..j] + [s[j]];
  }

  /** The accumulated number is the value of the digits among the characters, -1 when there are none. */
  lemma {:induction false} NumberInIs(s: string, i: nat, j: nat)
    requires i <= j <= |s|
    ensures NumberIn(s, i, j) == FieldNumber(s[i..j])
    decreases j
  {
    if j == i {
      assert s[i..j] == [];
    } else {
      NumberInIs(s, i, j - 1);
      NumberStep(s, i, j - 1);
    }
  }

  /**
   * One of the two digit-accumulating loops of `xmltv_ns_get_parse_num`:
   * from `i` up to the next stop, the number its digits spell (-1 if none).
   */
  method NumberRun(s: string, i: nat, slashStops: bool) returns (x: int, j: nat)
    requires i <= |s|
    ensures j == StopAt(s, i, slashStops)
    ensures x == FieldNumber(s[i..j])
  {
    x, j := -1, i;
    while j < |s| && s[j] != '.' && !(slashStops && s[j] == '/')
      invariant i <= j <= |s|
      invariant x == NumberIn(s, i, j)
      invariant forall k | i <= k < j :: !IsStop(s[k], slashStops)
    {
      if '0' <= s[j] <= '9' {
        x := (if x == -1 then 0 else x) * 10 + DigitValue(s[j]);
      }
      j := j + 1;
    }
    StopAtIs(s, i, j, slashStops);
    NumberInIs(s, i, j);
  }

  /**
   * `xmltv_ns_get_parse_num`: scans the field at `i` and returns the two
   * stored counters and the position where the next field starts.
   */
  method GetParseNum(s: string, i: nat) returns (ap: U16, bp: U16, next: nat)
    requires i <= |s|
    ensures ap == Stored(FieldAt(s, i).a)
    ensures bp == Stored(FieldAt(s, i).b)
    ensures next == FieldAt(s, i).next
  {
    var a, j := NumberRun(s, i, true);
    NumberInIs(s, i, j);
    var b := -1;
    if j == |s| {
      next := j;
    } else if s[j] == '.' {
      next := j + 1;
    } else {
      var k;
      b, k := NumberRun(s, j + 1, false);
      NumberInIs(s, j + 1, k);
      next := if k == |s| then k else k + 1;
    }
    ap, bp := Stored(a), Stored(b);
  }

  /** `parse_xmltv_ns_episode`: the three scans in a row. */
  method ParseNsEpisode(s: string, ep: EpNum) returns (r: EpNum)
    ensures r == ParseNs(s, ep)
  {
    var sn, sc, n1 := GetParseNum(s, 0);
    var en, ec, n2 := GetParseNum(s, n1);
    var pn, pc, n3 := GetParseNum(s, n2);
    r := ep.(sNum := sn, sCnt := sc, eNum := en, eCnt := ec, pNum := pn, pCnt := pc);
  }

  // --- properties of the xmltv_ns reading -------------------------------

  /** Every reading replaces all six counters: earlier values never survive, the label always does. */
  lemma {:induction false} NsWritesAllCounters(s: string, ep1: EpNum, ep2: EpNum)
    ensures ParseNs(s, ep1) == ParseNs(s, ep2).(text := ep1.text)
    ensures ParseNs(s, ep1).text == ep1.text
  {
  }

  /** Once the text is used up the remaining fields are unknown: 0/0. */
  lemma {:induction false} NsExhausted(s: string, ep: EpNum)
    requires FieldAt(s, 0).next == |s|
    ensures var r := ParseNs(s, ep); r.eNum == 0 && r.eCnt == 0 && r.pNum == 0 && r.pCnt == 0
  {
    assert StopAt(s, |s|, true) == |s|;
    assert s[|s|..|s|] == [];
  }

  /** A field with no digit at all stores 0 (unknown). */
  lemma {:induction false} NoDigitsIsUnknown(t: string)
    requires forall k | 0 <= k < |t| :: !IsDigit(t[k])
    ensures FieldNumber(t) == -1 && Stored(FieldNumber(t)) == 0
  {
    if t != [] {
      NoDigitsIsUnknown(t[..|t| - 1]);
    }
  }

  /** One field written in the DTD's notation: `X`, `X/Y`, `/Y` or nothing. */
  datatype NsPart = NsPart(num: Option<nat>, cnt: Option<nat>)

  function OptText(x: Option<nat>): string
  {
    match x case None => "" case Some(n) => NatText(n)
  }

  function CountText(x: Option<nat>): Option<string>
  {
    match x case None => None case Some(n) => Some(NatText(n))
  }

  function PartText(p: NsPart): string
  {
    OptText(p.num) + SlashText(CountText(p.cnt))
  }

  function NsText(s: NsPart, e: NsPart, p: NsPart): string
  {
    PartText(s) + "." + (PartText(e) + "." + PartText(p))
  }

  /** The field number an omitted or written number reads back as. */
  function NumberOf(x: Option<nat>): int
  {
    match x case None => -1 case Some(n) => n
  }

  lemma {:induction false} DigitsInDigits(d: string)
    requires AllDigits(d)
    ensures DigitsIn(d) == d
  {
    if d != [] {
      DigitsInDigits(d[..|d| - 1]);
    }
  }

  lemma {:induction false} OptTextNumber(x: Option<nat>)
    ensures FieldNumber(OptText(x)) == NumberOf(x)
    ensures AllDigits(OptText(x))
  {
    if x.Some? {
      DigitsInDigits(NatText(x.value));
      NatTextValue(x.value);
    }
  }

  /** `/Y` after `X` when a count is written, nothing otherwise. */
  function SlashText(y: Option<string>): string
  {
    match y case None => "" case Some(t) => "/" + t
  }

  /** The number a count field reads as: -1 when it is not written. */
  function CountNumber(y: Option<string>): int
  {
    match y case None => -1 case Some(t) => FieldNumber(t)
  }

  /** The scan of a suffix does not depend on what precedes it: stops shift by the prefix length. */
  lemma {:induction false} ShiftStop(p: string, r: string, i: nat, slashStops: bool)
    requires i <= |r|
    ensures StopAt(p + r, |p| + i, slashStops) == |p| + StopAt(r, i, slashStops)
    decreases |r| - i
  {
    if i < |r| {
      assert (p + r)[|p| + i] == r[i];
      ShiftStop(p, r, i + 1, slashStops);
    }
  }

  /** ... and so does the number a run of the suffix accumulates. */
  lemma {:induction false} ShiftNumber(p: string, r: string, i: nat, j: nat)
    requires i <= j <= |r|
    ensures NumberIn(p + r, |p| + i, |p| + j) == NumberIn(r, i, j)
    decreases j
  {
    if i < j {
      ShiftNumber(p, r, i, j - 1);
      assert (p + r)[|p| + j - 1] == r[j - 1];
    }
  }

  /** A field of `r` read inside `p + r` gives the same numbers, the next field starting `|p|` later. */
  lemma {:induction false} ShiftField(p: string, r: string, i: nat)
    requires i <= |r|
    ensures FieldAt(p + r, |p| + i) == NsField(FieldAt(r, i).a, FieldAt(r, i).b, |p| + FieldAt(r, i).next)
  {
    var j := StopAt(r, i, true);
    ShiftStop(p, r, i, true);
    ShiftNumber(p, r, i, j);
    if j < |r| {
      assert (p + r)[|p| + j] == r[j];
      if r[j] != '.' {
        var k := StopAt(r, j + 1, false);
        ShiftStop(p, r, j + 1, false);
        ShiftNumber(p, r, j + 1, k);
      }
    }
  }

  /** Digits at the start of `s` and followed by a stop (or the end) are one run of the scan, spelling their number. */
  lemma {:induction false} LeadingDigits(s: string, x: string, slashStops: bool)
    requires AllDigits(x) && |x| <= |s| && s[..|x|] == x
    requires |x| < |s| ==> IsStop(s[|x|], slashStops)
    ensures StopAt(s, 0, slashStops) == |x|
    ensures NumberIn(s, 0, |x|) == FieldNumber(x)
  {
    forall k | 0 <= k < |x|
      ensures !IsStop(s[k], slashStops)
    {
      assert s[k] == x[k];
    }
    StopAtIs(s, 0, |x|, slashStops);
    NumberInIs(s, 0, |x|);
    assert s[0..|x|] == x;
  }

  /** A field written as `X` or `X/Y` reads back as written, up to the end of the text. */
  lemma {:induction false} PartField(x: string, y: Option<string>)
    requires AllDigits(x) && (y.Some? ==> AllDigits(y.value))
    ensures var w := x + SlashText(y);
            FieldAt(w, 0) == NsField(FieldNumber(x), CountNumber(y), |w|)
  {
    if y.None? {
      assert x + SlashText(y) == x && x[..|x|] == x;
      LeadingDigits(x, x, true);
    } else {
      var v := y.value;
      var w, p := x + ("/" + v), x + "/";
      assert w == p + v && w[|x|] == '/';
      LeadingDigits(w, x, true);
      ShiftStop(p, v, 0, false);
      ShiftNumber(p, v, 0, |v|);
      LeadingDigits(v, v, false);
    }
  }

  /** A field written as `X` or `X/Y` holds no `.`, so it is exactly one field. */
  lemma {:induction false} PartNoDot(x: string, y: Option<string>)
    requires AllDigits(x) && (y.Some? ==> AllDigits(y.value))
    ensures '.' !in x + SlashText(y)
  {
    var w := x + SlashText(y);
    forall k | 0 <= k < |w|
      ensures w[k] != '.'
    {
      if k < |x| {
        assert w[k] == x[k];
      } else if k > |x| {
        assert w[k] == y.value[k - |x| - 1];
      }
    }
  }

  /** The scan of `a + q` from inside `a` stops where the scan of `a` does, or runs on into `q`. */
  lemma {:induction false} StopAppend(a: string, q: string, i: nat, slashStops: bool)
    requires i <= |a|
    ensures StopAt(a + q, i, slashStops)
         == if StopAt(a, i, slashStops) < |a| then StopAt(a, i, slashStops) else |a| + StopAt(q, 0, slashStops)
    decreases |a| - i
  {
    if i < |a| {
      assert (a + q)[i] == a[i];
      StopAppend(a, q, i + 1, slashStops);
    } else {
      ShiftStop(a, q, 0, slashStops);
    }
  }

  /** The number a run inside `a` spells does not depend on what follows `a`. */
  lemma {:induction false} NumberAppend(a: string, q: string, i: nat, j: nat)
    requires i <= j <= |a|
    ensures NumberIn(a + q, i, j) == NumberIn(a, i, j)
    decreases j
  {
    if i < j {
      NumberAppend(a, q, i, j - 1);
      assert (a + q)[j - 1] == a[j - 1];
    }
  }

  /** Without a `.`, the count `Y` runs to the end of the text. */
  lemma {:induction false} NoDotStop(a: string, i: nat)
    requires '.' !in a && i <= |a|
    ensures StopAt(a, i, false) == |a|
    decreases |a| - i
  {
    if i < |a| {
      assert a[i] in a;
      NoDotStop(a, i + 1);
    }
  }

  /** A field without a `.` reads the same numbers when a `.` and more text follow it; the next field starts after the `.`. */
  lemma {:induction false} JoinField(a: string, r: string)
    requires '.' !in a
    ensures FieldAt(a + "." + r, 0) == NsField(FieldAt(a, 0).a, FieldAt(a, 0).b, |a| + 1)
  {
    var q := "." + r;
    assert a + "." + r == a + q;
    var j := StopAt(a, 0, true);
    StopAppend(a, q, 0, true);
    NumberAppend(a, q, 0, j);
    if j < |a| {
      assert a[j] in a && (a + q)[j] == a[j];
      NoDotStop(a, j + 1);
      StopAppend(a, q, j + 1, false);
      NumberAppend(a, q, j + 1, |a|);
    } else {
      assert (a + q)[|a|] == '.';
    }
  }

  /** A field without a `.` ends the text. */
  lemma {:induction false} EndField(c: string)
    requires '.' !in c
    ensures FieldAt(c, 0).next == |c|
  {
    var j := StopAt(c, 0, true);
    if j < |c| {
      assert c[j] in c;
      NoDotStop(c, j + 1);
    }
  }

  /** The episode field of `a.b.c` reads as `b` alone does; the part field starts after its `.`. */
  lemma {:induction false} SecondField(a: string, b: string, c: string)
    requires '.' !in b
    ensures FieldAt(a + "." + (b + "." + c), |a| + 1) == NsField(FieldAt(b, 0).a, FieldAt(b, 0).b, |a| + |b| + 2)
  {
    JoinField(b, c);
    ShiftField(a + ".", b + "." + c, 0);
  }

  /** The part field of `a.b.c` reads as `c` alone does, up to the end. */
  lemma {:induction false} ThirdField(a: string, b: string, c: string)
    requires '.' !in c
    ensures FieldAt(a + "." + (b + "." + c), |a| + |b| + 2) == NsField(FieldAt(c, 0).a, FieldAt(c, 0).b, |a| + |b| + |c| + 2)
  {
    EndField(c);
    ShiftField(b + ".", c, 0);
    ShiftField(a + ".", b + "." + c, |b| + 1);
  }

  /**
   * Three fields without a `.`, joined by `.`, are read independently:
   * each counter pair stores what its field reads alone, plus one.
   */
  lemma {:induction false} ThreeFields(a: string, b: string, c: string, ep: EpNum)
    requires '.' !in a && '.' !in b && '.' !in c
    ensures ParseNs(a + "." + (b + "." + c), ep)
         == ep.(sNum := Stored(FieldAt(a, 0).a), sCnt := Stored(FieldAt(a, 0).b),
                eNum := Stored(FieldAt(b, 0).a), eCnt := Stored(FieldAt(b, 0).b),
                pNum := Stored(FieldAt(c, 0).a), pCnt := Stored(FieldAt(c, 0).b))
  {
    JoinField(a, b + "." + c);
    SecondField(a, b, c);
    ThirdField(a, b, c);
    ParseNsFields(a + "." + (b + "." + c), ep, NsField(FieldAt(a, 0).a, FieldAt(a, 0).b, |a| + 1),
                  NsField(FieldAt(b, 0).a, FieldAt(b, 0).b, |a| + |b| + 2),
                  NsField(FieldAt(c, 0).a, FieldAt(c, 0).b, |a| + |b| + |c| + 2));
  }

  lemma {:induction false} ParseNsFields(t: string, ep: EpNum, f1: NsField, f2: NsField, f3: NsField)
    requires FieldAt(t, 0) == f1 && f1.next <= |t| && FieldAt(t, f1.next) == f2
    requires f2.next <= |t| && FieldAt(t, f2.next) == f3
    ensures ParseNs(t, ep) == ep.(sNum := Stored(f1.a), sCnt := Stored(f1.b),
                                  eNum := Stored(f2.a), eCnt := Stored(f2.b),
                                  pNum := Stored(f3.a), pCnt := Stored(f3.b))
  {
  }

  lemma {:induction false} CountTextNumber(x: Option<nat>)
    ensures CountNumber(CountText(x)) == NumberOf(x)
    ensures x.Some? ==> AllDigits(CountText(x).value)
  {
    if x.Some? {
      OptTextNumber(x);
    }
  }

  /** One field written in the DTD's notation reads back its number and count, -1 for an omitted one, and holds no `.`. */
  lemma {:induction false} PartReads(p: NsPart)
    ensures FieldAt(PartText(p), 0).a == NumberOf(p.num) && FieldAt(PartText(p), 0).b == NumberOf(p.cnt)
    ensures '.' !in PartText(p)
  {
    OptTextNumber(p.num);
    CountTextNumber(p.cnt);
    PartField(OptText(p.num), CountText(p.cnt));
    PartNoDot(OptText(p.num), CountText(p.cnt));
  }

  /** Writing the three fields in the DTD's notation and reading them back gives each number plus one, or 0 when omitted. */
  lemma {:induction false} NsRoundTrip(s: NsPart, e: NsPart, p: NsPart, ep: EpNum)
    ensures ParseNs(NsText(s, e, p), ep)
         == ep.(sNum := Stored(NumberOf(s.num)), sCnt := Stored(NumberOf(s.cnt)),
                eNum := Stored(NumberOf(e.num)), eCnt := Stored(NumberOf(e.cnt)),
                pNum := Stored(NumberOf(p.num)), pCnt := Stored(NumberOf(p.cnt)))
  {
    PartReads(s);
    PartReads(e);
    PartReads(p);
    ThreeFields(PartText(s), PartText(e), PartText(p), ep);
  }

  /** Known first season, unknown episode and part: `0..`. */
  lemma {:induction false} NsExampleOmitted(ep: EpNum)
    ensures ParseNs("0..", ep) == ep.(sNum := 1, sCnt := 0, eNum := 0, eCnt := 0, pNum := 0, pCnt := 0)
  {
    var first, none := NsPart(Some(0), None), NsPart(None, None);
    assert NatText(0) == "0";
    assert PartText(first) == "0" && PartText(none) == "";
    assert NsText(first, none, none) == "0..";
    NsRoundTrip(first, none, none, ep);
    assert Stored(NumberOf(first.num)) == 1 && Stored(NumberOf(None)) == 0;
  }

  /** `1.0.0/1` is written with season 1, episode 0 and part 0 of 1 (all zero-based). */
  lemma {:induction false} NsExampleText(t: string)
    requires t == "1.0.0/1"
    ensures t == NsText(NsPart(Some(1), None), NsPart(Some(0), None), NsPart(Some(0), Some(1)))
  {
    assert NatText(0) == "0" && NatText(1) == "1";
  }

  /**
   * `1.0.0/1`, the first episode of the second season: numbers are stored
   * one-based, and the part count 1 is stored as 2 because the count gets
   * the same `+ 1` as the numbers.
   */
  lemma {:induction false} NsExamplePart(t: string, ep: EpNum)
    requires t == "1.0.0/1"
    ensures ParseNs(t, ep) == ep.(sNum := 2, sCnt := 0, eNum := 1, eCnt := 0, pNum := 1, pCnt := 2)
  {
    var s, e, p := NsPart(Some(1), None), NsPart(Some(0), None), NsPart(Some(0), Some(1));
    assert Stored(NumberOf(s.num)) == 2 && Stored(NumberOf(s.cnt)) == 0;
    assert Stored(NumberOf(e.num)) == 1 && Stored(NumberOf(e.cnt)) == 0;
    assert Stored(NumberOf(p.num)) == 1 && Stored(NumberOf(p.cnt)) == 2;
    NsRoundTrip(s, e, p, ep);
    NsExampleText(t);
  }

  /**
   * `0 . 12/13 . 0/3`, the first part of three of the last episode of
   * thirteen in the first season: the spaces are ignored, and each count
   * again gets the `+ 1` of the numbers.
   */
  lemma {:induction false} NsExampleSpaced(t: string, ep: EpNum)
    requires t == "0 . 12/13 . 0/3"
    ensures ParseNs(t, ep) == ep.(sNum := 1, sCnt := 0, eNum := 13, eCnt := 14, pNum := 1, pCnt := 4)
  {
    assert Stored(-1) == 0 && Stored(0) == 1 && Stored(3) == 4 && Stored(12) == 13 && Stored(13) == 14;
    SpacedSeason(t);
    SpacedEpisode(t);
    SpacedPart(t);
    ParseNsFields(t, ep, NsField(0, -1, 3), NsField(12, 13, 11), NsField(0, 3, 15));
  }

  lemma {:induction false} SpacedSeason(t: string)
    requires t == "0 . 12/13 . 0/3"
    ensures FieldAt(t, 0) == NsField(0, -1, 3)
  {
    assert t[0] == '0' && t[1] == ' ' && t[2] == '.';
    StopAtIs(t, 0, 2, true);
    assert NatText(0) == "0";
    NumberThenSpace(t[0..2], 0);
  }

  lemma {:induction false} SpacedEpisode(t: string)
    requires t == "0 . 12/13 . 0/3"
    ensures FieldAt(t, 3) == NsField(12, 13, 11)
  {
    assert StopAt(t, 3, true) == 6 by {
      assert t[3] == ' ' && t[4] == '1' && t[5] == '2' && t[6] == '/';
      StopAtIs(t, 3, 6, true);
    }
    assert StopAt(t, 7, false) == 10 by {
      assert t[7] == '1' && t[8] == '3' && t[9] == ' ' && t[10] == '.';
      StopAtIs(t, 7, 10, false);
    }
    assert FieldNumber(t[3..6]) == 12 by {
      assert NatText(12) == "12";
      SpaceThenNumber(t[3..6], 12);
    }
    assert FieldNumber(t[7..10]) == 13 by {
      assert NatText(13) == "13";
      NumberThenSpace(t[7..10], 13);
    }
    assert |t| == 15 && t[6] == '/';
  }

  lemma {:induction false} SpacedPart(t: string)
    requires t == "0 . 12/13 . 0/3"
    ensures FieldAt(t, 11) == NsField(0, 3, 15)
  {
    assert |t| == 15 && t[13] == '/';
    assert StopAt(t, 11, true) == 13 by {
      assert t[11] == ' ' && t[12] == '0';
      StopAtIs(t, 11, 13, true);
    }
    assert StopAt(t, 14, false) == 15 by {
      assert t[14] == '3';
      StopAtIs(t, 14, 15, false);
    }
    assert FieldNumber(t[11..13]) == 0 by {
      assert NatText(0) == "0";
      SpaceThenNumber(t[11..13], 0);
    }
    assert FieldNumber(t[14..15]) == 3 by {
      assert NatText(3) == "3" && t[14..15] == "3";
      OptTextNumber(Some(3));
    }
  }

  /** A space before a number does not change it. */
  lemma {:induction false} SpaceThenNumber(u: string, n: nat)
    requires u == [' '] + NatText(n)
    ensures FieldNumber(u) == n
  {
    var e: string := [];
    OptTextNumber(Some(n));
    NonDigitIgnored(e, ' ', NatText(n));
    assert u == e + [' '] + NatText(n) && e + NatText(n) == NatText(n);
  }

  /** A space after a number does not change it. */
  lemma {:induction false} NumberThenSpace(u: string, n: nat)
    requires u == NatText(n) + [' ']
    ensures FieldNumber(u) == n
  {
    var e: string := [];
    OptTextNumber(Some(n));
    NonDigitIgnored(NatText(n), ' ', e);
    assert u == NatText(n) + [' '] + e && NatText(n) + e == NatText(n);
  }

  lemma {:induction false} DigitsInAppend(a: string, b: string)
    ensures DigitsIn(a + b) == DigitsIn(a) + DigitsIn(b)
    decreases |b|
  {
    if b == [] {
      assert a + b == a;
    } else {
      var b' := b[..|b| - 1];
      assert (a + b)[..|a + b| - 1] == a + b';
      DigitsInAppend(a, b');
    }
  }

  /**
   * Characters other than digits inside a field (spaces, signs, letters)
   * are skipped: `1 2` reads as 12, as in the DTD's `0 . 12/13 . 0/3`.
   */
  lemma {:induction false} NonDigitIgnored(a: string, c: char, b: string)
    requires !IsDigit(c)
    ensures FieldNumber(a + [c] + b) == FieldNumber(a + b)
  {
    DigitsInAppend(a + [c], b);
    DigitsInAppend(a, b);
    assert (a + [c])[..|a|] == a;
    assert DigitsIn(a + [c]) == DigitsIn(a);
  }

  // ---------------------------------------------------------------------
  // dd_progid
  // ---------------------------------------------------------------------

  /** The identifiers a programme's `episode-num` elements yield, and its numbering. */
  datatype EpisodeIds = EpisodeIds(uri: Option<string>, suri: Option<string>, epnum: EpNum)

  /** The URI is built in `char buf[128]` with `snprintf(buf, sizeof(buf) - 1, ...)`: at most 126 characters. */
  const UriMax: nat := 126

  function RawUri(modId: string, s: string): (r: string)
    ensures |r| <= UriMax
  {
    Truncate("ddprogid://" + modId + "/" + s, UriMax)
  }

  /**
   * The backward scan `while (e && s[e] != '.') e--;` started at `from`:
   * the last `.` of `s` at a position in 1..from, or 0 when there is none.
   */
  function LastDot(s: string, from: nat): (e: nat)
    ensures e <= from
    ensures e == 0 || (e < |s| && s[e] == '.')
    ensures forall k | e < k <= from && k < |s| :: s[k] != '.'
  {
    if from == 0 then 0
    else if from < |s| && s[from] == '.' then from
    else LastDot(s, from - 1)
  }

  function Min(a: nat, b: nat): nat { if a < b then a else b }

  /**
   * `parse_xmltv_dd_progid`. Identifiers shorter than two characters are
   * ignored. Unless the identifier starts with `SH` the raw URI becomes the
   * episode URI. When it starts with `EP` and has a `.` after its first
   * character, the raw URI is cut at that dot's index in the identifier
   * (an index of `s` applied to the prefixed `buf`), and the digits after
   * the dot, if any, overwrite the episode number.
   */
  function DdProgid(modId: string, s: string, ids: EpisodeIds): EpisodeIds
  {
    if |s| < 2 then ids
    else
      var buf := RawUri(modId, s);
      var ids1 := if StartsWith(s, "SH") then ids else ids.(uri := Some(buf));
      DdTail(s, buf, ids1)
  }

  /** What `DdProgid` does once the episode URI is settled (`ids1`): the `EP` series cut. */
  function DdTail(s: string, buf: string, ids1: EpisodeIds): EpisodeIds
  {
    if !StartsWith(s, "EP") then ids1
    else
      var e := LastDot(s, Min(|buf|, |s|));
      if e == 0 then ids1
      else
        ids1.(suri := Some(buf[..e]),
              epnum := if e + 1 < |s| then EpisodeNumberAfterDot(s[e + 1..], ids1.epnum) else ids1.epnum)
  }

  /** `sscanf(s + e + 1, "%hu", &epnum->e_num)`: overwrites the number only when a value converts. */
  function EpisodeNumberAfterDot(t: string, ep: EpNum): EpNum
  {
    match ScanU16(t)
    case None => ep
    case Some(n) => ep.(eNum := n)
  }

  /** `parse_xmltv_dd_progid` with its backward index loop. */
  method ParseDdProgid(modId: string, s: string, ids: EpisodeIds) returns (r: EpisodeIds)
    ensures r == DdProgid(modId, s, ids)
  {
    if |s| < 2 {
      return ids;
    }
    var buf := RawUri(modId, s);
    r := ids;
    if !StartsWith(s, "SH") {
      r := r.(uri := Some(buf));
    }
    r := ParseDdTail(s, buf, r);
  }

  /** The `EP` series cut of `parse_xmltv_dd_progid`, once the episode URI is settled. */
  method ParseDdTail(s: string, buf: string, ids1: EpisodeIds) returns (r: EpisodeIds)
    ensures r == DdTail(s, buf, ids1)
  {
    r := ids1;
    if !StartsWith(s, "EP") {
      return;
    }
    // Positions past the terminating NUL of s are not read: the scan starts at most at |s|.
    var e := FindLastDot(s, Min(|buf|, |s|));
    if e == 0 {
      return;
    }
    var ep := r.epnum;
    if e + 1 < |s| {
      var n := ScanU16(s[e + 1..]);
      if n.Some? {
        ep := ep.(eNum := n.value);
      }
      assert ep == EpisodeNumberAfterDot(s[e + 1..], ids1.epnum);
    }
    r := r.(suri := Some(buf[..e]), epnum := ep);
  }

  method FindLastDot(s: string, from: nat) returns (e: nat)
    ensures e == LastDot(s, from)
  {
    e := from;
    while e > 0 && !(e < |s| && s[e] == '.')
      invariant e <= from
      invariant LastDot(s, from) == LastDot(s, e)
    {
      e := e - 1;
    }
  }

  // --- properties of dd_progid --------------------------------------------

  /** Identifiers shorter than two characters change nothing. */
  lemma {:induction false} DdShortIgnored(modId: string, s: string, ids: EpisodeIds)
    requires |s| < 2
    ensures DdProgid(modId, s, ids) == ids
  {
  }

  /** The episode URI is the namespaced identifier, unless it starts with `SH` (a series without episode). */
  lemma {:induction false} DdEpisodeUri(modId: string, s: string, ids: EpisodeIds)
    requires |s| >= 2
    ensures StartsWith(s, "SH") ==> DdProgid(modId, s, ids).uri == ids.uri
    ensures !StartsWith(s, "SH") ==> DdProgid(modId, s, ids).uri == Some(RawUri(modId, s))
    ensures !StartsWith(s, "EP") ==> DdProgid(modId, s, ids).suri == ids.suri
    ensures !StartsWith(s, "EP") ==> DdProgid(modId, s, ids).epnum == ids.epnum
  {
  }

  /**
   * For `EP` identifiers the series URI is a prefix of the raw URI whose
   * length is the index, in the identifier, of its last `.`: the prefix
   * `ddprogid://<module>/` is counted against that index.
   */
  lemma {:induction false} DdSeriesCut(modId: string, s: string, ids: EpisodeIds, e: nat)
    requires StartsWith(s, "EP") && 1 <= e < |s| && s[e] == '.'
    requires forall k | e < k < |s| :: s[k] != '.'
    requires e <= |RawUri(modId, s)|
    ensures DdProgid(modId, s, ids).suri == Some(RawUri(modId, s)[..e])
    ensures |DdProgid(modId, s, ids).suri.value| == e
    ensures DdProgid(modId, s, ids).epnum
         == if e + 1 < |s| then EpisodeNumberAfterDot(s[e + 1..], ids.epnum) else ids.epnum
  {
    var from := Min(|RawUri(modId, s)|, |s|);
    LastDotIs(s, from, e);
  }

  lemma {:induction false} LastDotIs(s: string, from: nat, e: nat)
    requires 1 <= e <= from && e < |s| && s[e] == '.'
    requires forall k | e < k <= from && k < |s| :: s[k] != '.'
    ensures LastDot(s, from) == e
    decreases from
  {
    if from > e {
      LastDotIs(s, from - 1, e);
    }
  }

  lemma {:induction false} ScanExample(t: string)
    requires t == "0001"
    ensures ScanU16(t) == Some(1)
  {
    assert "0"[..0] == [] && DigitsValue("0") == 0;
    assert "00"[..1] == "0" && DigitsValue("00") == 0;
    assert "000"[..2] == "00" && DigitsValue("000") == 0;
    assert t[..3] == "000" && DigitsValue(t) == 1;
    ScanU16Digits(t);
  }

  /** A concrete identifier: the series URI keeps only the first 8 characters, `ddprogid`. */
  lemma {:induction false} DdExample(modId: string, s: string, ids: EpisodeIds)
    requires modId == "xmltv" && s == "EP012345.0001"
    ensures DdProgid(modId, s, ids)
         == ids.(uri := Some("ddprogid://xmltv/EP012345.0001"),
                 suri := Some("ddprogid"),
                 epnum := ids.epnum.(eNum := 1))
  {
    var buf := RawUri(modId, s);
    assert buf == "ddprogid://xmltv/EP012345.0001";
    assert StartsWith(s, "EP") && !StartsWith(s, "SH");
    DdSeriesCut(modId, s, ids, 8);
    DdEpisodeUri(modId, s, ids);
    assert buf[..8] == "ddprogid";
    assert s[9..] == "0001";
    ScanExample(s[9..]);
  }

  // ---------------------------------------------------------------------
  // get_episode_info
  // ---------------------------------------------------------------------

  /** An `episode-num` element with a `system` attribute and text: (system, text). */
  function EpisodeNumEntry(f: Field): Option<(string, string)>
  {
    if f.name != "episode-num" || !f.value.Map? then None
    else
      var c := f.value.msg;
      match (GetMap(c, "attrib"), GetStr(c, "cdata"))
      case (Some(a), Some(cdata)) => (
        match GetStr(a, "system")
        case Some(sys) => Some((sys, cdata))
        case None => None)
      case _ => None
  }

  /** What one element does to the identifiers and numbering collected so far. */
  function EpisodeInfoStep(modId: string, f: Field, ids: EpisodeIds): EpisodeIds
  {
    match EpisodeNumEntry(f)
    case None => ids
    case Some((sys, cdata)) =>
      if sys == "onscreen" then ids.(epnum := ids.epnum.(text := Some(cdata)))
      else if sys == "xmltv_ns" then ids.(epnum := ParseNs(cdata, ids.epnum))
      else if sys == "dd_progid" then DdProgid(modId, cdata, ids)
      else ids
  }

  /** The elements applied in document order. */
  function EpisodeInfo(modId: string, fields: seq<Field>, ids: EpisodeIds): EpisodeIds
  {
    if fields == [] then ids
    else EpisodeInfoStep(modId, fields[|fields| - 1], EpisodeInfo(modId, fields[..|fields| - 1], ids))
  }

  /** `get_episode_info`: walks the programme's child elements in order. */
  method GetEpisodeInfo(modId: string, tags: Msg, ids: EpisodeIds) returns (r: EpisodeIds)
    ensures r == EpisodeInfo(modId, tags.fields, ids)
  {
    r := ids;
    var i := 0;
    while i < |tags.fields|
      invariant i <= |tags.fields|
      invariant r == EpisodeInfo(modId, tags.fields[..i], ids)
    {
      var f := tags.fields[i];
      var entry := EpisodeNumEntry(f);
      if entry.Some? {
        var (sys, cdata) := entry.value;
        if sys == "onscreen" {
          r := r.(epnum := r.epnum.(text := Some(cdata)));
        } else if sys == "xmltv_ns" {
          var ep := ParseNsEpisode(cdata, r.epnum);
          r := r.(epnum := ep);
        } else if sys == "dd_progid" {
          r := ParseDdProgid(modId, cdata, r);
        }
      }
      assert tags.fields[..i + 1][..i] == tags.fields[..i];
      i := i + 1;
    }
    assert tags.fields[..i] == tags.fields;
  }

  // --- properties of get_episode_info ---------------------------------

  /** Elements other than a complete `episode-num` element, and unknown systems, change nothing. */
  lemma {:induction false} EpisodeInfoIgnores(modId: string, fields: seq<Field>, f: Field, ids: EpisodeIds)
    requires EpisodeNumEntry(f).None? ||
             EpisodeNumEntry(f).value.0 !in {"onscreen", "xmltv_ns", "dd_progid"}
    ensures EpisodeInfo(modId, fields + [f], ids) == EpisodeInfo(modId, fields, ids)
  {
    assert (fields + [f])[..|fields|] == fields;
  }

  /** A later `xmltv_ns` element overwrites all six counters set by any earlier element. */
  lemma {:induction false} LaterNsWins(modId: string, fields: seq<Field>, f: Field, ids: EpisodeIds, cdata: string)
    requires EpisodeNumEntry(f) == Some(("xmltv_ns", cdata))
    ensures var r := EpisodeInfo(modId, fields + [f], ids).epnum;
      var n := ParseNs(cdata, ZeroEpNum);
      r.sNum == n.sNum && r.sCnt == n.sCnt && r.eNum == n.eNum &&
      r.eCnt == n.eCnt && r.pNum == n.pNum && r.pCnt == n.pCnt
  {
    assert (fields + [f])[..|fields|] == fields;
  }

  /** An `onscreen` element sets only the label, to its text verbatim. */
  lemma {:induction false} OnscreenSetsLabel(modId: string, fields: seq<Field>, f: Field, ids: EpisodeIds, cdata: string)
    requires EpisodeNumEntry(f) == Some(("onscreen", cdata))
    ensures var before := EpisodeInfo(modId, fields, ids);
      EpisodeInfo(modId, fields + [f], ids) == before.(epnum := before.epnum.(text := Some(cdata)))
  {
    assert (fields + [f])[..|fields|] == fields;
  }
}
