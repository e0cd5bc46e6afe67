// The listing splitter of `_xmltv_load_grabbers`: the output of
// `tv_find_grabbers` is a buffer of `path|description` lines, split in
// place into one grabber module record per line.

module Grabbers {

  /** A line ends at `\n` or at `\0`. */
  predicate IsEnd(c: char)
  {
    c == '\n' || c == '\0'
  }

  /** What the splitter leaves in the buffer: terminators and `|` become `\0`. */
  function Cut(c: char): char
  {
    if c == '\n' || c == '|' then '\0' else c
  }

  /** The buffer once the splitter has passed position `i`: cut below `i`, untouched from `i` on. */
  function CutBelow(s: string, i: nat): (t: seq<char>)
    ensures |t| == |s|
  {
    seq(|s|, j requires 0 <= j < |s| => if j < i then Cut(s[j]) else s[j])
  }

  /** The first terminator at or after `from`, or `|s|` when there is none. */
  function FirstEnd(s: string, from: nat): (k: nat)
    requires from <= |s|
    ensures from <= k <= |s|
    decreases |s| - from
  {
    if from == |s| || IsEnd(s[from]) then from else FirstEnd(s, from + 1)
  }

  /** The terminated lines of a listing, in order; bytes after the last terminator form no line. */
  function Lines(s: string): seq<string>
    decreases |s|
  {
    var k := FirstEnd(s, 0);
    if k == |s| then [] else [s[..k]] + Lines(s[k + 1..])
  }

  /** The text before the first `|` (the whole line when it has none). */
  function BeforeFirst(line: string): string
  {
    if line == [] || line[0] == '|' then [] else [line[0]] + BeforeFirst(line[1..])
  }

  /** The text after the last `|` (the whole line when it has none). */
  function AfterLast(line: string): string
  {
    if line == [] then []
    else if line[|line| - 1] == '|' then []
    else AfterLast(line[..|line| - 1]) + [line[|line| - 1]]
  }

  /** A grabber module: its path (also its id) and its display name. */
  datatype Grabber = Grabber(path: string, name: string)

  /** The module one listing line describes. */
  function GrabberOf(line: string): Grabber
  {
    Grabber(BeforeFirst(line), "XMLTV: " + AfterLast(line))
  }

  /** One module per listing line, in order. */
  function Records(lines: seq<string>): seq<Grabber>
  {
    seq(|lines|, j requires 0 <= j < |lines| => GrabberOf(lines[j]))
  }

  /** The C string at `from`: the characters up to the next `\0`. */
  function CStr(t: seq<char>, from: nat): string
    decreases |t| - from
  {
    if from >= |t| || t[from] == '\0' then [] else [t[from]] + CStr(t, from + 1)
  }

  // ---------------------------------------------------------------------
  // Lemmas
  // ---------------------------------------------------------------------

  /** The path is the longest `|`-free prefix of the line. */
  lemma {:induction false} BeforeFirstSpec(line: string)
    ensures var r := BeforeFirst(line);
            |r| <= |line| && r == line[..|r|] && '|' !in r
            && (|r| < |line| ==> line[|r|] == '|')
  {
    if line != [] && line[0] != '|' {
      BeforeFirstSpec(line[1..]);
      var rest := BeforeFirst(line[1..]);
      assert line[1..][..|rest|] == line[1..|rest| + 1];
    }
  }

  /** The description is the longest `|`-free suffix of the line. */
  lemma {:induction false} AfterLastSpec(line: string)
    ensures var r := AfterLast(line);
            |r| <= |line| && r == line[|line| - |r|..] && '|' !in r
            && (|r| < |line| ==> line[|line| - |r| - 1] == '|')
  {
    if line != [] && line[|line| - 1] != '|' {
      var init := line[..|line| - 1];
      AfterLastSpec(init);
      var rest := AfterLast(init);
      var c := line[|line| - 1];
      assert AfterLast(line) == rest + [c];
      assert line == init + [c];
      assert line[|line| - |rest| - 1..] == init[|init| - |rest|..] + [c];
    }
  }

  /** A listing that ends with a terminator splits independently of what follows. */
  lemma {:induction false} LinesAppend(a: string, b: string)
    requires a == [] || IsEnd(a[|a| - 1])
    ensures Lines(a + b) == Lines(a) + Lines(b)
    decreases |a|
  {
    if a == [] {
      assert a + b == b;
    } else {
      var k := FirstEnd(a, 0);
      FirstEndBefore(a, 0);
      FirstEndPrefix(a, b, 0);
      assert (a + b)[..k] == a[..k];
      assert (a + b)[k + 1..] == a[k + 1..] + b;
      LinesAppend(a[k + 1..], b);
    }
  }

  /** A listing that ends with a terminator has one at or after any position in it. */
  lemma {:induction false} FirstEndBefore(s: string, from: nat)
    requires from < |s| && IsEnd(s[|s| - 1])
    ensures FirstEnd(s, from) < |s|
    decreases |s| - from
  {
    if !IsEnd(s[from]) {
      FirstEndBefore(s, from + 1);
    }
  }

  lemma {:induction false} FirstEndPrefix(a: string, b: string, from: nat)
    requires from <= |a| && FirstEnd(a, from) < |a|
    ensures FirstEnd(a + b, from) == FirstEnd(a, from)
    decreases |a| - from
  {
    if !IsEnd(a[from]) {
      FirstEndPrefix(a, b, from + 1);
    }
  }

  /** The first terminator is the first position whose character ends a line. */
  lemma {:induction false} FirstEndAt(t: string, from: nat, k: nat)
    requires from <= k <= |t|
    requires forall j | from <= j < k :: !IsEnd(t[j])
    requires k < |t| ==> IsEnd(t[k])
    ensures FirstEnd(t, from) == k
    decreases k - from
  {
    if from < k {
      FirstEndAt(t, from + 1, k);
    }
  }

  /** Text without a terminator forms no line. */
  lemma {:induction false} NoLines(t: string)
    requires forall j | 0 <= j < |t| :: !IsEnd(t[j])
    ensures Lines(t) == []
  {
    FirstEndAt(t, 0, |t|);
  }

  /** A line followed by its terminator is one line. */
  lemma {:induction false} OneLine(line: string, c: char)
    requires forall j | 0 <= j < |line| :: !IsEnd(line[j])
    requires IsEnd(c)
    ensures Lines(line + [c]) == [line]
  {
    var t := line + [c];
    FirstEndAt(t, 0, |line|);
    assert t[..|line|] == line;
    assert t[|line| + 1..] == [];
    NoLines([]);
  }

  /** Trailing bytes after the last terminator add no record. */
  lemma {:induction false} TrailingIgnored(s: string, t: string)
    requires s == [] || IsEnd(s[|s| - 1])
    requires forall j | 0 <= j < |t| :: !IsEnd(t[j])
    ensures Lines(s + t) == Lines(s)
  {
    LinesAppend(s, t);
    NoLines(t);
  }

  /** The same, for a listing whose last terminator sits just before `p`. */
  lemma {:induction false} TrailingFrom(s: string, p: nat)
    requires p <= |s|
    requires p == 0 || IsEnd(s[p - 1])
    requires forall j | p <= j < |s| :: !IsEnd(s[j])
    ensures Lines(s) == Lines(s[..p])
  {
    assert s == s[..p] + s[p..];
    TrailingIgnored(s[..p], s[p..]);
  }

  /**
   * Reading the cut buffer as a C string from the start of a line gives
   * the text before the line's first `|`.
   */
  lemma {:induction false} CStrOfCut(t: seq<char>, s: string, from: nat, i: nat)
    requires from <= i < |t| == |s| && t[i] == '\0'
    requires forall j | from <= j < i :: !IsEnd(s[j]) && t[j] == Cut(s[j])
    ensures CStr(t, from) == BeforeFirst(s[from..i])
    decreases i - from
  {
    if from < i {
      assert s[from..i][1..] == s[from + 1..i];
      CStrOfCut(t, s, from + 1, i);
    }
  }

  /** A line without `|` is its own text before the first `|`. */
  lemma {:induction false} BeforeFirstPlain(line: string)
    requires '|' !in line
    ensures BeforeFirst(line) == line
  {
    if line != [] {
      assert line[0] in line;
      BeforeFirstPlain(line[1..]);
    }
  }

  /**
   * At a line's terminator, the C strings at the line's start and after
   * its last `|` are the path and the description of the line.
   */
  lemma {:induction false} LineRecord(s: string, p: nat, n: nat, i: nat)
    requires p <= n <= i < |s| && IsEnd(s[i])
    requires forall j | p <= j < i :: !IsEnd(s[j])
    requires s[n..i] == AfterLast(s[p..i])
    ensures var t := CutBelow(s, i + 1);
            Grabber(CStr(t, p), "XMLTV: " + CStr(t, n)) == GrabberOf(s[p..i])
  {
    var t := CutBelow(s, i + 1);
    assert forall j | p <= j < i :: !IsEnd(s[j]) && t[j] == Cut(s[j]);
    CStrOfCut(t, s, p, i);
    CStrOfCut(t, s, n, i);
    AfterLastSpec(s[p..i]);
    BeforeFirstPlain(s[n..i]);
  }

  lemma {:induction false} RecordsStep(lines: seq<string>, line: string)
    ensures Records(lines + [line]) == Records(lines) + [GrabberOf(line)]
  {
  }

  lemma {:induction false} AfterLastStep(s: string, p: nat, i: nat)
    requires p <= i < |s|
    ensures AfterLast(s[p..i + 1]) == if s[i] == '|' then [] else AfterLast(s[p..i]) + [s[i]]
  {
    assert s[p..i + 1][..i - p] == s[p..i];
  }

  /** Passing one more position cuts exactly that character. */
  lemma {:induction false} CutStep(s: string, i: nat)
    requires i < |s|
    ensures CutBelow(s, i + 1) == CutBelow(s, i)[i := Cut(s[i])]
    ensures CutBelow(s, i)[i] == s[i]
    ensures Cut(s[i]) == s[i] ==> CutBelow(s, i + 1) == CutBelow(s, i)
  {
    if Cut(s[i]) == s[i] {
      assert CutBelow(s, i)[i := s[i]] == CutBelow(s, i);
    }
  }

  /** Before the first step the buffer is the listing itself. */
  lemma {:induction false} CutNone(s: string)
    ensures CutBelow(s, 0) == s
  {
  }

  lemma {:induction false} LinesStep(s: string, p: nat, i: nat)
    requires p <= i < |s| && IsEnd(s[i])
    requires p == 0 || IsEnd(s[p - 1])
    requires forall j | p <= j < i :: !IsEnd(s[j])
    ensures Lines(s[..i + 1]) == Lines(s[..p]) + [s[p..i]]
  {
    assert s[..i + 1] == s[..p] + (s[p..i] + [s[i]]);
    LinesAppend(s[..p], s[p..i] + [s[i]]);
    OneLine(s[p..i], s[i]);
  }

  // ---------------------------------------------------------------------
  // The loop
  // ---------------------------------------------------------------------

  /**
   * The loop invariant over the original listing `s`, for the current
   * line: it starts at `p` (just after a terminator), its last field at
   * `n`, and no terminator lies in `s[p..i]`.
   */
  ghost predicate InLine(s: string, i: nat, p: nat, n: nat)
  {
    && p <= n <= i <= |s|
    && (p == 0 || IsEnd(s[p - 1]))
    && (forall j | p <= j < i :: !IsEnd(s[j]))
    && s[n..i] == AfterLast(s[p..i])
  }

  /** The loop invariant for the output: one record per line before `p`. */
  ghost predicate Recorded(s: string, p: nat, grabbers: seq<Grabber>)
    requires p <= |s|
  {
    grabbers == Records(Lines(s[..p]))
  }

  /** At a terminator the record read back from the cut buffer completes the line. */
  lemma {:induction false} SplitAtEnd(s: string, i: nat, p: nat, n: nat, grabbers: seq<Grabber>)
    requires InLine(s, i, p, n) && Recorded(s, p, grabbers) && i < |s| && IsEnd(s[i])
    ensures InLine(s, i + 1, i + 1, i + 1)
    ensures var t := CutBelow(s, i + 1);
            Recorded(s, i + 1, grabbers + [Grabber(CStr(t, p), "XMLTV: " + CStr(t, n))])
  {
    AfterLastStep(s, p, i);
    LineRecord(s, p, n, i);
    LinesStep(s, p, i);
    RecordsStep(Lines(s[..p]), s[p..i]);
    assert s[i + 1..i + 1] == [] == s[i + 1..i + 1];
  }

  /** A `|` starts a new last field. */
  lemma {:induction false} SplitAtBar(s: string, i: nat, p: nat, n: nat)
    requires InLine(s, i, p, n) && i < |s| && s[i] == '|'
    ensures InLine(s, i + 1, p, i + 1)
  {
    AfterLastStep(s, p, i);
  }

  /** Any other character extends the last field. */
  lemma {:induction false} SplitAtOther(s: string, i: nat, p: nat, n: nat)
    requires InLine(s, i, p, n) && i < |s| && !IsEnd(s[i]) && s[i] != '|'
    ensures InLine(s, i + 1, p, n)
  {
    AfterLastStep(s, p, i);
    assert s[n..i + 1] == s[n..i] + [s[i]];
  }

  /** When the scan is over, the records are those of the listing's lines. */
  lemma {:induction false} SplitDone(s: string, p: nat, n: nat, grabbers: seq<Grabber>)
    requires InLine(s, |s|, p, n) && Recorded(s, p, grabbers)
    ensures grabbers == Records(Lines(s))
  {
    TrailingFrom(s, p);
  }

  /** The loop state `(p, n, grabbers)` after position `i` of the listing `s`. */
  function Advance(s: string, i: nat, p: nat, n: nat, grabbers: seq<Grabber>): (nat, nat, seq<Grabber>)
    requires i < |s|
  {
    if IsEnd(s[i]) then
      var t := CutBelow(s, i + 1);
      (i + 1, i + 1, grabbers + [Grabber(CStr(t, p), "XMLTV: " + CStr(t, n))])
    else if s[i] == '|' then (p, i + 1, grabbers)
    else (p, n, grabbers)
  }

  /** Each pass keeps the loop invariant. */
  lemma {:induction false} SplitStep(s: string, i: nat, p: nat, n: nat, grabbers: seq<Grabber>)
    requires InLine(s, i, p, n) && Recorded(s, p, grabbers) && i < |s|
    ensures var (p', n', grabbers') := Advance(s, i, p, n, grabbers);
            InLine(s, i + 1, p', n') && p' <= |s| && Recorded(s, p', grabbers')
  {
    if IsEnd(s[i]) {
      SplitAtEnd(s, i, p, n, grabbers);
    } else if s[i] == '|' {
      SplitAtBar(s, i, p, n);
    } else {
      SplitAtOther(s, i, p, n);
    }
  }

  /** The loop state once the first `i` positions of the listing are scanned. */
  function Reach(s: string, i: nat): (nat, nat, seq<Grabber>)
    requires i <= |s|
  {
    if i == 0 then (0, 0, [])
    else
      var (p, n, grabbers) := Reach(s, i - 1);
      Advance(s, i - 1, p, n, grabbers)
  }

  /** Every reachable loop state satisfies the loop invariant. */
  lemma {:induction false} ReachInvariant(s: string, i: nat)
    requires i <= |s|
    ensures var (p, n, grabbers) := Reach(s, i);
            InLine(s, i, p, n) && p <= |s| && Recorded(s, p, grabbers)
  {
    if i == 0 {
      assert s[0..0] == [] && s[..0] == [];
    } else {
      ReachInvariant(s, i - 1);
      var (p, n, grabbers) := Reach(s, i - 1);
      SplitStep(s, i - 1, p, n, grabbers);
    }
  }

  /** One pass of the split loop, at position `i`. */
  method SplitAt(buf: array<char>, ghost s: string, i: nat, p: nat, n: nat, grabbers: seq<Grabber>)
    returns (p': nat, n': nat, grabbers': seq<Grabber>)
    requires i < buf.Length && buf[..] == CutBelow(s, i)
    modifies buf
    ensures buf[..] == CutBelow(s, i + 1)
    ensures (p', n', grabbers') == Advance(s, i, p, n, grabbers)
  {
    CutStep(s, i);
    ghost var t := buf[..];
    var c := buf[i];
    assert c == s[i];
    p', n', grabbers' := p, n, grabbers;
    if c == '\n' || c == '\0' {
      buf[i] := '\0';
      assert buf[..] == t[i := '\0'];
      var name := "XMLTV: " + CStr(buf[..], n);
      var path := CStr(buf[..], p);
      grabbers' := grabbers + [Grabber(path, name)];
      p', n' := i + 1, i + 1;
    } else if c == '|' {
      buf[i] := '\0';
      assert buf[..] == t[i := '\0'];
      n' := i + 1;
    }
  }

  /**
   * The split loop: every terminator and every `|` in the buffer becomes
   * `\0`, and each terminated line yields one grabber, whose path is the
   * C string at the line's start and whose name is `"XMLTV: "` followed by
   * the C string after the line's last `|`.
   */
  method SplitListing(buf: array<char>) returns (grabbers: seq<Grabber>)
    modifies buf
    ensures buf[..] == CutBelow(old(buf[..]), buf.Length)
    ensures grabbers == Records(Lines(old(buf[..])))
  {
    ghost var s := buf[..];
    CutNone(s);
    grabbers := [];
    var i: nat, p: nat, n: nat := 0, 0, 0;
    while i < buf.Length
      invariant i <= buf.Length
      invariant buf[..] == CutBelow(s, i)
      invariant (p, n, grabbers) == Reach(s, i)
    {
      p, n, grabbers := SplitAt(buf, s, i, p, n, grabbers);
      i := i + 1;
    }
    ReachInvariant(s, i);
    SplitDone(s, p, n, grabbers);
  }
}
