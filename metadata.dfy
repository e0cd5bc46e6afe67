/**
 * Broadcast and episode metadata derived from a programme's child
 * elements: picture quality (`parse_vid_quality`), accessibility
 * (`xmltv_parse_accessibility`), repeat and premiere flags, and the lazily
 * collected categories and language strings (`_xmltv_parse_categories`,
 * `_xmltv_parse_lang_str`).
 */
module Metadata {
  import opened Common
  import opened Scan
  import opened Htsmsg
  import opened Guide

  // ---------------------------------------------------------------------
  // Picture quality
  // ---------------------------------------------------------------------

  /** What the `video` element says: high definition, line count and aspect (width/height times 100); 0 is "not known". */
  datatype VideoClass = VideoClass(hd: bool, lines: int, aspect: int)

  const NoVideoClass := VideoClass(false, 0, 0)

  /** The `quality` text, tested for HD, 480, 576, 720 and 1080 in that order; the first hit decides. */
  function QualityClass(quality: Option<string>): VideoClass
  {
    match quality
    case None => NoVideoClass
    case Some(q) =>
      if Contains(q, "HD") then VideoClass(true, 0, 0)
      else if Contains(q, "480") then VideoClass(false, 480, 150)
      else if Contains(q, "576") then VideoClass(false, 576, 133)
      else if Contains(q, "720") then VideoClass(true, 720, 178)
      else if Contains(q, "1080") then VideoClass(true, 1080, 178)
      else NoVideoClass
  }

  /** `sscanf(str, "%d:%d", &w, &h) == 2`: both numbers, or None when fewer convert. */
  function AspectRatio(s: string): Option<(int, int)>
  {
    match ScanInt(s, 0, None)
    case None => None
    case Some((w, i)) =>
      if i < |s| && s[i] == ':' then
        match ScanInt(s, i + 1, None)
        case None => None
        case Some((h, _)) => Some((w, h))
      else None
  }

  /**
   * The source divides by the height it read; a `W:0` aspect is a division
   * by zero, which C leaves undefined. Documents must not contain one.
   */
  predicate AspectDefined(video: Msg)
  {
    match CdataOf(video, "aspect")
    case None => true
    case Some(a) => AspectRatio(a).None? || AspectRatio(a).value.1 != 0
  }

  /** The quality class, with its aspect replaced by `100*W/H` (C division) when `aspect` reads as `W:H`. */
  function VideoOf(video: Msg): (c: VideoClass)
    requires AspectDefined(video)
    ensures c.hd == QualityClass(CdataOf(video, "quality")).hd
    ensures c.lines == QualityClass(CdataOf(video, "quality")).lines
  {
    var c := QualityClass(CdataOf(video, "quality"));
    match CdataOf(video, "aspect")
    case None => c
    case Some(a) =>
      match AspectRatio(a)
      case None => c
      case Some((w, h)) => c.(aspect := CDiv(100 * w, h))
  }

  /** Widescreen: high definition, or wider than 137/100. */
  predicate Widescreen(c: VideoClass) { c.hd || c.aspect > 137 }

  /** The `colour` text makes the episode black and white exactly when it is `no`. */
  predicate ColourIsBw(colour: string) { colour == "no" }

  /**
   * `parse_vid_quality`. The high-definition flag is always written; the
   * widescreen flag and the aspect only when the aspect is known, the line
   * count only when it is known. The colour flag goes to the episode `ee`,
   * which the programme code passes as null. The result is true when any
   * setter changed its field.
   */
  method ParseVidQuality(b: Broadcast, ee: Episode?, video: Option<Msg>) returns (save: bool)
    requires video.Some? ==> AspectDefined(video.value)
    modifies b`isHd, b`isWidescreen, b`aspect, b`lines, ee
    ensures video.None? ==> !save && unchanged(b) && (ee != null ==> unchanged(ee))
    ensures video.Some? ==>
      var c := VideoOf(video.value);
      && b.isHd == c.hd
      && (if c.aspect != 0 then b.isWidescreen == Widescreen(c) && b.aspect == c.aspect
          else b.isWidescreen == old(b.isWidescreen) && b.aspect == old(b.aspect))
      && b.lines == (if c.lines != 0 then c.lines else old(b.lines))
      && (ee != null ==> ee.isBw == match CdataOf(video.value, "colour")
                                   case None => old(ee.isBw)
                                   case Some(t) => ColourIsBw(t))
    ensures ee != null ==> ee.title == old(ee.title) && ee.subtitle == old(ee.subtitle)
    ensures ee != null ==> ee.genre == old(ee.genre) && ee.epnum == old(ee.epnum)
    ensures save == (b.isHd != old(b.isHd) || b.isWidescreen != old(b.isWidescreen) ||
                     b.aspect != old(b.aspect) || b.lines != old(b.lines) ||
                     (ee != null && ee.isBw != old(ee.isBw)))
  {
    if video.None? {
      return false;
    }
    var m := video.value;
    save := false;
    var colour := CdataOf(m, "colour");
    if colour.Some? && ee != null {
      save := ee.SetIsBw(ColourIsBw(colour.value));
    }
    var c := VideoOf(m);
    var changed := b.SetIsHd(c.hd);
    save := save || changed;
    if c.aspect != 0 {
      changed := b.SetIsWidescreen(c.hd || c.aspect > 137);
      save := save || changed;
      changed := b.SetAspect(c.aspect);
      save := save || changed;
    }
    if c.lines != 0 {
      changed := b.SetLines(c.lines);
      save := save || changed;
    }
  }

  // --- properties of the picture quality rules --------------------------

  lemma {:induction false} ContainsAt(s: string, sub: string, i: nat)
    requires i + |sub| <= |s| && s[i..i + |sub|] == sub
    ensures Contains(s, sub)
  {
    assert OccursAt(s, sub, i);
  }

  /** A text without the first character of `sub` does not contain it. */
  lemma {:induction false} NotContains(s: string, sub: string)
    requires |sub| >= 1
    requires forall k | 0 <= k < |s| :: s[k] != sub[0]
    ensures !Contains(s, sub)
  {
    forall i | 0 <= i <= |s| - |sub|
      ensures !OccursAt(s, sub, i)
    {
      assert s[i..i + |sub|][0] == s[i] != sub[0];
    }
  }

  /** Only the first hit counts: a text naming both HD and 1080 is high definition with unknown lines and aspect. */
  lemma {:induction false} HdTakesPrecedence(q: string)
    requires Contains(q, "HD")
    ensures QualityClass(Some(q)) == VideoClass(true, 0, 0)
  {
  }

  /** `1080i` is high definition, 1080 lines, 16:9. */
  lemma {:induction false} Quality1080(q: string)
    requires q == "1080i"
    ensures QualityClass(Some(q)) == VideoClass(true, 1080, 178)
  {
    ContainsAt(q, "1080", 0);
    assert forall k | 0 <= k < |q| :: q[k] != 'H' && q[k] != '4' && q[k] != '5' && q[k] != '7';
    NotContains(q, "HD");
    NotContains(q, "480");
    NotContains(q, "576");
    NotContains(q, "720");
  }

  /** A 720 or 1080 quality is always high definition and widescreen. */
  lemma {:induction false} HdIsWidescreen(q: Option<string>)
    requires QualityClass(q).lines >= 720
    ensures QualityClass(q).hd && Widescreen(QualityClass(q))
  {
  }

  /** `W:H` written with `%d` reads back as the pair. */
  lemma {:induction false} AspectRoundTrip(w: int, h: int)
    ensures AspectRatio(IntText(w) + ":" + IntText(h)) == Some((w, h))
  {
    var tw, th := IntText(w), IntText(h);
    var s := tw + ":" + th;
    assert s[0..|tw|] == tw;
    assert s[|tw|] == ':';
    ScanIntAt(s, 0, w);
    assert s[|tw| + 1..|tw| + 1 + |th|] == th;
    ScanIntAt(s, |tw| + 1, h);
  }

  /** An aspect element `W:H` sets the aspect to C's `100*W/H`, truncated toward zero, whatever the quality says. */
  lemma {:induction false} AspectOverrides(video: Msg, w: int, h: int)
    requires h != 0
    requires CdataOf(video, "aspect") == Some(IntText(w) + ":" + IntText(h))
    ensures AspectDefined(video)
    ensures VideoOf(video).aspect == CDiv(100 * w, h)
  {
    AspectRoundTrip(w, h);
  }

  /** 16:9 gives 177 and is widescreen; 4:3 gives 133 and is not; -4:3 gives -133 (truncation, not -134). */
  lemma {:induction false} AspectExamples()
    ensures CDiv(100 * 16, 9) == 177 && Widescreen(VideoClass(false, 0, CDiv(100 * 16, 9)))
    ensures CDiv(100 * 4, 3) == 133 && !Widescreen(VideoClass(false, 0, CDiv(100 * 4, 3)))
    ensures CDiv(100 * -4, 3) == -133
  {
  }

  // ---------------------------------------------------------------------
  // Accessibility
  // ---------------------------------------------------------------------

  /** The accessibility flags a set of elements asks for. */
  datatype Access = Access(subtitled: bool, deafSigned: bool, audioDesc: bool)

  const NoAccess := Access(false, false, false)

  function Join(a: Access, b: Access): Access
  {
    Access(a.subtitled || b.subtitled, a.deafSigned || b.deafSigned, a.audioDesc || b.audioDesc)
  }

  /** One child element: `subtitles` with `type` teletext or deaf-signed, or `audio-described`. */
  function AccessOfField(f: Field): Access
  {
    if f.name == "subtitles" then
      match MapOf(f)
      case None => NoAccess
      case Some(tag) =>
        var t := AttrOf(tag, "type");
        if t == Some("teletext") then Access(true, false, false)
        else if t == Some("deaf-signed") then Access(false, true, false)
        else NoAccess
    else if f.name == "audio-described" then Access(false, false, true)
    else NoAccess
  }

  /** All the child elements together. */
  function AccessOf(fields: seq<Field>): Access
  {
    if fields == [] then NoAccess
    else Join(AccessOf(fields[..|fields| - 1]), AccessOfField(fields[|fields| - 1]))
  }

  /**
   * `xmltv_parse_accessibility`: each requested flag is set to 1, none is
   * ever cleared, and the result says whether any flag went from 0 to 1.
   */
  method ParseAccessibility(b: Broadcast, m: Msg) returns (save: bool)
    modifies b`isSubtitled, b`isDeafSigned, b`isAudioDesc
    ensures b.isSubtitled == (old(b.isSubtitled) || AccessOf(m.fields).subtitled)
    ensures b.isDeafSigned == (old(b.isDeafSigned) || AccessOf(m.fields).deafSigned)
    ensures b.isAudioDesc == (old(b.isAudioDesc) || AccessOf(m.fields).audioDesc)
    ensures save == (b.isSubtitled != old(b.isSubtitled) || b.isDeafSigned != old(b.isDeafSigned) ||
                     b.isAudioDesc != old(b.isAudioDesc))
  {
    save := false;
    var i := 0;
    while i < |m.fields|
      invariant i <= |m.fields|
      invariant b.isSubtitled == (old(b.isSubtitled) || AccessOf(m.fields[..i]).subtitled)
      invariant b.isDeafSigned == (old(b.isDeafSigned) || AccessOf(m.fields[..i]).deafSigned)
      invariant b.isAudioDesc == (old(b.isAudioDesc) || AccessOf(m.fields[..i]).audioDesc)
      invariant save == (b.isSubtitled != old(b.isSubtitled) || b.isDeafSigned != old(b.isDeafSigned) ||
                         b.isAudioDesc != old(b.isAudioDesc))
    {
      var f := m.fields[i];
      var changed := false;
      if f.name == "subtitles" {
        var tag := MapOf(f);
        if tag.Some? {
          var t := AttrOf(tag.value, "type");
          if t == Some("teletext") {
            changed := b.SetIsSubtitled(true);
          } else if t == Some("deaf-signed") {
            changed := b.SetIsDeafSigned(true);
          }
        }
      } else if f.name == "audio-described" {
        changed := b.SetIsAudioDesc(true);
      }
      save := save || changed;
      AccessOfStep(m.fields, i);
      i := i + 1;
    }
    assert m.fields[..i] == m.fields;
  }

  lemma {:induction false} AccessOfStep(fields: seq<Field>, i: nat)
    requires i < |fields|
    ensures AccessOf(fields[..i + 1]) == Join(AccessOf(fields[..i]), AccessOfField(fields[i]))
  {
    assert fields[..i + 1][..i] == fields[..i];
  }

  /** The flags requested by consecutive runs of elements combine: order and grouping do not matter. */
  lemma {:induction false} AccessOfAppend(a: seq<Field>, b: seq<Field>)
    ensures AccessOf(a + b) == Join(AccessOf(a), AccessOf(b))
    decreases |b|
  {
    if b == [] {
      assert a + b == a;
    } else {
      var b' := b[..|b| - 1];
      assert (a + b)[..|a + b| - 1] == a + b';
      AccessOfAppend(a, b');
    }
  }

  /** Parsing the same elements twice changes nothing the second time. */
  lemma {:induction false} AccessIdempotent(fields: seq<Field>)
    ensures Join(AccessOf(fields), AccessOf(fields)) == AccessOf(fields)
    ensures AccessOf(fields + fields) == AccessOf(fields)
  {
    AccessOfAppend(fields, fields);
  }

  // ---------------------------------------------------------------------
  // Repeat and premiere
  // ---------------------------------------------------------------------

  /** Which of the repeat and new flags a programme sets. */
  datatype Rerun = Rerun(repeat: bool, isNew: bool)

  function RerunOf(tags: Msg): Rerun
  {
    if HasMap(tags, "previously-shown") then Rerun(true, false)
    else if HasMap(tags, "premiere") || HasMap(tags, "new") then Rerun(false, true)
    else Rerun(false, false)
  }

  /** A programme is never marked both repeat and new; `previously-shown` wins over `premiere` and `new`. */
  lemma {:induction false} RerunExclusive(tags: Msg)
    ensures !(RerunOf(tags).repeat && RerunOf(tags).isNew)
    ensures RerunOf(tags).repeat <==> HasMap(tags, "previously-shown")
    ensures RerunOf(tags).isNew <==>
      !HasMap(tags, "previously-shown") && (HasMap(tags, "premiere") || HasMap(tags, "new"))
  {
  }

  /** The repeat/new step of the programme code: sets the chosen flag to 1, clears nothing. */
  method ParseRerun(b: Broadcast, tags: Msg) returns (save: bool)
    modifies b`isRepeat, b`isNew
    ensures b.isRepeat == (old(b.isRepeat) || RerunOf(tags).repeat)
    ensures b.isNew == (old(b.isNew) || RerunOf(tags).isNew)
    ensures save == (b.isRepeat != old(b.isRepeat) || b.isNew != old(b.isNew))
  {
    save := false;
    if GetMap(tags, "previously-shown").Some? {
      save := b.SetIsRepeat(true);
    } else if GetMap(tags, "premiere").Some? || GetMap(tags, "new").Some? {
      save := b.SetIsNew(true);
    }
  }

  // ---------------------------------------------------------------------
  // Categories and language strings
  // ---------------------------------------------------------------------

  /** The child elements called `name` (map-valued fields), in document order. */
  function Elements(fields: seq<Field>, name: string): (r: seq<Msg>)
    ensures |r| <= |fields|
  {
    if fields == [] then []
    else
      var f := fields[|fields| - 1];
      Elements(fields[..|fields| - 1], name) + (if f.name == name && f.value.Map? then [f.value.msg] else [])
  }

  /** There are no such elements exactly when no field of that name holds a map. */
  lemma {:induction false} ElementsEmpty(fields: seq<Field>, name: string)
    ensures Elements(fields, name) == [] <==>
      forall k | 0 <= k < |fields| :: !(fields[k].name == name && fields[k].value.Map?)
  {
    if fields != [] {
      ElementsEmpty(fields[..|fields| - 1], name);
    }
  }

  /** The genre list of a programme: one entry per `category` element, or None when there is none. */
  function CategoriesOf(tags: Msg): Option<GenreList>
  {
    CategoriesIn(tags.fields)
  }

  function CategoriesIn(fields: seq<Field>): Option<GenreList>
  {
    var es := Elements(fields, "category");
    if es == [] then None else Some(CategoryTexts(es))
  }

  function CategoryTexts(es: seq<Msg>): (r: GenreList)
    ensures |r| == |es|
    ensures forall k | 0 <= k < |es| :: r[k] == GetStr(es[k], "cdata")
  {
    if es == [] then [] else CategoryTexts(es[..|es| - 1]) + [GetStr(es[|es| - 1], "cdata")]
  }

  /** One more element: a `category` element appends its text, creating the list if needed. */
  lemma {:induction false} CategoriesStep(fields: seq<Field>, f: Field)
    ensures CategoriesIn(fields + [f]) ==
      if f.name == "category" && f.value.Map? then
        Some((if CategoriesIn(fields).None? then [] else CategoriesIn(fields).value) + [GetStr(f.value.msg, "cdata")])
      else CategoriesIn(fields)
  {
    assert (fields + [f])[..|fields|] == fields;
    var es := Elements(fields, "category");
    if f.name == "category" && f.value.Map? {
      assert Elements(fields + [f], "category") == es + [f.value.msg];
      assert (es + [f.value.msg])[..|es|] == es;
    } else {
      assert Elements(fields + [f], "category") == es;
    }
  }

  /** `_xmltv_parse_categories`: the list is created at the first `category` element. */
  method ParseCategories(tags: Msg) returns (egl: Option<GenreList>)
    ensures egl == CategoriesOf(tags)
  {
    egl := None;
    var i := 0;
    while i < |tags.fields|
      invariant i <= |tags.fields|
      invariant egl == CategoriesIn(tags.fields[..i])
    {
      var f := tags.fields[i];
      CategoriesStep(tags.fields[..i], f);
      if f.name == "category" && f.value.Map? {
        var g := if egl.None? then [] else egl.value;
        egl := Some(g + [GetStr(f.value.msg, "cdata")]);
      }
      assert tags.fields[..i + 1] == tags.fields[..i] + [f];
      i := i + 1;
    }
    assert tags.fields[..i] == tags.fields;
  }

  /** One language-string entry: the element's text and its `lang` attribute. */
  function LangEntryOf(e: Msg): LangEntry
  {
    var lang := match GetMap(e, "attrib") case None => None case Some(a) => GetStr(a, "lang");
    LangEntry(GetStr(e, "cdata"), lang)
  }

  function LangEntries(es: seq<Msg>): (r: LangStr)
    ensures |r| == |es|
    ensures forall k | 0 <= k < |es| :: r[k] == LangEntryOf(es[k])
  {
    if es == [] then [] else LangEntries(es[..|es| - 1]) + [LangEntryOf(es[|es| - 1])]
  }

  /** The language string of the elements called `tname`, or None when there is none. */
  function LangStrOf(tags: Msg, tname: string): Option<LangStr>
  {
    LangStrIn(tags.fields, tname)
  }

  function LangStrIn(fields: seq<Field>, tname: string): Option<LangStr>
  {
    var es := Elements(fields, tname);
    if es == [] then None else Some(LangEntries(es))
  }

  /** One more element: a matching element appends its entry, creating the string if needed. */
  lemma {:induction false} LangStrStep(fields: seq<Field>, tname: string, f: Field)
    ensures LangStrIn(fields + [f], tname) ==
      if f.name == tname && f.value.Map? then
        Some((if LangStrIn(fields, tname).None? then [] else LangStrIn(fields, tname).value) + [LangEntryOf(f.value.msg)])
      else LangStrIn(fields, tname)
  {
    assert (fields + [f])[..|fields|] == fields;
    var es := Elements(fields, tname);
    if f.name == tname && f.value.Map? {
      assert Elements(fields + [f], tname) == es + [f.value.msg];
      assert (es + [f.value.msg])[..|es|] == es;
    } else {
      assert Elements(fields + [f], tname) == es;
    }
  }

  /**
   * `_xmltv_parse_lang_str`, called with an empty string: created at the
   * first matching element, then one entry per element in document order.
   */
  method ParseLangStr(tags: Msg, tname: string) returns (ls: Option<LangStr>)
    ensures ls == LangStrOf(tags, tname)
  {
    ls := None;
    var i := 0;
    while i < |tags.fields|
      invariant i <= |tags.fields|
      invariant ls == LangStrIn(tags.fields[..i], tname)
    {
      var f := tags.fields[i];
      LangStrStep(tags.fields[..i], tname, f);
      if f.name == tname && f.value.Map? {
        var e := f.value.msg;
        var lang: Option<string> := None;
        var attrib := GetMap(e, "attrib");
        if attrib.Some? {
          lang := GetStr(attrib.value, "lang");
        }
        var cur := if ls.None? then [] else ls.value;
        ls := Some(cur + [LangEntry(GetStr(e, "cdata"), lang)]);
      }
      assert tags.fields[..i + 1] == tags.fields[..i] + [f];
      i := i + 1;
    }
    assert tags.fields[..i] == tags.fields;
  }

  /** A language string is absent exactly when no element of that name exists, and has one entry per element. */
  lemma {:induction false} LangStrShape(tags: Msg, tname: string)
    ensures LangStrOf(tags, tname).None? <==>
      forall k | 0 <= k < |tags.fields| :: !(tags.fields[k].name == tname && tags.fields[k].value.Map?)
    ensures LangStrOf(tags, tname).Some? ==> |LangStrOf(tags, tname).value| == |Elements(tags.fields, tname)|
  {
    ElementsEmpty(tags.fields, tname);
  }

  /** Likewise for categories. */
  lemma {:induction false} CategoriesShape(tags: Msg)
    ensures CategoriesOf(tags).None? <==>
      forall k | 0 <= k < |tags.fields| :: !(tags.fields[k].name == "category" && tags.fields[k].value.Map?)
  {
    ElementsEmpty(tags.fields, "category");
  }
}
