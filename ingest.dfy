/**
 * Ingest of an XMLTV `tv` document into the guide: feed channels
 * (`_xmltv_parse_channel`), programmes (`_xmltv_parse_programme` and
 * `_xmltv_parse_programme_tags`), the document walk (`_xmltv_parse_tv`) and
 * the top-level dispatch between a `tv` document and a lineup document
 * (`_xmltv_parse`). The global `dispatch_clock` is the parameter `clock`,
 * the C library's local-time conversion the parameter `localTime`, and the
 * module's id the parameter `modId`.
 */
module Ingest {
  import opened Common
  import opened Htsmsg
  import opened TimeCodec
  import opened EpisodeNumbering
  import opened Guide
  import opened Metadata

  /** The identifiers and numbering a programme's `episode-num` elements give, starting from nothing. */
  function ProgrammeIds(modId: string, tags: Msg): EpisodeIds
  {
    EpisodeInfo(modId, tags.fields, EpisodeIds(None, None, ZeroEpNum))
  }

  /** `get_episode_info` run on a programme's tags, starting from nothing. */
  method ProgrammeInfo(modId: string, tags: Msg) returns (ids: EpisodeIds)
    ensures ids == ProgrammeIds(modId, tags)
  {
    ids := GetEpisodeInfo(modId, tags, EpisodeIds(None, None, ZeroEpNum));
  }

  /** A programme whose `video` element, if any, has no `W:0` aspect. */
  predicate ProgrammeDefined(tags: Msg)
  {
    match GetMap(tags, "video")
    case None => true
    case Some(v) => AspectDefined(v)
  }

  /**
   * One record counted in a statistics line: the total always rises,
   * `created` rises when the record was created and `modified` when it was
   * created or changed (`if (save) stats->...created++` and the like).
   */
  function Count(c: Counter, created: bool, modified: bool): (r: Counter)
    ensures r.total != c.total && (r.created != c.created) == created && (r.modified != c.modified) == modified
  {
    Counter(Inc(c.total), IncIf(created, c.created), IncIf(modified, c.modified))
  }

  /** What a programme's own tags say about its broadcast. */
  datatype BroadcastFacts = BroadcastFacts(desc: Option<LangStr>, video: Option<VideoClass>, access: Access, rerun: Rerun)

  function BroadcastFactsOf(tags: Msg): BroadcastFacts
    requires ProgrammeDefined(tags)
  {
    var video := match GetMap(tags, "video") case None => None case Some(v) => Some(VideoOf(v));
    BroadcastFacts(LangStrOf(tags, "desc"), video, AccessOf(tags.fields), RerunOf(tags))
  }

  /** The picture, accessibility and repeat/new flags of a broadcast. */
  datatype BroadcastFlags = BroadcastFlags(
    isHd: bool, isWidescreen: bool, aspect: int, lines: int,
    isSubtitled: bool, isDeafSigned: bool, isAudioDesc: bool,
    isRepeat: bool, isNew: bool)

  function FlagsOf(b: Broadcast): BroadcastFlags
    reads b
  {
    BroadcastFlags(b.isHd, b.isWidescreen, b.aspect, b.lines,
                   b.isSubtitled, b.isDeafSigned, b.isAudioDesc, b.isRepeat, b.isNew)
  }

  /** The flags of a freshly created broadcast. */
  const BlankFlags := BroadcastFlags(false, false, 0, 0, false, false, false, false, false)

  /**
   * The flags once a `video` element's class is applied: the HD flag is
   * set, the aspect (with the widescreen flag) and the line count only when
   * the class gives them. Without a `video` element nothing changes.
   */
  function PictureAfter(fl: BroadcastFlags, video: Option<VideoClass>): BroadcastFlags
  {
    match video
    case None => fl
    case Some(c) =>
      fl.(isHd := c.hd,
          isWidescreen := if c.aspect != 0 then Widescreen(c) else fl.isWidescreen,
          aspect := if c.aspect != 0 then c.aspect else fl.aspect,
          lines := if c.lines != 0 then c.lines else fl.lines)
  }

  /** The accessibility and repeat/new flags raised, never cleared. */
  function FlagsRaised(fl: BroadcastFlags, access: Access, rerun: Rerun): BroadcastFlags
  {
    fl.(isSubtitled := fl.isSubtitled || access.subtitled,
        isDeafSigned := fl.isDeafSigned || access.deafSigned,
        isAudioDesc := fl.isAudioDesc || access.audioDesc,
        isRepeat := fl.isRepeat || rerun.repeat,
        isNew := fl.isNew || rerun.isNew)
  }

  /** The flags once a programme's facts are applied; everything else keeps its earlier value. */
  function FlagsAfter(fl: BroadcastFlags, f: BroadcastFacts): BroadcastFlags
  {
    FlagsRaised(PictureAfter(fl, f.video), f.access, f.rerun)
  }

  /** The flags carry every flag the facts give. */
  predicate FlagsShow(fl: BroadcastFlags, f: BroadcastFacts)
  {
    && (f.video.Some? ==>
          var c := f.video.value;
          && fl.isHd == c.hd
          && (c.aspect != 0 ==> fl.isWidescreen == Widescreen(c) && fl.aspect == c.aspect)
          && (c.lines != 0 ==> fl.lines == c.lines))
    && (f.access.subtitled ==> fl.isSubtitled)
    && (f.access.deafSigned ==> fl.isDeafSigned)
    && (f.access.audioDesc ==> fl.isAudioDesc)
    && (f.rerun.repeat ==> fl.isRepeat)
    && (f.rerun.isNew ==> fl.isNew)
  }

  /** Applying the facts makes the flags show them. */
  lemma {:induction false} FlagsAfterShows(fl: BroadcastFlags, f: BroadcastFacts)
    ensures FlagsShow(FlagsAfter(fl, f), f)
  {
  }

  /** Applying the facts changes nothing exactly when the flags already show them. */
  lemma {:induction false} FlagsAfterUnchanged(fl: BroadcastFlags, f: BroadcastFacts)
    ensures FlagsAfter(fl, f) == fl <==> FlagsShow(fl, f)
  {
  }

  /** The same programme applied twice: the second pass changes no flag. */
  lemma {:induction false} FlagsAfterIdempotent(fl: BroadcastFlags, f: BroadcastFacts)
    ensures FlagsAfter(FlagsAfter(fl, f), f) == FlagsAfter(fl, f)
  {
    FlagsAfterShows(fl, f);
    FlagsAfterUnchanged(FlagsAfter(fl, f), f);
  }

  /**
   * The broadcast carries the facts: the description when the tags give
   * one, and the flags as `FlagsShow` says. Only what the facts give is
   * constrained; the methods below say what happens to the rest.
   */
  ghost predicate BroadcastShows(b: Broadcast, f: BroadcastFacts)
    reads b
  {
    (f.desc.Some? ==> b.description == f.desc) && FlagsShow(FlagsOf(b), f)
  }

  /** What a programme's tags say about its episode, besides the numbering. */
  datatype EpisodeFacts = EpisodeFacts(title: Option<LangStr>, subtitle: Option<LangStr>, genre: Option<GenreList>)

  function EpisodeFactsOf(tags: Msg): EpisodeFacts
  {
    EpisodeFacts(LangStrOf(tags, "title"), LangStrOf(tags, "sub-title"), CategoriesOf(tags))
  }

  /** The episode carries the numbering, and the title, sub-title and genres where the tags give them. */
  ghost predicate EpisodeShows(e: Episode, f: EpisodeFacts, epnum: EpNum)
    reads e
  {
    && e.epnum == epnum
    && (f.title.Some? ==> e.title == f.title)
    && (f.subtitle.Some? ==> e.subtitle == f.subtitle)
    && (f.genre.Some? ==> e.genre == f.genre)
  }

  /** The fields of an episode the programme's tags write. */
  datatype EpisodeTags = EpisodeTags(title: Option<LangStr>, subtitle: Option<LangStr>, genre: Option<GenreList>, epnum: EpNum)

  function EpisodeTagsOf(e: Episode): EpisodeTags
    reads e
  {
    EpisodeTags(e.title, e.subtitle, e.genre, e.epnum)
  }

  /** The fields of a freshly created episode. */
  const BlankTags := EpisodeTags(None, None, None, ZeroEpNum)

  /**
   * An episode's fields once a programme's tags are applied: the title,
   * sub-title and genres are replaced when the tags give them and kept
   * otherwise; the numbering is always replaced.
   */
  function TagsAfter(t: EpisodeTags, f: EpisodeFacts, epnum: EpNum): EpisodeTags
  {
    EpisodeTags(if f.title.Some? then f.title else t.title,
                if f.subtitle.Some? then f.subtitle else t.subtitle,
                if f.genre.Some? then f.genre else t.genre,
                epnum)
  }

  /** What a reader of the guide sees of an episode. */
  datatype EpisodeView = EpisodeView(uri: Option<string>, isBw: bool, tags: EpisodeTags)

  /** What a reader of the guide sees of a broadcast, its episode included. */
  datatype BroadcastView = BroadcastView(flags: BroadcastFlags, description: Option<LangStr>,
                                         seriesLink: Option<string>, episode: Option<EpisodeView>)

  /** What a reader of the guide sees: every broadcast, every episode by URI, and the series links. */
  datatype GuideView = GuideView(broadcasts: map<BroadcastKey, BroadcastView>,
                                 episodes: map<string, EpisodeView>, seriesLinks: set<string>)

  function EpisodeViewOf(e: Episode): EpisodeView
    reads e
  {
    EpisodeView(e.uri, e.isBw, EpisodeTagsOf(e))
  }

  function BroadcastViewOf(b: Broadcast): BroadcastView
    reads b, b.episode
  {
    BroadcastView(FlagsOf(b), b.description, b.seriesLink,
                  if b.episode == null then None else Some(EpisodeViewOf(b.episode)))
  }

  /** The guide as its readers see it; two states with the same view differ in nothing a reader can tell. */
  ghost function ViewOf(store: GuideStore): (v: GuideView)
    requires store.Valid()
    reads store, store.Repr
    ensures v.broadcasts.Keys == store.broadcasts.Keys && v.episodes.Keys == store.episodes.Keys
    ensures v.seriesLinks == store.seriesLinks
  {
    GuideView(map k | k in store.broadcasts :: BroadcastViewOf(store.broadcasts[k]),
              map u | u in store.episodes :: EpisodeViewOf(store.episodes[u]),
              store.seriesLinks)
  }

  // ---------------------------------------------------------------------
  // _xmltv_parse_programme_tags, in three steps
  // ---------------------------------------------------------------------

  /** Picture quality with no episode yet, accessibility, and the repeat/new flags. */
  method ApplyFlags(b: Broadcast, tags: Msg) returns (save: bool)
    requires ProgrammeDefined(tags)
    modifies b`isHd, b`isWidescreen, b`aspect, b`lines
    modifies b`isSubtitled, b`isDeafSigned, b`isAudioDesc, b`isRepeat, b`isNew
    ensures GetMap(tags, "video").None? ==> b.isHd == old(b.isHd) && b.isWidescreen == old(b.isWidescreen) && b.aspect == old(b.aspect) && b.lines == old(b.lines)
    ensures GetMap(tags, "video").Some? ==>
      var c := VideoOf(GetMap(tags, "video").value);
      && b.isHd == c.hd
      && (if c.aspect != 0 then b.isWidescreen == Widescreen(c) && b.aspect == c.aspect
          else b.isWidescreen == old(b.isWidescreen) && b.aspect == old(b.aspect))
      && b.lines == (if c.lines != 0 then c.lines else old(b.lines))
    ensures b.isSubtitled == (old(b.isSubtitled) || AccessOf(tags.fields).subtitled)
    ensures b.isDeafSigned == (old(b.isDeafSigned) || AccessOf(tags.fields).deafSigned)
    ensures b.isAudioDesc == (old(b.isAudioDesc) || AccessOf(tags.fields).audioDesc)
    ensures b.isRepeat == (old(b.isRepeat) || RerunOf(tags).repeat)
    ensures b.isNew == (old(b.isNew) || RerunOf(tags).isNew)
    ensures save == (b.isHd != old(b.isHd) || b.isWidescreen != old(b.isWidescreen) ||
                     b.aspect != old(b.aspect) || b.lines != old(b.lines) ||
                     b.isSubtitled != old(b.isSubtitled) || b.isDeafSigned != old(b.isDeafSigned) ||
                     b.isAudioDesc != old(b.isAudioDesc) ||
                     b.isRepeat != old(b.isRepeat) || b.isNew != old(b.isNew))
  {
    var video := GetMap(tags, "video");
    save := ParseVidQuality(b, null, video);
    var changed := ParseAccessibility(b, tags);
    save := save || changed;
    changed := ParseRerun(b, tags);
    save := save || changed;
  }

  /** Flag by flag, what applying a programme's facts does. */
  lemma {:induction false} FlagsStep(fl0: BroadcastFlags, fl: BroadcastFlags, f: BroadcastFacts)
    requires f.video.None? ==> fl.isHd == fl0.isHd && fl.isWidescreen == fl0.isWidescreen && fl.aspect == fl0.aspect && fl.lines == fl0.lines
    requires f.video.Some? ==>
      var c := f.video.value;
      && fl.isHd == c.hd
      && (if c.aspect != 0 then fl.isWidescreen == Widescreen(c) && fl.aspect == c.aspect
          else fl.isWidescreen == fl0.isWidescreen && fl.aspect == fl0.aspect)
      && fl.lines == (if c.lines != 0 then c.lines else fl0.lines)
    requires fl.isSubtitled == (fl0.isSubtitled || f.access.subtitled)
    requires fl.isDeafSigned == (fl0.isDeafSigned || f.access.deafSigned)
    requires fl.isAudioDesc == (fl0.isAudioDesc || f.access.audioDesc)
    requires fl.isRepeat == (fl0.isRepeat || f.rerun.repeat)
    requires fl.isNew == (fl0.isNew || f.rerun.isNew)
    ensures fl == FlagsAfter(fl0, f)
  {
  }

  /** Two flag values differ exactly when one of the flags does. */
  lemma {:induction false} FlagsDiffer(fl0: BroadcastFlags, fl: BroadcastFlags)
    ensures (fl != fl0) == (|| fl.isHd != fl0.isHd || fl.isWidescreen != fl0.isWidescreen
                            || fl.aspect != fl0.aspect || fl.lines != fl0.lines
                            || fl.isSubtitled != fl0.isSubtitled || fl.isDeafSigned != fl0.isDeafSigned
                            || fl.isAudioDesc != fl0.isAudioDesc || fl.isRepeat != fl0.isRepeat || fl.isNew != fl0.isNew)
  {
  }

  /** ApplyFlags' postcondition, stated on flag records, is one step of FlagsAfter. */
  lemma {:induction false} FlagsStepOf(fl0: BroadcastFlags, fl: BroadcastFlags, tags: Msg)
    requires ProgrammeDefined(tags)
    requires GetMap(tags, "video").None? ==> fl.isHd == fl0.isHd && fl.isWidescreen == fl0.isWidescreen && fl.aspect == fl0.aspect && fl.lines == fl0.lines
    requires GetMap(tags, "video").Some? ==>
      var c := VideoOf(GetMap(tags, "video").value);
      && fl.isHd == c.hd
      && (if c.aspect != 0 then fl.isWidescreen == Widescreen(c) && fl.aspect == c.aspect
          else fl.isWidescreen == fl0.isWidescreen && fl.aspect == fl0.aspect)
      && fl.lines == (if c.lines != 0 then c.lines else fl0.lines)
    requires fl.isSubtitled == (fl0.isSubtitled || AccessOf(tags.fields).subtitled)
    requires fl.isDeafSigned == (fl0.isDeafSigned || AccessOf(tags.fields).deafSigned)
    requires fl.isAudioDesc == (fl0.isAudioDesc || AccessOf(tags.fields).audioDesc)
    requires fl.isRepeat == (fl0.isRepeat || RerunOf(tags).repeat)
    requires fl.isNew == (fl0.isNew || RerunOf(tags).isNew)
    ensures fl == FlagsAfter(fl0, BroadcastFactsOf(tags))
  {
    FactsParts(tags);
    FlagsStep(fl0, fl, BroadcastFactsOf(tags));
  }

  /** The parts of a programme's broadcast facts, one by one. */
  lemma {:induction false} FactsParts(tags: Msg)
    requires ProgrammeDefined(tags)
    ensures var f := BroadcastFactsOf(tags);
            && f.video == (if GetMap(tags, "video").Some? then Some(VideoOf(GetMap(tags, "video").value)) else None)
            && f.access == AccessOf(tags.fields) && f.rerun == RerunOf(tags) && f.desc == LangStrOf(tags, "desc")
  {
  }

  /** The description, when the tags give one; the result says whether it changed. */
  method ApplyDescription(b: Broadcast, tags: Msg) returns (save3: bool)
    modifies b`description
    ensures b.description == (if LangStrOf(tags, "desc").Some? then LangStrOf(tags, "desc") else old(b.description))
    ensures save3 == (b.description != old(b.description))
  {
    save3 := false;
    var desc := ParseLangStr(tags, "desc");
    if desc.Some? {
      save3 := b.SetDescription(desc.value);
    }
  }

  /**
   * The broadcast-level part: description (whose dirty bit the source
   * collects in the episode's `save3`), picture quality with no episode
   * yet, accessibility, and the repeat/new flags.
   */
  method ApplyBroadcastTags(b: Broadcast, tags: Msg) returns (save: bool, save3: bool)
    requires ProgrammeDefined(tags)
    modifies b`description, b`isHd, b`isWidescreen, b`aspect, b`lines
    modifies b`isSubtitled, b`isDeafSigned, b`isAudioDesc, b`isRepeat, b`isNew
    ensures b.description == (if LangStrOf(tags, "desc").Some? then LangStrOf(tags, "desc") else old(b.description))
    ensures save3 == (b.description != old(b.description))
    ensures FlagsOf(b) == FlagsAfter(old(FlagsOf(b)), BroadcastFactsOf(tags))
    ensures save == (FlagsOf(b) != old(FlagsOf(b)))
  {
    save3 := ApplyDescription(b, tags);
    ghost var fl := FlagsOf(b);
    assert fl == old(FlagsOf(b));
    save := ApplyFlags(b, tags);
    assert FlagsOf(b) == FlagsAfter(fl, BroadcastFactsOf(tags)) && save == (FlagsOf(b) != fl) by {
      FlagsStepOf(fl, FlagsOf(b), tags);
      FlagsDiffer(fl, FlagsOf(b));
    }
  }

  /** The episode-level part: title, sub-title, genre and numbering of the episode found. */
  method ApplyEpisodeTags(ee: Episode, tags: Msg, epnum: EpNum) returns (save3: bool)
    modifies ee`title, ee`subtitle, ee`genre, ee`epnum
    ensures ee.title == (if LangStrOf(tags, "title").Some? then LangStrOf(tags, "title") else old(ee.title))
    ensures ee.subtitle == (if LangStrOf(tags, "sub-title").Some? then LangStrOf(tags, "sub-title") else old(ee.subtitle))
    ensures ee.genre == (if CategoriesOf(tags).Some? then CategoriesOf(tags) else old(ee.genre))
    ensures ee.epnum == epnum
    ensures EpisodeTagsOf(ee) == TagsAfter(old(EpisodeTagsOf(ee)), EpisodeFactsOf(tags), epnum)
    ensures save3 == (EpisodeTagsOf(ee) != old(EpisodeTagsOf(ee)))
    ensures EpisodeShows(ee, EpisodeFactsOf(tags), epnum)
  {
    save3 := false;
    var title := ParseLangStr(tags, "title");
    var subtitle := ParseLangStr(tags, "sub-title");
    var changed;
    if title.Some? {
      changed := ee.SetTitle(title.value);
      save3 := save3 || changed;
    }
    if subtitle.Some? {
      changed := ee.SetSubtitle(subtitle.value);
      save3 := save3 || changed;
    }
    var egl := ParseCategories(tags);
    if egl.Some? {
      changed := ee.SetGenre(egl.value);
      save3 := save3 || changed;
    }
    changed := ee.SetEpnum(epnum);
    save3 := save3 || changed;
  }

  /**
   * The episode of the broadcast: found or created by URI and attached to
   * the broadcast, or, without a URI, the broadcast's own episode. The
   * created bit is OR-ed into `save3`.
   */
  method FindProgrammeEpisode(store: GuideStore, b: Broadcast, uri: Option<string>, ghost facts: BroadcastFacts)
    returns (ee: Episode, created: bool, save: bool)
    requires store.Valid() && b in store.broadcasts.Values && BroadcastShows(b, facts)
    modifies store, b`episode
    ensures store.Valid() && store.Repr == old(store.Repr) + {ee} && BroadcastShows(b, facts)
    ensures store.broadcasts == old(store.broadcasts) && store.seriesLinks == old(store.seriesLinks)
    ensures uri.Some? ==> created == (uri.value !in old(store.episodes)) && store.episodes == old(store.episodes)[uri.value := ee]
    ensures uri.Some? ==> !created ==> ee == old(store.episodes)[uri.value]
    ensures uri.None? ==> created == (old(b.episode) == null) && store.episodes == old(store.episodes)
    ensures uri.None? ==> !created ==> ee == old(b.episode)
    ensures uri.None? ==> !save
    ensures created ==> fresh(ee) && ee.uri == uri && EpisodeTagsOf(ee) == BlankTags
    ensures !created ==> ee in old(store.Repr)
    ensures b.episode == ee
    ensures uri.Some? ==> save == (ee != old(b.episode))
  {
    save := false;
    if uri.Some? {
      ee, created := store.FindEpisode(uri.value);
      save := b.SetEpisode(ee);
    } else {
      ee, created := b.GetEpisode();
      store.Repr := store.Repr + {ee};
    }
  }

  /**
   * The first part of `_xmltv_parse_programme_tags`: the broadcast found or
   * created by (channel, start, stop), with its own tags applied. `save` is
   * the broadcast's dirty bit: created, or a flag changed; `save3` the
   * description's: the description changed (a created broadcast has none).
   */
  method ProgrammeBroadcast(store: GuideStore, key: BroadcastKey, tags: Msg)
    returns (b: Broadcast, created: bool, save: bool, save3: bool)
    requires store.Valid() && ProgrammeDefined(tags)
    modifies store, store.broadcasts.Values
    ensures store.Valid() && store.Repr == old(store.Repr) + {b}
    ensures fresh(b) || b in old(store.Repr)
    ensures store.broadcasts == old(store.broadcasts)[key := b]
    ensures store.episodes == old(store.episodes) && store.seriesLinks == old(store.seriesLinks)
    ensures created == (key !in old(store.broadcasts))
    ensures created ==> && fresh(b) && b.episode == null && b.seriesLink.None? && save
                        && FlagsOf(b) == FlagsAfter(BlankFlags, BroadcastFactsOf(tags))
                        && b.description == LangStrOf(tags, "desc") && save3 == LangStrOf(tags, "desc").Some?
    ensures !created ==> && b == old(store.broadcasts)[key]
                         && b.episode == old(b.episode) && b.seriesLink == old(b.seriesLink)
                         && FlagsOf(b) == FlagsAfter(old(FlagsOf(b)), BroadcastFactsOf(tags))
                         && save == (FlagsOf(b) != old(FlagsOf(b)))
                         && b.description == (if LangStrOf(tags, "desc").Some? then LangStrOf(tags, "desc") else old(b.description))
                         && save3 == (b.description != old(b.description))
    ensures BroadcastShows(b, BroadcastFactsOf(tags))
    ensures forall o: Broadcast | o in old(store.Repr) && o != b :: unchanged(o)
    ensures forall e: Episode | e in old(store.Repr) :: unchanged(e)
  {
    b, created := store.FindBroadcast(key);
    var changed;
    changed, save3 := ApplyBroadcastTags(b, tags);
    save := created || changed;
    FlagsAfterShows(if created then BlankFlags else old(FlagsOf(b)), BroadcastFactsOf(tags));
  }

  /**
   * The series-link part of `_xmltv_parse_programme_tags`: with a series
   * URI, the series link is found or created and set on the broadcast.
   * `save2` is the series line's created bit, `save` whether the broadcast's
   * series link changed.
   */
  method ProgrammeSeries(store: GuideStore, b: Broadcast, suri: Option<string>, ghost facts: BroadcastFacts)
    returns (save: bool, save2: bool)
    requires store.Valid() && b in store.broadcasts.Values && BroadcastShows(b, facts)
    modifies store`seriesLinks, b`seriesLink
    ensures store.Valid() && BroadcastShows(b, facts)
    ensures b.seriesLink == (if suri.Some? then suri else old(b.seriesLink))
    ensures save == (b.seriesLink != old(b.seriesLink))
    ensures suri.None? ==> !save2 && store.seriesLinks == old(store.seriesLinks)
    ensures suri.Some? ==> && save2 == (suri.value !in old(store.seriesLinks))
                           && store.seriesLinks == old(store.seriesLinks) + {suri.value}
  {
    save, save2 := false, false;
    if suri.Some? {
      save2 := store.FindSeriesLink(suri.value);
      save := b.SetSeriesLink(suri.value);
    }
  }

  /**
   * The broadcast and series-link parts of `_xmltv_parse_programme_tags`
   * together: `save` is the broadcast's dirty bit so far (created, a flag
   * changed or the series link changed), `save2` the series line's created
   * bit and `save3` the description's dirty bit.
   */
  method ProgrammeBroadcastSeries(store: GuideStore, key: BroadcastKey, tags: Msg, suri: Option<string>)
    returns (b: Broadcast, created: bool, save: bool, save2: bool, save3: bool)
    requires store.Valid() && ProgrammeDefined(tags)
    modifies store, store.broadcasts.Values
    ensures store.Valid() && store.Repr == old(store.Repr) + {b}
    ensures store.broadcasts == old(store.broadcasts)[key := b] && store.episodes == old(store.episodes)
    ensures store.seriesLinks == old(store.seriesLinks) + (if suri.Some? then {suri.value} else {})
    ensures save2 == (suri.Some? && suri.value !in old(store.seriesLinks))
    ensures created == (key !in old(store.broadcasts))
    ensures created ==> && fresh(b) && b.episode == null && save
                        && FlagsOf(b) == FlagsAfter(BlankFlags, BroadcastFactsOf(tags))
                        && b.description == LangStrOf(tags, "desc") && save3 == LangStrOf(tags, "desc").Some?
                        && b.seriesLink == suri
    ensures !created ==> && b == old(store.broadcasts)[key] && b.episode == old(b.episode)
                         && FlagsOf(b) == FlagsAfter(old(FlagsOf(b)), BroadcastFactsOf(tags))
                         && b.description == (if LangStrOf(tags, "desc").Some? then LangStrOf(tags, "desc") else old(b.description))
                         && b.seriesLink == (if suri.Some? then suri else old(b.seriesLink))
                         && save == (FlagsOf(b) != old(FlagsOf(b)) || b.seriesLink != old(b.seriesLink))
                         && save3 == (b.description != old(b.description))
    ensures BroadcastShows(b, BroadcastFactsOf(tags))
    ensures forall o: Broadcast | o in old(store.Repr) && o != b :: unchanged(o)
    ensures forall e: Episode | e in old(store.Repr) :: unchanged(e)
  {
    b, created, save, save3 := ProgrammeBroadcast(store, key, tags);
    assert store.broadcasts[key] == b;
    ghost var flags, desc, episode := FlagsOf(b), b.description, b.episode;
    var changed;
    changed, save2 := ProgrammeSeries(store, b, suri, BroadcastFactsOf(tags));
    assert FlagsOf(b) == flags && b.description == desc && b.episode == episode;
    save := save || changed;
  }

  /**
   * The last part of `_xmltv_parse_programme_tags`: the episode found or
   * created and given its tags. `save3` comes in holding the description's
   * dirty bit; `counted` is its value when the episode line's `created` is
   * counted (the description changed or the episode was created), and
   * `save3` its final value (also set when an episode field changed).
   * `save` says whether the broadcast was attached to another episode.
   */
  method ProgrammeEpisode(store: GuideStore, b: Broadcast, tags: Msg, ids: EpisodeIds, save3In: bool, ghost facts: BroadcastFacts)
    returns (save: bool, counted: bool, save3: bool)
    requires store.Valid() && b in store.broadcasts.Values && BroadcastShows(b, facts)
    modifies store, store.Repr
    ensures store.Valid() && old(store.Repr) <= store.Repr && fresh(store.Repr - old(store.Repr))
    ensures store.broadcasts == old(store.broadcasts) && store.seriesLinks == old(store.seriesLinks)
    ensures ids.uri.None? ==> store.episodes == old(store.episodes) && !save
    ensures ids.uri.Some? ==> && ids.uri.value in store.episodes
                              && store.episodes == old(store.episodes)[ids.uri.value := store.episodes[ids.uri.value]]
                              && b.episode == store.episodes[ids.uri.value] && b.episode.uri == ids.uri
                              && save == (b.episode != old(b.episode))
    ensures b.episode != null && EpisodeShows(b.episode, EpisodeFactsOf(tags), ids.epnum)
    ensures b.seriesLink == old(b.seriesLink) && FlagsOf(b) == old(FlagsOf(b)) && b.description == old(b.description)
    ensures BroadcastShows(b, facts)
    ensures var created := if ids.uri.Some? then ids.uri.value !in old(store.episodes) else old(b.episode) == null;
            && counted == (save3In || created)
            && (created ==> fresh(b.episode) && save3
                            && EpisodeTagsOf(b.episode) == TagsAfter(BlankTags, EpisodeFactsOf(tags), ids.epnum))
            && (!created ==> var e := b.episode;
                             && e in old(store.Repr) && save3 == (counted || EpisodeTagsOf(e) != old(EpisodeTagsOf(e)))
                             && EpisodeTagsOf(e) == TagsAfter(old(EpisodeTagsOf(e)), EpisodeFactsOf(tags), ids.epnum))
    ensures forall o: Broadcast | o in old(store.Repr) && o != b :: unchanged(o)
    ensures forall e: Episode | e in old(store.Repr) && e != b.episode :: unchanged(e)
  {
    var ee, created;
    ee, created, save := FindProgrammeEpisode(store, b, ids.uri, facts);
    counted := save3In || created;
    var changed := ApplyEpisodeTags(ee, tags, ids.epnum);
    save3 := counted || changed;
  }

  /** The dirty bits `_xmltv_parse_programme_tags` collects while it updates the guide. */
  datatype DirtyBits = DirtyBits(
    broadcastCreated: bool,  // the broadcast was created
    save: bool,              // the broadcast was created or changed
    save2: bool,             // the series link was created
    episodeCounted: bool,    // `save3` when the episode line's `created` is counted
    save3: bool)             // `save3` at the end: description, episode created or changed

  /**
   * The guide part of `_xmltv_parse_programme_tags`: the broadcast keyed by
   * (channel, start, stop), its series link and its episode are found or
   * created and given what the tags say; the result holds the dirty bits,
   * each set exactly when its record was created or one of its fields changed.
   */
  method ApplyProgramme(store: GuideStore, key: BroadcastKey, tags: Msg, ids: EpisodeIds)
    returns (b: Broadcast, bits: DirtyBits)
    requires store.Valid() && ProgrammeDefined(tags)
    modifies store, store.Repr
    ensures store.Valid() && old(store.Repr) <= store.Repr && fresh(store.Repr - old(store.Repr))
    // the store
    ensures store.broadcasts == old(store.broadcasts)[key := b]
    ensures bits.broadcastCreated == (key !in old(store.broadcasts))
    ensures bits.broadcastCreated ==> fresh(b)
    ensures !bits.broadcastCreated ==> b == old(store.broadcasts)[key]
    ensures store.seriesLinks == old(store.seriesLinks) + (if ids.suri.Some? then {ids.suri.value} else {})
    ensures ids.uri.None? ==> store.episodes == old(store.episodes)
    ensures ids.uri.Some? ==> b.episode != null && store.episodes == old(store.episodes)[ids.uri.value := b.episode]
    // the broadcast and its episode
    ensures BroadcastShows(b, BroadcastFactsOf(tags))
    ensures b.episode != null && EpisodeShows(b.episode, EpisodeFactsOf(tags), ids.epnum)
    ensures ids.uri.Some? ==> b.episode.uri == ids.uri
    ensures ids.suri.Some? ==> b.seriesLink == ids.suri
    // the dirty bits
    ensures bits.save2 == (ids.suri.Some? && ids.suri.value !in old(store.seriesLinks))
    ensures bits.broadcastCreated ==>
              && bits.save
              && bits.episodeCounted == (LangStrOf(tags, "desc").Some? || ids.uri.None? || ids.uri.value !in old(store.episodes))
    ensures !bits.broadcastCreated ==>
              && bits.save == (|| FlagsOf(b) != old(FlagsOf(b)) || b.seriesLink != old(b.seriesLink)
                               || (ids.uri.Some? && b.episode != old(b.episode)))
              && bits.episodeCounted == (|| b.description != old(b.description)
                                         || (if ids.uri.Some? then ids.uri.value !in old(store.episodes) else old(b.episode) == null))
    ensures var created := if ids.uri.Some? then ids.uri.value !in old(store.episodes) else bits.broadcastCreated || old(b.episode) == null;
            && (created ==> bits.save3)
            && (!created ==> var e := b.episode; e in old(store.Repr) && bits.save3 == (bits.episodeCounted || EpisodeTagsOf(e) != old(EpisodeTagsOf(e))))
    // what the broadcast and the episode hold afterwards, and what is left alone
    ensures bits.broadcastCreated ==>
              && FlagsOf(b) == FlagsAfter(BlankFlags, BroadcastFactsOf(tags))
              && b.description == LangStrOf(tags, "desc") && b.seriesLink == ids.suri
    ensures !bits.broadcastCreated ==>
              && FlagsOf(b) == FlagsAfter(old(FlagsOf(b)), BroadcastFactsOf(tags))
              && b.description == (if LangStrOf(tags, "desc").Some? then LangStrOf(tags, "desc") else old(b.description))
              && b.seriesLink == (if ids.suri.Some? then ids.suri else old(b.seriesLink))
    ensures var created := if ids.uri.Some? then ids.uri.value !in old(store.episodes) else bits.broadcastCreated || old(b.episode) == null;
            && (created ==> EpisodeTagsOf(b.episode) == TagsAfter(BlankTags, EpisodeFactsOf(tags), ids.epnum))
            && (!created ==> var e := b.episode; EpisodeTagsOf(e) == TagsAfter(old(EpisodeTagsOf(e)), EpisodeFactsOf(tags), ids.epnum))
    ensures forall o: Broadcast | o in old(store.Repr) && o != b :: unchanged(o)
    ensures forall e: Episode | e in old(store.Repr) && e != b.episode :: unchanged(e)
  {
    var bcreated, save1, save2, save3;
    b, bcreated, save1, save2, save3 := ProgrammeBroadcastSeries(store, key, tags, ids.suri);
    assert store.broadcasts[key] == b;
    var changed, counted;
    changed, counted, save3 := ProgrammeEpisode(store, b, tags, ids, save3, BroadcastFactsOf(tags));
    save1 := save1 || changed;
    bits := DirtyBits(bcreated, save1, save2, counted, save3);
  }

  /**
   * The statistics of `_xmltv_parse_programme_tags`, from the counters the
   * programme started with: the broadcast and the episode lines count one
   * record each, the seasons line one when the programme names a series;
   * each is counted as created and as modified by its dirty bits.
   */
  method CountProgramme(stats: Stats, bits: DirtyBits, series: bool, broadcasts: Counter, seasons: Counter, episodes: Counter)
    modifies stats`broadcasts, stats`seasons, stats`episodes
    ensures stats.broadcasts == Count(broadcasts, bits.broadcastCreated, bits.save)
    ensures stats.seasons == if series then Count(seasons, bits.save2, bits.save2) else seasons
    ensures stats.episodes == Count(episodes, bits.episodeCounted, bits.save3)
  {
    stats.broadcasts := Count(broadcasts, bits.broadcastCreated, bits.save);
    stats.seasons := if series then Count(seasons, bits.save2, bits.save2) else seasons;
    stats.episodes := Count(episodes, bits.episodeCounted, bits.save3);
  }

  /**
   * `_xmltv_parse_programme_tags`: one programme on one local channel. The
   * guide is updated as `ApplyProgramme` says, `b` being the broadcast and
   * `bits` the dirty bits; each statistics line counts its record, as
   * created and as modified by the dirty bits; the result says whether any
   * bit was set.
   */
  method ParseProgrammeTags(modId: string, store: GuideStore, stats: Stats, ch: Channel,
                            tags: Msg, start: int, stop: int)
    returns (save: bool, ghost b: Broadcast, ghost bits: DirtyBits)
    requires store.Valid() && ProgrammeDefined(tags)
    modifies store, stats`broadcasts, stats`seasons, stats`episodes, store.Repr
    ensures store.Valid() && old(store.Repr) <= store.Repr && fresh(store.Repr - old(store.Repr))
    // the store
    ensures var key := BroadcastKey(ch, start, stop);
            && store.broadcasts == old(store.broadcasts)[key := b]
            && bits.broadcastCreated == (key !in old(store.broadcasts))
            && (bits.broadcastCreated ==> fresh(b))
            && (!bits.broadcastCreated ==> b == old(store.broadcasts)[key])
    ensures var ids := ProgrammeIds(modId, tags);
            && store.seriesLinks == old(store.seriesLinks) + (if ids.suri.Some? then {ids.suri.value} else {})
            && (ids.uri.None? ==> store.episodes == old(store.episodes))
            && (ids.uri.Some? ==> b.episode != null && store.episodes == old(store.episodes)[ids.uri.value := b.episode])
    // the broadcast and its episode
    ensures var ids := ProgrammeIds(modId, tags);
            && BroadcastShows(b, BroadcastFactsOf(tags))
            && b.episode != null && EpisodeShows(b.episode, EpisodeFactsOf(tags), ids.epnum)
            && (ids.uri.Some? ==> b.episode.uri == ids.uri)
            && (ids.suri.Some? ==> b.seriesLink == ids.suri)
    // the dirty bits
    ensures var ids := ProgrammeIds(modId, tags);
            && bits.save2 == (ids.suri.Some? && ids.suri.value !in old(store.seriesLinks))
            && (bits.broadcastCreated ==>
                  && bits.save
                  && bits.episodeCounted == (LangStrOf(tags, "desc").Some? || ids.uri.None? || ids.uri.value !in old(store.episodes)))
    ensures var ids := ProgrammeIds(modId, tags);
            !bits.broadcastCreated ==>
              && bits.save == (|| FlagsOf(b) != old(FlagsOf(b)) || b.seriesLink != old(b.seriesLink)
                               || (ids.uri.Some? && b.episode != old(b.episode)))
              && bits.episodeCounted == (|| b.description != old(b.description)
                                         || (if ids.uri.Some? then ids.uri.value !in old(store.episodes) else old(b.episode) == null))
    ensures var ids := ProgrammeIds(modId, tags);
            var created := if ids.uri.Some? then ids.uri.value !in old(store.episodes) else bits.broadcastCreated || old(b.episode) == null;
            && (created ==> bits.save3)
            && (!created ==> var e := b.episode; e in old(store.Repr) && bits.save3 == (bits.episodeCounted || EpisodeTagsOf(e) != old(EpisodeTagsOf(e))))
    // what the broadcast and the episode hold afterwards, and what is left alone
    ensures var ids := ProgrammeIds(modId, tags);
            && (bits.broadcastCreated ==>
                  && FlagsOf(b) == FlagsAfter(BlankFlags, BroadcastFactsOf(tags))
                  && b.description == LangStrOf(tags, "desc") && b.seriesLink == ids.suri)
            && (!bits.broadcastCreated ==>
                  && FlagsOf(b) == FlagsAfter(old(FlagsOf(b)), BroadcastFactsOf(tags))
                  && b.description == (if LangStrOf(tags, "desc").Some? then LangStrOf(tags, "desc") else old(b.description))
                  && b.seriesLink == (if ids.suri.Some? then ids.suri else old(b.seriesLink)))
    ensures var ids := ProgrammeIds(modId, tags);
            var created := if ids.uri.Some? then ids.uri.value !in old(store.episodes) else bits.broadcastCreated || old(b.episode) == null;
            && (created ==> EpisodeTagsOf(b.episode) == TagsAfter(BlankTags, EpisodeFactsOf(tags), ids.epnum))
            && (!created ==> var e := b.episode; EpisodeTagsOf(e) == TagsAfter(old(EpisodeTagsOf(e)), EpisodeFactsOf(tags), ids.epnum))
    ensures ProgrammeShown(store, BroadcastKey(ch, start, stop), modId, tags)
    ensures OnlyKeyChanged(store, BroadcastKey(ch, start, stop))
    // the statistics and the result
    ensures stats.broadcasts == Count(old(stats.broadcasts), bits.broadcastCreated, bits.save)
    ensures stats.seasons == if ProgrammeIds(modId, tags).suri.Some? then Count(old(stats.seasons), bits.save2, bits.save2) else old(stats.seasons)
    ensures stats.episodes == Count(old(stats.episodes), bits.episodeCounted, bits.save3)
    ensures save == (bits.save || bits.save2 || bits.save3)
  {
    var broadcasts0, seasons0, episodes0 := stats.broadcasts, stats.seasons, stats.episodes;
    var ids := ProgrammeInfo(modId, tags);
    var eb, applied := ApplyProgramme(store, BroadcastKey(ch, start, stop), tags, ids);
    CountProgramme(stats, applied, ids.suri.Some?, broadcasts0, seasons0, episodes0);
    save := applied.save || applied.save2 || applied.save3;
    b, bits := eb, applied;
  }

  // ---------------------------------------------------------------------
  // _xmltv_parse_programme
  // ---------------------------------------------------------------------

  /** A programme's `tags` satisfy `ProgrammeDefined`, when the programme has them. */
  predicate ProgrammeBodyDefined(body: Option<Msg>)
  {
    body.Some? && GetMap(body.value, "tags").Some? ==> ProgrammeDefined(GetMap(body.value, "tags").value)
  }

  /** A child of the `tv` element whose processing is defined: a `programme` with a defined body, or anything else. */
  predicate ChildDefined(f: Field)
  {
    f.name == "programme" ==> ProgrammeBodyDefined(MapOf(f))
  }

  /** An accepted programme: its tags, the local channels its feed channel is linked to, and its times. */
  datatype Slot = Slot(tags: Msg, links: seq<Channel>, start: int, stop: int)

  /**
   * The early drops of `_xmltv_parse_programme`: no body, no `attrib` or
   * `tags`, no `channel` attribute, an unknown feed channel or one with no
   * linked channel, no `start` or `stop`, or a programme that does not end
   * after it starts and after `clock`.
   */
  function ProgrammeSlot(body: Option<Msg>, feeds: FeedRegistry, clock: int, localTime: Tm -> int): (r: Option<Slot>)
    reads feeds, feeds.byId.Values
    ensures r.Some? ==> r.value.links != [] && r.value.start < r.value.stop && clock < r.value.stop
    ensures r.Some? ==> body.Some? && GetMap(body.value, "tags") == Some(r.value.tags)
  {
    if body.None? then None
    else
      var attrib := GetMap(body.value, "attrib");
      var tags := GetMap(body.value, "tags");
      if attrib.None? || tags.None? then None
      else
        var chid := GetStr(attrib.value, "channel");
        if chid.None? || chid.value !in feeds.byId || feeds.byId[chid.value].links == [] then None
        else
          var startText := GetStr(attrib.value, "start");
          var stopText := GetStr(attrib.value, "stop");
          if startText.None? || stopText.None? then None
          else
            var start := Str2Time(startText.value, localTime);
            var stop := Str2Time(stopText.value, localTime);
            if stop <= start || stop <= clock then None
            else Some(Slot(tags.value, feeds.byId[chid.value].links, start, stop))
  }

  /** The broadcast keys of a programme on the given local channels. */
  function KeysOf(links: seq<Channel>, start: int, stop: int): (r: set<BroadcastKey>)
    ensures |r| <= |links|
  {
    if links == [] then {}
    else KeysOf(links[..|links| - 1], start, stop) + {BroadcastKey(links[|links| - 1], start, stop)}
  }

  /** The keys are exactly those of the linked channels at the programme's times. */
  lemma {:induction false} KeysOfMembers(links: seq<Channel>, start: int, stop: int, k: BroadcastKey)
    ensures k in KeysOf(links, start, stop) <==> k.channel in links && k.start == start && k.stop == stop
  {
    if links != [] {
      var init := links[..|links| - 1];
      KeysOfMembers(init, start, stop, k);
      assert links == init + [links[|links| - 1]];
    }
  }

  /**
   * The broadcast keyed `key` shows the programme: the broadcast carries its
   * facts, and its episode the programme's titles, genres and numbering.
   */
  ghost predicate ProgrammeShown(store: GuideStore, key: BroadcastKey, modId: string, tags: Msg)
    requires store.Valid() && ProgrammeDefined(tags)
    reads store, store.Repr
  {
    && key in store.broadcasts
    && BroadcastShows(store.broadcasts[key], BroadcastFactsOf(tags))
    && store.broadcasts[key].episode != null
    && EpisodeShows(store.broadcasts[key].episode, EpisodeFactsOf(tags), ProgrammeIds(modId, tags).epnum)
  }

  /**
   * From the earlier state to this one, the broadcast under `key` and its
   * episode are the only broadcast and episode of the guide that changed.
   */
  twostate predicate OnlyKeyChanged(store: GuideStore, key: BroadcastKey)
    requires store.Valid()
    reads store, store.Repr
  {
    && key in store.broadcasts && old(store.Repr) <= store.Repr
    && var b := store.broadcasts[key];
       && store.broadcasts == old(store.broadcasts)[key := b]
       && (forall o: Broadcast | o in old(store.Repr) && o != b :: unchanged(o))
       && (forall e: Episode | e in old(store.Repr) && e != b.episode :: unchanged(e))
  }

  /** The `i`th pass of the per-channel loop over a programme's linked channels. */
  datatype Pass = Pass(store: GuideStore, links: seq<Channel>, i: nat, start: int, stop: int, modId: string, tags: Msg)

  /**
   * Ingesting the programme on the `i`th channel keeps it shown on the
   * channels before: their broadcasts and episodes are either left alone or
   * are the ones just given the programme's tags.
   */
  twostate lemma {:induction false} ShownKept(p: Pass)
    requires p.i < |p.links| && ProgrammeDefined(p.tags) && old(p.store.Valid()) && p.store.Valid()
    requires old(forall j {:trigger ProgrammeShown(p.store, BroadcastKey(p.links[j], p.start, p.stop), p.modId, p.tags)} | 0 <= j < p.i ::
                   ProgrammeShown(p.store, BroadcastKey(p.links[j], p.start, p.stop), p.modId, p.tags))
    requires ProgrammeShown(p.store, BroadcastKey(p.links[p.i], p.start, p.stop), p.modId, p.tags)
    requires OnlyKeyChanged(p.store, BroadcastKey(p.links[p.i], p.start, p.stop))
    ensures forall j {:trigger ProgrammeShown(p.store, BroadcastKey(p.links[j], p.start, p.stop), p.modId, p.tags)} | 0 <= j <= p.i ::
              ProgrammeShown(p.store, BroadcastKey(p.links[j], p.start, p.stop), p.modId, p.tags)
  {
    var store, b := p.store, p.store.broadcasts[BroadcastKey(p.links[p.i], p.start, p.stop)];
    forall j | 0 <= j <= p.i
      ensures ProgrammeShown(store, BroadcastKey(p.links[j], p.start, p.stop), p.modId, p.tags)
    {
      var k := BroadcastKey(p.links[j], p.start, p.stop);
      if k != BroadcastKey(p.links[p.i], p.start, p.stop) {
        assert old(ProgrammeShown(store, k, p.modId, p.tags));
        var bj := old(store.broadcasts[k]);
        assert store.broadcasts[k] == bj && bj in old(store.Repr);
        if bj != b {
          var ej := old(bj.episode);
          assert bj.episode == ej && ej in old(store.Repr);
        }
      }
    }
  }

  /** The store's maps and the three programme statistics lines, as values. */
  datatype SlotState = SlotState(broadcasts: map<BroadcastKey, Broadcast>, episodes: map<string, Episode>,
                                 seriesLinks: set<string>, bstats: Counter, estats: Counter, sstats: Counter)

  function StateOf(store: GuideStore, stats: Stats): SlotState
    reads store, stats
  {
    SlotState(store.broadcasts, store.episodes, store.seriesLinks, stats.broadcasts, stats.episodes, stats.seasons)
  }

  /**
   * How often the passes of a slot so far counted a broadcast as created
   * and as modified, and an episode as created and as modified.
   */
  datatype Tally = Tally(bCreated: nat, bModified: nat, eCreated: nat, eModified: nat)

  function NextTally(t: Tally, bits: DirtyBits): Tally
  {
    Tally(t.bCreated + (if bits.broadcastCreated then 1 else 0),
          t.bModified + (if bits.save then 1 else 0),
          t.eCreated + (if bits.episodeCounted then 1 else 0),
          t.eModified + (if bits.save3 then 1 else 0))
  }

  /**
   * One pass of `_xmltv_parse_programme_tags` for the key `key`, as it
   * shows in the store's maps: the key is added or its broadcast kept, and
   * the series URI and the episode URI are added.
   */
  ghost predicate PassMaps(s1: SlotState, s2: SlotState, ids: EpisodeIds, key: BroadcastKey)
  {
    && key in s2.broadcasts
    && s2.broadcasts == s1.broadcasts[key := s2.broadcasts[key]]
    && (key in s1.broadcasts ==> s2.broadcasts[key] == s1.broadcasts[key])
    && s2.seriesLinks == s1.seriesLinks + (if ids.suri.Some? then {ids.suri.value} else {})
    && (ids.uri.None? ==> s2.episodes == s1.episodes)
    && (ids.uri.Some? ==> ids.uri.value in s2.episodes && s2.episodes == s1.episodes[ids.uri.value := s2.episodes[ids.uri.value]])
  }

  /**
   * The same pass in the statistics: each line counts one record by its
   * dirty bits, a new key is a created broadcast and a new series URI a
   * created season, and a creation always counts as a change.
   */
  ghost predicate PassCounts(s1: SlotState, s2: SlotState, ids: EpisodeIds, key: BroadcastKey, bits: DirtyBits)
  {
    && bits.broadcastCreated == (key !in s1.broadcasts)
    && bits.save2 == (ids.suri.Some? && ids.suri.value !in s1.seriesLinks)
    && (bits.broadcastCreated ==> bits.save) && (bits.episodeCounted ==> bits.save3)
    && s2.bstats == Count(s1.bstats, bits.broadcastCreated, bits.save)
    && s2.estats == Count(s1.estats, bits.episodeCounted, bits.save3)
    && s2.sstats == (if ids.suri.Some? then Count(s1.sstats, bits.save2, bits.save2) else s1.sstats)
  }

  /** One pass of `_xmltv_parse_programme_tags`, in the store's maps and the statistics. */
  ghost predicate OnePass(s1: SlotState, s2: SlotState, ids: EpisodeIds, key: BroadcastKey, bits: DirtyBits)
  {
    PassMaps(s1, s2, ids, key) && PassCounts(s1, s2, ids, key, bits)
  }

  /**
   * `n` passes, over channels whose broadcast keys are `keys`, took the
   * store's maps from `s0` to `s`: the broadcasts under the keys before are
   * the same objects and the only keys added are `keys`; the series URI is
   * added and the episode map changes only under the episode URI, neither
   * without a pass.
   */
  ghost predicate MapsDone(s0: SlotState, s: SlotState, ids: EpisodeIds, keys: set<BroadcastKey>, n: nat)
  {
    && s.broadcasts.Keys == s0.broadcasts.Keys + keys
    && (forall k | k in s0.broadcasts :: s.broadcasts[k] == s0.broadcasts[k])
    && s.seriesLinks == s0.seriesLinks + (if ids.suri.Some? && n > 0 then {ids.suri.value} else {})
    && (ids.uri.None? || n == 0 ==> s.episodes == s0.episodes)
    && (ids.uri.Some? && n > 0 ==>
          ids.uri.value in s.episodes && s.episodes == s0.episodes[ids.uri.value := s.episodes[ids.uri.value]])
  }

  /**
   * The broadcasts line after `n` passes: one record a pass, created once
   * for each key the passes added to the map, and modified at least that
   * often and at most once a pass.
   */
  ghost predicate BroadcastsCounted(s0: SlotState, s: SlotState, n: nat, t: Tally)
  {
    && |s.broadcasts| == |s0.broadcasts| + t.bCreated
    && t.bCreated <= t.bModified <= n
    && s.bstats == Counter(AddU16(s0.bstats.total, n), AddU16(s0.bstats.created, t.bCreated), AddU16(s0.bstats.modified, t.bModified))
  }

  /** The episodes line after `n` passes: one record a pass, modified at least as often as created and at most once a pass. */
  ghost predicate EpisodesCounted(s0: SlotState, s: SlotState, n: nat, t: Tally)
  {
    && t.eCreated <= t.eModified <= n
    && s.estats == Counter(AddU16(s0.estats.total, n), AddU16(s0.estats.created, t.eCreated), AddU16(s0.estats.modified, t.eModified))
  }

  /** The seasons line after `n` passes moves only with a series URI: one record a pass, created and modified once when the link was new. */
  ghost predicate SeasonsCounted(s0: SlotState, s: SlotState, ids: EpisodeIds, n: nat)
  {
    s.sstats == (if ids.suri.None? then s0.sstats
                 else var c := if n > 0 && ids.suri.value !in s0.seriesLinks then 1 else 0;
                      Counter(AddU16(s0.sstats.total, n), AddU16(s0.sstats.created, c), AddU16(s0.sstats.modified, c)))
  }

  /** `n` passes over channels whose keys are `keys`, in the store's maps and all three statistics lines. */
  ghost predicate PassesDone(s0: SlotState, s: SlotState, ids: EpisodeIds, keys: set<BroadcastKey>, n: nat, t: Tally)
  {
    && MapsDone(s0, s, ids, keys, n)
    && BroadcastsCounted(s0, s, n, t)
    && EpisodesCounted(s0, s, n, t)
    && SeasonsCounted(s0, s, ids, n)
  }

  /** A record counted on a line that already counts `n`, `a` and `m` records moves those counts on by one, and by its flags. */
  lemma CountAdd(c0: Counter, c1: Counter, n: nat, a: nat, m: nat, created: bool, modified: bool)
    requires c1 == Counter(AddU16(c0.total, n), AddU16(c0.created, a), AddU16(c0.modified, m))
    ensures Count(c1, created, modified)
            == Counter(AddU16(c0.total, n + 1), AddU16(c0.created, a + (if created then 1 else 0)),
                       AddU16(c0.modified, m + (if modified then 1 else 0)))
  {
  }

  lemma {:induction false} MapsStep(s0: SlotState, s1: SlotState, s2: SlotState, ids: EpisodeIds,
                                    keys: set<BroadcastKey>, key: BroadcastKey, n: nat)
    requires MapsDone(s0, s1, ids, keys, n) && PassMaps(s1, s2, ids, key)
    ensures MapsDone(s0, s2, ids, keys + {key}, n + 1)
  {
    forall k | k in s0.broadcasts
      ensures s2.broadcasts[k] == s0.broadcasts[k]
    {
      assert s1.broadcasts[k] == s0.broadcasts[k];
    }
    if ids.uri.Some? {
      var u := ids.uri.value;
      if n > 0 {
        assert s2.episodes == s0.episodes[u := s2.episodes[u]];
      }
    }
  }

  lemma {:induction false} BroadcastsStep(s0: SlotState, s1: SlotState, s2: SlotState, ids: EpisodeIds,
                                          key: BroadcastKey, n: nat, t: Tally, bits: DirtyBits)
    requires BroadcastsCounted(s0, s1, n, t) && PassMaps(s1, s2, ids, key) && PassCounts(s1, s2, ids, key, bits)
    ensures BroadcastsCounted(s0, s2, n + 1, NextTally(t, bits))
  {
    CountAdd(s0.bstats, s1.bstats, n, t.bCreated, t.bModified, bits.broadcastCreated, bits.save);
  }

  lemma {:induction false} EpisodesStep(s0: SlotState, s1: SlotState, s2: SlotState, ids: EpisodeIds,
                                        key: BroadcastKey, n: nat, t: Tally, bits: DirtyBits)
    requires EpisodesCounted(s0, s1, n, t) && PassCounts(s1, s2, ids, key, bits)
    ensures EpisodesCounted(s0, s2, n + 1, NextTally(t, bits))
  {
    CountAdd(s0.estats, s1.estats, n, t.eCreated, t.eModified, bits.episodeCounted, bits.save3);
  }

  lemma {:induction false} SeasonsStep(s0: SlotState, s1: SlotState, s2: SlotState, ids: EpisodeIds,
                                       key: BroadcastKey, n: nat, bits: DirtyBits)
    requires s1.seriesLinks == s0.seriesLinks + (if ids.suri.Some? && n > 0 then {ids.suri.value} else {})
    requires SeasonsCounted(s0, s1, ids, n) && PassCounts(s1, s2, ids, key, bits)
    ensures SeasonsCounted(s0, s2, ids, n + 1)
  {
    if ids.suri.Some? {
      var c := if n > 0 && ids.suri.value !in s0.seriesLinks then 1 else 0;
      CountAdd(s0.sstats, s1.sstats, n, c, c, bits.save2, bits.save2);
    }
  }

  /** One more pass, on a channel whose key is `key`, keeps the passes' account. */
  lemma {:induction false} PassStep(s0: SlotState, s1: SlotState, s2: SlotState, ids: EpisodeIds,
                                    keys: set<BroadcastKey>, key: BroadcastKey, n: nat, t: Tally, bits: DirtyBits)
    requires PassesDone(s0, s1, ids, keys, n, t) && OnePass(s1, s2, ids, key, bits)
    ensures PassesDone(s0, s2, ids, keys + {key}, n + 1, NextTally(t, bits))
  {
    MapsStep(s0, s1, s2, ids, keys, key, n);
    BroadcastsStep(s0, s1, s2, ids, key, n, t, bits);
    EpisodesStep(s0, s1, s2, ids, key, n, t, bits);
    SeasonsStep(s0, s1, s2, ids, key, n, bits);
  }

  /** Before the first pass nothing is accounted for. */
  lemma NoPasses(s0: SlotState, ids: EpisodeIds, links: seq<Channel>, start: int, stop: int)
    ensures PassesDone(s0, s0, ids, KeysOf(links[..0], start, stop), 0, Tally(0, 0, 0, 0))
  {
    assert links[..0] == [];
  }

  /** The pass on the `i`th linked channel adds that channel's key to the passes' account. */
  lemma {:induction false} SlotPass(s0: SlotState, s1: SlotState, s2: SlotState, ids: EpisodeIds,
                                    links: seq<Channel>, i: nat, start: int, stop: int, t: Tally, bits: DirtyBits)
    requires i < |links|
    requires PassesDone(s0, s1, ids, KeysOf(links[..i], start, stop), i, t)
    requires OnePass(s1, s2, ids, BroadcastKey(links[i], start, stop), bits)
    ensures PassesDone(s0, s2, ids, KeysOf(links[..i + 1], start, stop), i + 1, NextTally(t, bits))
  {
    assert links[..i + 1][..i] == links[..i];
    PassStep(s0, s1, s2, ids, KeysOf(links[..i], start, stop), BroadcastKey(links[i], start, stop), i, t, bits);
  }

  /**
   * The body of one turn of the per-channel loop of `_xmltv_parse_programme`:
   * the programme is ingested on the linked channel `ch`, its broadcast
   * there shows it, no other broadcast or episode changes, and the store's
   * maps and the statistics change as one pass does.
   */
  method ParseOnChannel(modId: string, store: GuideStore, stats: Stats,
                        ch: Channel, tags: Msg, start: int, stop: int) returns (changed: bool, ghost bits: DirtyBits)
    requires store.Valid() && ProgrammeDefined(tags)
    modifies store, stats`broadcasts, stats`seasons, stats`episodes, store.Repr
    ensures store.Valid() && fresh(store.Repr - old(store.Repr))
    ensures OnePass(old(StateOf(store, stats)), StateOf(store, stats), ProgrammeIds(modId, tags), BroadcastKey(ch, start, stop), bits)
    ensures changed == (bits.save || bits.save2 || bits.save3)
    ensures ProgrammeShown(store, BroadcastKey(ch, start, stop), modId, tags)
    ensures OnlyKeyChanged(store, BroadcastKey(ch, start, stop))
  {
    ghost var b;
    changed, b, bits := ParseProgrammeTags(modId, store, stats, ch, tags, start, stop);
  }

  /**
   * One turn of the per-channel loop of `_xmltv_parse_programme`: the
   * programme is ingested on the `i`th linked channel, the channels done
   * so far all show it, and the passes' account takes in one more pass.
   */
  method ParseSlotStep(modId: string, store: GuideStore, stats: Stats,
                       links: seq<Channel>, i: nat, tags: Msg, start: int, stop: int,
                       ghost s0: SlotState, ghost t: Tally)
    returns (changed: bool, ghost t2: Tally)
    requires i < |links| && store.Valid() && ProgrammeDefined(tags)
    requires PassesDone(s0, StateOf(store, stats), ProgrammeIds(modId, tags), KeysOf(links[..i], start, stop), i, t)
    requires forall j {:trigger ProgrammeShown(store, BroadcastKey(links[j], start, stop), modId, tags)} | 0 <= j < i ::
               ProgrammeShown(store, BroadcastKey(links[j], start, stop), modId, tags)
    modifies store, stats`broadcasts, stats`seasons, stats`episodes, store.Repr
    ensures store.Valid() && fresh(store.Repr - old(store.Repr))
    ensures PassesDone(s0, StateOf(store, stats), ProgrammeIds(modId, tags), KeysOf(links[..i + 1], start, stop), i + 1, t2)
    ensures forall j {:trigger ProgrammeShown(store, BroadcastKey(links[j], start, stop), modId, tags)} | 0 <= j <= i ::
              ProgrammeShown(store, BroadcastKey(links[j], start, stop), modId, tags)
  {
    ghost var s1 := StateOf(store, stats);
    ghost var bits;
    changed, bits := ParseOnChannel(modId, store, stats, links[i], tags, start, stop);
    ShownKept(Pass(store, links, i, start, stop, modId, tags));
    SlotPass(s0, s1, StateOf(store, stats), ProgrammeIds(modId, tags), links, i, start, stop, t, bits);
    t2 := NextTally(t, bits);
  }

  /**
   * The per-channel loop of `_xmltv_parse_programme`: the programme is
   * ingested once on each linked local channel, and the result is true
   * when any pass changed something.
   */
  method ParseSlot(modId: string, store: GuideStore, stats: Stats,
                   links: seq<Channel>, tags: Msg, start: int, stop: int) returns (save: bool, ghost t: Tally)
    requires store.Valid() && ProgrammeDefined(tags)
    modifies store, stats`broadcasts, stats`seasons, stats`episodes, store.Repr
    ensures store.Valid() && fresh(store.Repr - old(store.Repr))
    ensures PassesDone(old(StateOf(store, stats)), StateOf(store, stats), ProgrammeIds(modId, tags), KeysOf(links, start, stop), |links|, t)
    ensures forall j {:trigger ProgrammeShown(store, BroadcastKey(links[j], start, stop), modId, tags)} | 0 <= j < |links| ::
              ProgrammeShown(store, BroadcastKey(links[j], start, stop), modId, tags)
  {
    save, t := false, Tally(0, 0, 0, 0);
    ghost var s0, repr0 := StateOf(store, stats), store.Repr;
    NoPasses(s0, ProgrammeIds(modId, tags), links, start, stop);
    var i := 0;
    while i < |links|
      invariant 0 <= i <= |links|
      invariant store.Valid()
      invariant fresh(store.Repr - repr0)
      invariant PassesDone(s0, StateOf(store, stats), ProgrammeIds(modId, tags), KeysOf(links[..i], start, stop), i, t)
      invariant forall j {:trigger ProgrammeShown(store, BroadcastKey(links[j], start, stop), modId, tags)} | 0 <= j < i ::
                  ProgrammeShown(store, BroadcastKey(links[j], start, stop), modId, tags)
    {
      ghost var repr1 := store.Repr;
      var changed;
      changed, t := ParseSlotStep(modId, store, stats, links, i, tags, start, stop, s0, t);
      DiffSplit(repr0, repr1, store.Repr);
      save := save || changed;
      i := i + 1;
    }
    assert links[..i] == links;
  }

  /**
   * `_xmltv_parse_programme`: a dropped programme changes nothing and
   * returns false; an accepted one is ingested once per linked local
   * channel, each pass counting one broadcast and one episode and adding
   * the broadcast keyed by that channel and the programme's times.
   */
  method ParseProgramme(modId: string, feeds: FeedRegistry, store: GuideStore, stats: Stats,
                        body: Option<Msg>, clock: int, localTime: Tm -> int) returns (save: bool, ghost t: Tally)
    requires store.Valid()
    requires ProgrammeSlot(body, feeds, clock, localTime).Some? ==> ProgrammeDefined(ProgrammeSlot(body, feeds, clock, localTime).value.tags)
    modifies store, stats`broadcasts, stats`seasons, stats`episodes, store.Repr
    ensures store.Valid() && fresh(store.Repr - old(store.Repr))
    ensures old(ProgrammeSlot(body, feeds, clock, localTime)).None? ==>
              && !save
              && stats.broadcasts == old(stats.broadcasts) && stats.seasons == old(stats.seasons)
              && stats.episodes == old(stats.episodes)
              && store.broadcasts == old(store.broadcasts) && store.episodes == old(store.episodes)
              && store.seriesLinks == old(store.seriesLinks) && store.Repr == old(store.Repr)
              && ViewOf(store) == old(ViewOf(store))
    ensures old(ProgrammeSlot(body, feeds, clock, localTime)).Some? ==>
              var slot := old(ProgrammeSlot(body, feeds, clock, localTime)).value;
              && stats.broadcasts.total == AddU16(old(stats.broadcasts.total), |slot.links|)
              && stats.episodes.total == AddU16(old(stats.episodes.total), |slot.links|)
              && store.broadcasts.Keys == old(store.broadcasts.Keys) + KeysOf(slot.links, slot.start, slot.stop)
              && PassesDone(old(StateOf(store, stats)), StateOf(store, stats), ProgrammeIds(modId, slot.tags),
                            KeysOf(slot.links, slot.start, slot.stop), |slot.links|, t)
              && (forall j {:trigger ProgrammeShown(store, BroadcastKey(slot.links[j], slot.start, slot.stop), modId, slot.tags)} | 0 <= j < |slot.links| ::
                    ProgrammeShown(store, BroadcastKey(slot.links[j], slot.start, slot.stop), modId, slot.tags))
  {
    ghost var slot := ProgrammeSlot(body, feeds, clock, localTime);
    save, t := false, Tally(0, 0, 0, 0);
    if body.None? { return; }
    var attrib := GetMap(body.value, "attrib");
    if attrib.None? { return; }
    var tags := GetMap(body.value, "tags");
    if tags.None? { return; }
    var chid := GetStr(attrib.value, "channel");
    if chid.None? { return; }
    var ch := feeds.Lookup(chid.value);
    if ch == null { return; }
    if ch.links == [] { return; }
    var text := GetStr(attrib.value, "start");
    if text.None? { return; }
    var start := Str2Time(text.value, localTime);
    text := GetStr(attrib.value, "stop");
    if text.None? { return; }
    var stop := Str2Time(text.value, localTime);
    if stop <= start || stop <= clock { return; }
    assert slot == Some(Slot(tags.value, ch.links, start, stop));
    save, t := ParseSlot(modId, store, stats, ch.links, tags.value, start, stop);
  }

  // ---------------------------------------------------------------------
  // _xmltv_parse_channel
  // ---------------------------------------------------------------------

  /** The `id` attribute and the child elements of a `channel` element, when it has both. */
  function ChannelParts(body: Option<Msg>): Option<(string, Msg)>
  {
    if body.None? then None
    else
      match GetMap(body.value, "attrib")
      case None => None
      case Some(attrib) =>
        match GetStr(attrib, "id")
        case None => None
        case Some(id) =>
          match GetMap(body.value, "tags")
          case None => None
          case Some(tags) => Some((id, tags))
  }

  /** The `src` attribute of the first `icon` child, when there is one. */
  function IconOf(tags: Msg): Option<string>
  {
    match GetMap(tags, "icon")
    case None => None
    case Some(icon) => AttrOf(icon, "src")
  }

  /** The id of an accepted `channel` element, as a sequence of zero or one ids. */
  function AcceptedId(body: Option<Msg>): seq<string>
  {
    if ChannelParts(body).Some? then [ChannelParts(body).value.0] else []
  }

  /** What a setter called only when a value is given leaves behind. */
  function Updated(prev: Option<string>, given: Option<string>): (r: Option<string>)
    ensures given.Some? ==> r == given
    ensures given.None? ==> r == prev
  {
    if given.Some? then given else prev
  }

  /**
   * The display name and icon steps of `_xmltv_parse_channel`: each value
   * given is set, and the result reports whether either setter changed
   * anything.
   */
  method ApplyChannelTags(c: FeedChannel, tags: Msg) returns (changed: bool)
    modifies c`name, c`icon
    ensures c.name == Updated(old(c.name), CdataOf(tags, "display-name"))
    ensures c.icon == Updated(old(c.icon), IconOf(tags))
    ensures changed == (c.name != old(c.name) || c.icon != old(c.icon))
  {
    changed := false;
    var name := CdataOf(tags, "display-name");
    if name.Some? {
      changed := c.SetName(name.value);
    }
    var subtag := GetMap(tags, "icon");
    if subtag.Some? {
      var attrib := GetMap(subtag.value, "attrib");
      if attrib.Some? {
        var icon := GetStr(attrib.value, "src");
        if icon.Some? {
          var iconChanged := c.SetIcon(icon.value);
          changed := changed || iconChanged;
        }
      }
    }
  }

  /**
   * The part of `_xmltv_parse_channel` after the find-or-create: count the
   * channel, apply its name and icon, and mark it updated and count it as
   * modified when it was created or changed.
   */
  method CountChannel(c: FeedChannel, stats: Stats, created: bool, tags: Msg) returns (save: bool)
    modifies c`name, c`icon, c`updated, stats`channels
    ensures c.name == Updated(old(c.name), CdataOf(tags, "display-name"))
    ensures c.icon == Updated(old(c.icon), IconOf(tags))
    ensures save == (created || c.name != old(c.name) || c.icon != old(c.icon))
    ensures c.updated == (save || old(c.updated))
    ensures stats.channels == Count(old(stats.channels), created, save)
  {
    var channels0 := stats.channels;
    stats.channels := channels0.(total := Inc(channels0.total), created := IncIf(created, channels0.created));
    var changed := ApplyChannelTags(c, tags);
    save := created || changed;
    if save {
      c.MarkUpdated();
      stats.channels := stats.channels.(modified := Inc(stats.channels.modified));
    }
  }

  /**
   * `_xmltv_parse_channel`: a `channel` element without `attrib`, `id` or
   * `tags` changes nothing; otherwise its feed channel is found or created
   * and counted, takes the display name and the icon when they are given,
   * and is marked updated and counted as modified when it was created or
   * either value changed.
   */
  method ParseChannel(feeds: FeedRegistry, stats: Stats, body: Option<Msg>) returns (save: bool)
    requires feeds.Valid()
    modifies feeds, stats`channels, feeds.Repr
    ensures feeds.Valid() && fresh(feeds.Repr - old(feeds.Repr))
    ensures feeds.byId.Keys == old(feeds.byId.Keys) + IdSet(AcceptedId(body))
    ensures stats.channels.total == AddU16(old(stats.channels.total), |AcceptedId(body)|)
    ensures ChannelParts(body).None? ==>
              && !save && feeds.byId == old(feeds.byId) && stats.channels == old(stats.channels)
              && forall c | c in old(feeds.Repr) :: unchanged(c)
    ensures ChannelParts(body).Some? ==>
              var id, tags := ChannelParts(body).value.0, ChannelParts(body).value.1;
              var created := id !in old(feeds.byId);
              && id in feeds.byId
              && var c := feeds.byId[id];
              && feeds.byId == old(feeds.byId)[id := c]
              && (created ==> fresh(c))
              && (!created ==> c == old(feeds.byId)[id])
              && c.name == Updated(old(if id in feeds.byId then feeds.byId[id].name else None), CdataOf(tags, "display-name"))
              && c.icon == Updated(old(if id in feeds.byId then feeds.byId[id].icon else None), IconOf(tags))
              && save == (created || c.name != old(if id in feeds.byId then feeds.byId[id].name else None)
                                  || c.icon != old(if id in feeds.byId then feeds.byId[id].icon else None))
              && c.updated == (save || old(id in feeds.byId && feeds.byId[id].updated))
              && stats.channels == Count(old(stats.channels), created, save)
              && forall o | o in old(feeds.Repr) && o != c :: unchanged(o)
  {
    save := false;
    if body.None? { return; }
    var attrib := GetMap(body.value, "attrib");
    if attrib.None? { return; }
    var id := GetStr(attrib.value, "id");
    if id.None? { return; }
    var tags := GetMap(body.value, "tags");
    if tags.None? { return; }
    var c, created := feeds.FindOrCreate(id.value);
    save := CountChannel(c, stats, created, tags.value);
  }

  // ---------------------------------------------------------------------
  // _xmltv_parse_tv
  // ---------------------------------------------------------------------

  /** The id a `channel` child contributes: the id of an accepted channel element, none otherwise. */
  function ChannelIdOf(f: Field): seq<string>
  {
    if f.name == "channel" then AcceptedId(MapOf(f)) else []
  }

  /** The ids of the `channel` children `_xmltv_parse_channel` accepts, in document order. */
  function ChannelIds(fields: seq<Field>): (r: seq<string>)
    ensures |r| <= |fields|
  {
    if fields == [] then []
    else ChannelIds(fields[..|fields| - 1]) + ChannelIdOf(fields[|fields| - 1])
  }

  /** The ids of a sequence, as a set. */
  function IdSet(ids: seq<string>): set<string>
  {
    if ids == [] then {} else IdSet(ids[..|ids| - 1]) + {ids[|ids| - 1]}
  }

  /** `IdSet` holds exactly the members of the sequence. */
  lemma {:induction false} IdSetMembers(ids: seq<string>)
    ensures forall id :: id in IdSet(ids) <==> id in ids
  {
    if ids != [] {
      IdSetMembers(ids[..|ids| - 1]);
      assert ids == ids[..|ids| - 1] + [ids[|ids| - 1]];
    }
  }

  lemma {:induction false} IdSetAppend(a: seq<string>, b: seq<string>)
    ensures IdSet(a + b) == IdSet(a) + IdSet(b)
    decreases |b|
  {
    if b == [] {
      assert a + b == a;
    } else {
      assert (a + b)[..|a + b| - 1] == a + b[..|b| - 1];
      IdSetAppend(a, b[..|b| - 1]);
    }
  }

  lemma {:induction false} ChannelIdsStep(fields: seq<Field>, i: nat)
    requires i < |fields|
    ensures ChannelIds(fields[..i + 1]) == ChannelIds(fields[..i]) + ChannelIdOf(fields[i])
  {
    assert fields[..i + 1][..i] == fields[..i];
  }

  /** Every `programme` child of a `tv` element has tags whose episode-number values are defined. */
  predicate TvDefined(tv: Msg)
  {
    GetMap(tv, "tags").Some? ==>
      forall f | f in GetMap(tv, "tags").value.fields && f.name == "programme" :: ProgrammeBodyDefined(MapOf(f))
  }

  /** One more child keeps the registered keys and the channel total in step with the accepted ids. */
  lemma {:induction false} TvStep(fields: seq<Field>, i: nat, keys0: set<string>, keys1: set<string>, keys2: set<string>,
                                  total0: U16, total1: U16, total2: U16)
    requires i < |fields|
    requires keys1 == keys0 + IdSet(ChannelIds(fields[..i])) && keys2 == keys1 + IdSet(ChannelIdOf(fields[i]))
    requires total1 == AddU16(total0, |ChannelIds(fields[..i])|) && total2 == AddU16(total1, |ChannelIdOf(fields[i])|)
    ensures keys2 == keys0 + IdSet(ChannelIds(fields[..i + 1]))
    ensures total2 == AddU16(total0, |ChannelIds(fields[..i + 1])|)
  {
    ChannelIdsStep(fields, i);
    AddU16Split(total0, |ChannelIds(fields[..i])|, |ChannelIdOf(fields[i])|);
    IdSetAppend(ChannelIds(fields[..i]), ChannelIdOf(fields[i]));
  }


  /** What was added to a footprint over two steps was added in one of them. */
  lemma DiffSplit<T>(a0: set<T>, a1: set<T>, a2: set<T>)
    ensures a2 - a0 <= (a2 - a1) + (a1 - a0)
  {
  }

  /** The feed registry, its channels and the statistics lie outside the guide store's footprint. */
  ghost predicate Apart(feeds: FeedRegistry, store: GuideStore, stats: Stats)
    reads feeds, store
  {
    feeds !in store.Repr && stats !in store.Repr && store.Repr !! feeds.Repr
  }

  /**
   * One child of the `tv` element: a `channel` is ingested as a feed
   * channel, a `programme` as a programme, anything else is ignored.
   */
  method ParseTvChild(modId: string, feeds: FeedRegistry, store: GuideStore, stats: Stats,
                      f: Field, clock: int, localTime: Tm -> int) returns (changed: bool)
    requires feeds.Valid() && store.Valid()
    requires ChildDefined(f)
    requires Apart(feeds, store, stats)
    modifies feeds, feeds.Repr, store, store.Repr
    modifies stats
    ensures feeds.Valid() && store.Valid()
    ensures fresh(feeds.Repr - old(feeds.Repr)) && fresh(store.Repr - old(store.Repr))
    ensures Apart(feeds, store, stats)
    ensures feeds.byId.Keys == old(feeds.byId.Keys) + IdSet(ChannelIdOf(f))
    ensures stats.channels.total == AddU16(old(stats.channels.total), |ChannelIdOf(f)|)
  {
    changed := false;
    if f.name == "channel" {
      changed := ParseChannel(feeds, stats, MapOf(f));
    } else {
      assert ChannelIdOf(f) == [] && IdSet(ChannelIdOf(f)) == {};
      if f.name == "programme" {
        ghost var t;
        changed, t := ParseProgramme(modId, feeds, store, stats, MapOf(f), clock, localTime);
        assert feeds.byId == old(feeds.byId);
      }
    }
  }

  /** One turn of the loop over the children of `tv`: the ids and the channel total keep pace with the children read. */
  method ParseTvStep(modId: string, feeds: FeedRegistry, store: GuideStore, stats: Stats,
                     fields: seq<Field>, i: nat, clock: int, localTime: Tm -> int,
                     ghost keys0: set<string>, ghost total0: U16) returns (changed: bool)
    requires i < |fields| && ChildDefined(fields[i])
    requires feeds.Valid() && store.Valid() && Apart(feeds, store, stats)
    requires feeds.byId.Keys == keys0 + IdSet(ChannelIds(fields[..i]))
    requires stats.channels.total == AddU16(total0, |ChannelIds(fields[..i])|)
    modifies feeds, feeds.Repr, store, store.Repr
    modifies stats
    ensures feeds.Valid() && store.Valid() && Apart(feeds, store, stats)
    ensures fresh(feeds.Repr - old(feeds.Repr)) && fresh(store.Repr - old(store.Repr))
    ensures feeds.byId.Keys == keys0 + IdSet(ChannelIds(fields[..i + 1]))
    ensures stats.channels.total == AddU16(total0, |ChannelIds(fields[..i + 1])|)
  {
    ghost var keys1, total1 := feeds.byId.Keys, stats.channels.total;
    changed := ParseTvChild(modId, feeds, store, stats, fields[i], clock, localTime);
    TvStep(fields, i, keys0, keys1, feeds.byId.Keys, total0, total1, stats.channels.total);
  }

  /**
   * The loop of `_xmltv_parse_tv`: the children are ingested in document
   * order, so every accepted channel id ends up registered and the
   * channel total counts each accepted `channel` child once.
   */
  method ParseTvChildren(modId: string, feeds: FeedRegistry, store: GuideStore, stats: Stats,
                         fields: seq<Field>, clock: int, localTime: Tm -> int) returns (save: bool)
    requires feeds.Valid() && store.Valid() && Apart(feeds, store, stats)
    requires forall i {:trigger ChildDefined(fields[i])} | 0 <= i < |fields| :: ChildDefined(fields[i])
    modifies feeds, feeds.Repr, store, store.Repr
    modifies stats
    ensures feeds.Valid() && store.Valid() && Apart(feeds, store, stats)
    ensures fresh(feeds.Repr - old(feeds.Repr)) && fresh(store.Repr - old(store.Repr))
    ensures feeds.byId.Keys == old(feeds.byId.Keys) + IdSet(ChannelIds(fields))
    ensures stats.channels.total == AddU16(old(stats.channels.total), |ChannelIds(fields)|)
  {
    save := false;
    ghost var keys0, total0 := feeds.byId.Keys, stats.channels.total;
    ghost var feedRepr0, repr0 := feeds.Repr, store.Repr;
    var i := 0;
    while i < |fields|
      invariant i <= |fields|
      invariant feeds.Valid() && store.Valid() && Apart(feeds, store, stats)
      invariant fresh(feeds.Repr - feedRepr0)
      invariant fresh(store.Repr - repr0)
      invariant feeds.byId.Keys == keys0 + IdSet(ChannelIds(fields[..i]))
      invariant stats.channels.total == AddU16(total0, |ChannelIds(fields[..i])|)
    {
      ghost var feedRepr1, repr1 := feeds.Repr, store.Repr;
      var changed := ParseTvStep(modId, feeds, store, stats, fields, i, clock, localTime, keys0, total0);
      DiffSplit(feedRepr0, feedRepr1, feeds.Repr);
      DiffSplit(repr0, repr1, store.Repr);
      save := save || changed;
      i := i + 1;
    }
    assert fields[..i] == fields;
  }


  /**
   * `_xmltv_parse_tv`: without `tags` nothing changes; otherwise its
   * children are ingested in document order.
   */
  method ParseTv(modId: string, feeds: FeedRegistry, store: GuideStore, stats: Stats,
                 tv: Msg, clock: int, localTime: Tm -> int) returns (save: bool)
    requires feeds.Valid() && store.Valid() && TvDefined(tv)
    requires Apart(feeds, store, stats)
    modifies feeds, feeds.Repr, store, store.Repr
    modifies stats
    ensures feeds.Valid() && store.Valid() && Apart(feeds, store, stats)
    ensures fresh(feeds.Repr - old(feeds.Repr)) && fresh(store.Repr - old(store.Repr))
    ensures GetMap(tv, "tags").None? ==>
              && !save && feeds.byId == old(feeds.byId)
              && store.broadcasts == old(store.broadcasts) && store.episodes == old(store.episodes)
              && store.seriesLinks == old(store.seriesLinks) && store.Repr == old(store.Repr)
              && ViewOf(store) == old(ViewOf(store))
              && stats.channels == old(stats.channels) && stats.broadcasts == old(stats.broadcasts)
              && stats.seasons == old(stats.seasons) && stats.episodes == old(stats.episodes)
    ensures GetMap(tv, "tags").Some? ==>
              var ids := ChannelIds(GetMap(tv, "tags").value.fields);
              && feeds.byId.Keys == old(feeds.byId.Keys) + IdSet(ids)
              && stats.channels.total == AddU16(old(stats.channels.total), |ids|)
  {
    save := false;
    var tags := GetMap(tv, "tags");
    if tags.None? { return; }
    assert forall i | 0 <= i < |tags.value.fields| :: tags.value.fields[i] in tags.value.fields;
    save := ParseTvChildren(modId, feeds, store, stats, tags.value.fields, clock, localTime);
  }
}
