/**
 * The state the ingester writes into: local channels, the grabber's own
 * channel records, the programme guide (broadcasts, episodes, series links)
 * and the per-run statistics. The guide store itself lives outside the
 * grabber; here it is a pair of maps keyed by (channel, start, stop) and by
 * URI, with find-or-create operations that report whether they created, and
 * records whose setters report whether the value changed.
 */
module Guide {
  import opened Common
  import opened EpisodeNumbering

  /** `channel_t`: a local channel, as the lineup code renumbers, renames and re-icons it. */
  class Channel {
    var name: string
    var number: int
    var icon: string

    constructor (name: string, number: int, icon: string)
      ensures this.name == name && this.number == number && this.icon == icon
    {
      this.name := name;
      this.number := number;
      this.icon := icon;
    }

    /** `channel_set_number`. */
    method SetNumber(n: int)
      modifies this`number
      ensures number == n
    {
      number := n;
    }

    /** `channel_rename`: reports whether the name changed. */
    method Rename(n: string) returns (changed: bool)
      modifies this`name
      ensures name == n && changed == (old(name) != n)
    {
      changed := name != n;
      name := n;
    }

    /** `channel_set_icon`. */
    method SetIcon(i: string)
      modifies this`icon
      ensures icon == i
    {
      icon := i;
    }
  }

  /** `epggrab_channel_t`: the grabber's record of one feed channel. */
  class FeedChannel {
    const id: string
    var name: Option<string>
    var icon: Option<string>
    var number: int
    /** The local channels this feed channel is linked to (`ch->channels`), in list order. */
    var links: seq<Channel>
    /** The local channel the lineup code attached (`ec->channel`). */
    var channel: Channel?
    /** Set by `epggrab_channel_updated`. */
    var updated: bool

    constructor (id: string)
      ensures this.id == id && name.None? && icon.None? && number == 0
      ensures links == [] && channel == null && !updated
    {
      this.id := id;
      name := None;
      icon := None;
      number := 0;
      links := [];
      channel := null;
      updated := false;
    }

    /** `epggrab_channel_set_name`: reports whether the name changed. */
    method SetName(n: string) returns (changed: bool)
      modifies this`name
      ensures name == Some(n) && changed == (old(name) != Some(n))
    {
      changed := name != Some(n);
      name := Some(n);
    }

    /** `epggrab_channel_set_icon`: reports whether the icon changed. */
    method SetIcon(i: string) returns (changed: bool)
      modifies this`icon
      ensures icon == Some(i) && changed == (old(icon) != Some(i))
    {
      changed := icon != Some(i);
      icon := Some(i);
    }

    /** `epggrab_channel_set_number`: reports whether the number changed. */
    method SetNumber(n: int) returns (changed: bool)
      modifies this`number
      ensures number == n && changed == (old(number) != n)
    {
      changed := number != n;
      number := n;
    }

    method SetChannel(c: Channel)
      modifies this`channel
      ensures channel == c
    {
      channel := c;
    }

    /** `epggrab_channel_updated`. */
    method MarkUpdated()
      modifies this`updated
      ensures updated
    {
      updated := true;
    }
  }

  /** The grabber's channel tree (`_xmltv_channels`), keyed by feed channel id. */
  class FeedRegistry {
    var byId: map<string, FeedChannel>
    /** Every feed channel record the registry has handed out. */
    ghost var Repr: set<FeedChannel>

    constructor ()
      ensures byId == map[] && Repr == {}
    {
      byId := map[];
      Repr := {};
    }

    ghost predicate Valid()
      reads this
    {
      && byId.Values <= Repr
      && forall id | id in byId :: byId[id].id == id
    }

    /** `epggrab_channel_find` without creation. */
    function Lookup(id: string): (r: FeedChannel?)
      reads this
      ensures r != null <==> id in byId
      ensures r != null ==> r == byId[id]
    {
      if id in byId then byId[id] else null
    }

    /** `epggrab_channel_find` with creation: the record for `id`, and whether it was created. */
    method FindOrCreate(id: string) returns (c: FeedChannel, created: bool)
      requires Valid()
      modifies this
      ensures Valid()
      ensures created == (id !in old(byId))
      ensures !created ==> c == old(byId)[id]
      ensures created ==> fresh(c) && c.name.None? && c.icon.None? && c.number == 0
      ensures created ==> c.links == [] && c.channel == null && !c.updated
      ensures byId == old(byId)[id := c] && c.id == id
      ensures Repr == old(Repr) + {c}
    {
      if id in byId {
        c, created := byId[id], false;
      } else {
        c := new FeedChannel(id);
        created := true;
        byId := byId[id := c];
        Repr := Repr + {c};
      }
    }
  }

  /** A language string (`lang_str_t`): its (text, language) entries in the order they were added. */
  datatype LangEntry = LangEntry(text: Option<string>, lang: Option<string>)
  type LangStr = seq<LangEntry>

  /** A genre list built from `category` texts; the text-to-genre mapping is not modelled. */
  type GenreList = seq<Option<string>>

  /** `epg_episode_t`. */
  class Episode {
    const uri: Option<string>
    var isBw: bool
    var title: Option<LangStr>
    var subtitle: Option<LangStr>
    var genre: Option<GenreList>
    var epnum: EpNum

    constructor (uri: Option<string>)
      ensures this.uri == uri && !isBw && title.None? && subtitle.None? && genre.None?
      ensures epnum == ZeroEpNum
    {
      this.uri := uri;
      isBw := false;
      title := None;
      subtitle := None;
      genre := None;
      epnum := ZeroEpNum;
    }

    method SetIsBw(v: bool) returns (changed: bool)
      modifies this`isBw
      ensures isBw == v && changed == (old(isBw) != v)
    {
      changed := isBw != v;
      isBw := v;
    }

    method SetTitle(t: LangStr) returns (changed: bool)
      modifies this`title
      ensures title == Some(t) && changed == (old(title) != Some(t))
    {
      changed := title != Some(t);
      title := Some(t);
    }

    method SetSubtitle(t: LangStr) returns (changed: bool)
      modifies this`subtitle
      ensures subtitle == Some(t) && changed == (old(subtitle) != Some(t))
    {
      changed := subtitle != Some(t);
      subtitle := Some(t);
    }

    method SetGenre(g: GenreList) returns (changed: bool)
      modifies this`genre
      ensures genre == Some(g) && changed == (old(genre) != Some(g))
    {
      changed := genre != Some(g);
      genre := Some(g);
    }

    method SetEpnum(n: EpNum) returns (changed: bool)
      modifies this`epnum
      ensures epnum == n && changed == (old(epnum) != n)
    {
      changed := epnum != n;
      epnum := n;
    }
  }

  /** A broadcast is identified by its channel and its start and stop times. */
  datatype BroadcastKey = BroadcastKey(channel: Channel, start: int, stop: int)

  /** `epg_broadcast_t`. */
  class Broadcast {
    const key: BroadcastKey
    var isHd: bool
    var isWidescreen: bool
    var aspect: int
    var lines: int
    var isSubtitled: bool
    var isDeafSigned: bool
    var isAudioDesc: bool
    var isRepeat: bool
    var isNew: bool
    var description: Option<LangStr>
    var seriesLink: Option<string>
    var episode: Episode?

    constructor (key: BroadcastKey)
      ensures this.key == key && Blank()
    {
      this.key := key;
      isHd, isWidescreen, aspect, lines := false, false, 0, 0;
      isSubtitled, isDeafSigned, isAudioDesc := false, false, false;
      isRepeat, isNew := false, false;
      description, seriesLink, episode := None, None, null;
    }

    /** A freshly created broadcast: nothing set yet. */
    ghost predicate Blank()
      reads this
    {
      !isHd && !isWidescreen && aspect == 0 && lines == 0 &&
      !isSubtitled && !isDeafSigned && !isAudioDesc && !isRepeat && !isNew &&
      description.None? && seriesLink.None? && episode == null
    }

    method SetIsHd(v: bool) returns (changed: bool)
      modifies this`isHd
      ensures isHd == v && changed == (old(isHd) != v)
    {
      changed := isHd != v;
      isHd := v;
    }

    method SetIsWidescreen(v: bool) returns (changed: bool)
      modifies this`isWidescreen
      ensures isWidescreen == v && changed == (old(isWidescreen) != v)
    {
      changed := isWidescreen != v;
      isWidescreen := v;
    }

    method SetAspect(v: int) returns (changed: bool)
      modifies this`aspect
      ensures aspect == v && changed == (old(aspect) != v)
    {
      changed := aspect != v;
      aspect := v;
    }

    method SetLines(v: int) returns (changed: bool)
      modifies this`lines
      ensures lines == v && changed == (old(lines) != v)
    {
      changed := lines != v;
      lines := v;
    }

    method SetIsSubtitled(v: bool) returns (changed: bool)
      modifies this`isSubtitled
      ensures isSubtitled == v && changed == (old(isSubtitled) != v)
    {
      changed := isSubtitled != v;
      isSubtitled := v;
    }

    method SetIsDeafSigned(v: bool) returns (changed: bool)
      modifies this`isDeafSigned
      ensures isDeafSigned == v && changed == (old(isDeafSigned) != v)
    {
      changed := isDeafSigned != v;
      isDeafSigned := v;
    }

    method SetIsAudioDesc(v: bool) returns (changed: bool)
      modifies this`isAudioDesc
      ensures isAudioDesc == v && changed == (old(isAudioDesc) != v)
    {
      changed := isAudioDesc != v;
      isAudioDesc := v;
    }

    method SetIsRepeat(v: bool) returns (changed: bool)
      modifies this`isRepeat
      ensures isRepeat == v && changed == (old(isRepeat) != v)
    {
      changed := isRepeat != v;
      isRepeat := v;
    }

    method SetIsNew(v: bool) returns (changed: bool)
      modifies this`isNew
      ensures isNew == v && changed == (old(isNew) != v)
    {
      changed := isNew != v;
      isNew := v;
    }

    method SetDescription(d: LangStr) returns (changed: bool)
      modifies this`description
      ensures description == Some(d) && changed == (old(description) != Some(d))
    {
      changed := description != Some(d);
      description := Some(d);
    }

    method SetSeriesLink(s: string) returns (changed: bool)
      modifies this`seriesLink
      ensures seriesLink == Some(s) && changed == (old(seriesLink) != Some(s))
    {
      changed := seriesLink != Some(s);
      seriesLink := Some(s);
    }

    method SetEpisode(e: Episode) returns (changed: bool)
      modifies this`episode
      ensures episode == e && changed == (old(episode) != e)
    {
      changed := episode != e;
      episode := e;
    }

    /** `epg_broadcast_get_episode(ebc, 1, &save)`: the broadcast's episode, created without a URI if it has none. */
    method GetEpisode() returns (e: Episode, created: bool)
      modifies this`episode
      ensures episode == e
      ensures created == (old(episode) == null)
      ensures !created ==> e == old(episode)
      ensures created ==> fresh(e) && e.uri.None? && e.epnum == ZeroEpNum
      ensures created ==> e.title.None? && e.subtitle.None? && e.genre.None?
    {
      if episode != null {
        e, created := episode, false;
      } else {
        e := new Episode(None);
        created := true;
        episode := e;
      }
    }
  }

  /** The guide: broadcasts by key, episodes by URI, and the series links known by URI. */
  class GuideStore {
    var broadcasts: map<BroadcastKey, Broadcast>
    var episodes: map<string, Episode>
    var seriesLinks: set<string>
    /** The records the store holds, and the episodes its broadcasts point to. */
    ghost var Repr: set<object>

    constructor ()
      ensures Valid() && fresh(Repr)
      ensures broadcasts == map[] && episodes == map[] && seriesLinks == {}
    {
      broadcasts := map[];
      episodes := map[];
      seriesLinks := {};
      Repr := {};
    }

    ghost predicate Valid()
      reads this, Repr
    {
      && broadcasts.Values <= Repr
      && episodes.Values <= Repr
      && (forall u | u in episodes :: episodes[u].uri == Some(u))
      && (forall b | b in broadcasts.Values :: b.episode != null ==> b.episode in Repr)
    }

    /** `epg_broadcast_find_by_time(ch, start, stop, 0, 1, &save)`. */
    method FindBroadcast(key: BroadcastKey) returns (b: Broadcast, created: bool)
      requires Valid()
      modifies this
      ensures Valid() && Repr == old(Repr) + {b}
      ensures created == (key !in old(broadcasts))
      ensures !created ==> b == old(broadcasts)[key]
      ensures created ==> fresh(b) && b.Blank() && b.key == key
      ensures broadcasts == old(broadcasts)[key := b]
      ensures episodes == old(episodes) && seriesLinks == old(seriesLinks)
    {
      if key in broadcasts {
        b, created := broadcasts[key], false;
      } else {
        b := new Broadcast(key);
        created := true;
        broadcasts := broadcasts[key := b];
        Repr := Repr + {b};
      }
    }

    /** `epg_episode_find_by_uri(uri, 1, &save)`. */
    method FindEpisode(uri: string) returns (e: Episode, created: bool)
      requires Valid()
      modifies this
      ensures Valid() && Repr == old(Repr) + {e}
      ensures created == (uri !in old(episodes))
      ensures !created ==> e == old(episodes)[uri]
      ensures created ==> fresh(e) && e.uri == Some(uri) && e.epnum == ZeroEpNum
      ensures created ==> e.title.None? && e.subtitle.None? && e.genre.None?
      ensures episodes == old(episodes)[uri := e]
      ensures broadcasts == old(broadcasts) && seriesLinks == old(seriesLinks)
    {
      if uri in episodes {
        e, created := episodes[uri], false;
      } else {
        e := new Episode(Some(uri));
        created := true;
        episodes := episodes[uri := e];
        Repr := Repr + {e};
      }
    }

    /** `epg_serieslink_find_by_uri(uri, 1, &save)`. */
    method FindSeriesLink(uri: string) returns (created: bool)
      requires Valid()
      modifies this`seriesLinks
      ensures Valid()
      ensures created == (uri !in old(seriesLinks))
      ensures seriesLinks == old(seriesLinks) + {uri}
    {
      created := uri !in seriesLinks;
      seriesLinks := seriesLinks + {uri};
    }
  }

  /** One line of `epggrab_stats_t`: `uint16_t` total, created and modified counts. */
  datatype Counter = Counter(total: U16, created: U16, modified: U16)

  const ZeroCounter := Counter(0, 0, 0)

  /** `epggrab_stats_t`. */
  class Stats {
    var channels: Counter
    var broadcasts: Counter
    var episodes: Counter
    var seasons: Counter

    constructor ()
      ensures channels == ZeroCounter && broadcasts == ZeroCounter
      ensures episodes == ZeroCounter && seasons == ZeroCounter
    {
      channels, broadcasts, episodes, seasons := ZeroCounter, ZeroCounter, ZeroCounter, ZeroCounter;
    }
  }
}
