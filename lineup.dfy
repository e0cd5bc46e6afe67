// Lineup reconciliation (`xmltv_parse_lineups` and its helpers): a walk
// over the children of an `xmltv-lineup` element that carries six text
// variables from child to child and, per child, renumbers, renames or
// re-icons a local channel (Sky set-top-box entries, matched by name) or a
// feed channel linked to a DVB service (matched by service id).
//
// A C string variable is an `Option<string>`, `None` standing for NULL.
// Wherever the C code hands a NULL to `strcmp`, `sscanf`, `atoi`, a
// `HTSMSG_FOREACH` or a setter, the walk stops with `Undefined`.

module Lineup {
  import opened Common
  import opened Scan
  import opened Htsmsg
  import opened Guide

  /** The global switches `epggrab_channel_renumber`, `_rename` and `_reicon`. */
  datatype Config = Config(renumber: bool, rename: bool, reicon: bool)

  /** A DVB service as `_xmltv_find_service` sees it. */
  datatype Service = Service(sid: int, enabled: bool, channel: Channel?, primaryEpg: bool)

  /** The result of a step that either completes or dereferences NULL. */
  datatype Outcome<T> = Undefined | Defined(value: T)

  // ---------------------------------------------------------------------
  // Lookups and keys
  // ---------------------------------------------------------------------

  /** The names of the local channels, in registry order. */
  function NamesOf(channels: seq<Channel>): (r: seq<string>)
    reads set c | c in channels
    ensures |r| == |channels| && forall i | 0 <= i < |r| :: r[i] == channels[i].name
  {
    if channels == [] then []
    else NamesOf(channels[..|channels| - 1]) + [channels[|channels| - 1].name]
  }

  /** `channel_find_by_name`: the position of the first channel called `name`. */
  function FirstNamed(names: seq<string>, name: string): (r: Option<nat>)
    ensures r.Some? ==> r.value < |names| && names[r.value] == name
    ensures r.Some? ==> forall j | 0 <= j < r.value :: names[j] != name
    ensures r.None? ==> forall j | 0 <= j < |names| :: names[j] != name
  {
    if names == [] then None
    else if names[0] == name then Some(0)
    else
      match FirstNamed(names[1..], name)
      case None => None
      case Some(k) => Some(k + 1)
  }

  /** `_xmltv_find_service`: the first enabled service with service id `sid`. */
  function FindService(services: seq<Service>, sid: int): (r: Option<Service>)
    ensures r.Some? ==> r.value in services && r.value.enabled && r.value.sid == sid
    ensures r.None? ==> forall s | s in services :: !(s.enabled && s.sid == sid)
  {
    if services == [] then None
    else if services[0].enabled && services[0].sid == sid then Some(services[0])
    else FindService(services[1..], sid)
  }

  /** The service `xmltv_channelupdate` acts on: found, and mapped to a local channel. */
  predicate Linked(services: seq<Service>, sid: int)
  {
    FindService(services, sid).Some? && FindService(services, sid).value.channel != null
  }

  /** `_xmltv_find_epggrab_channel`: the feed channel id `"<module>-<cid>"`. */
  function ChannelKey(modId: string, cid: int): string
  {
    modId + "-" + IntText(cid)
  }

  /** Distinct service ids of one module give distinct feed channel ids. */
  lemma {:induction false} ChannelKeyInjective(modId: string, a: int, b: int)
    requires ChannelKey(modId, a) == ChannelKey(modId, b)
    ensures a == b
  {
    var n := |modId| + 1;
    assert ChannelKey(modId, a)[n..] == IntText(a);
    assert ChannelKey(modId, b)[n..] == IntText(b);
    IntTextInjective(a, b);
  }

  // ---------------------------------------------------------------------
  // xmltv_lineup_returnvar, xmltv_lineup_returnvarattrib
  // ---------------------------------------------------------------------

  /** `xmltv_lineup_returnvar`: the element's text; `""` when the field is no element. */
  function ReturnVar(g: Field): Option<string>
  {
    match MapOf(g)
    case None => Some("")
    case Some(tag) => GetStr(tag, "cdata")
  }

  /** NULL comes back exactly for an element without text. */
  lemma {:induction false} ReturnVarNull(g: Field)
    ensures ReturnVar(g).None? <==> MapOf(g).Some? && GetStr(MapOf(g).value, "cdata").None?
    ensures MapOf(g).None? ==> ReturnVar(g) == Some("")
  {
  }

  /**
   * `xmltv_lineup_returnvarattrib`: the element's `url` attribute; `""` when
   * the field is no element; NULL dereferenced when the element has no
   * attributes at all.
   */
  function ReturnVarAttrib(g: Field): (r: Outcome<Option<string>>)
    ensures r.Undefined? <==> MapOf(g).Some? && GetMap(MapOf(g).value, "attrib").None?
    ensures MapOf(g).None? ==> r == Defined(Some(""))
  {
    match MapOf(g)
    case None => Defined(Some(""))
    case Some(tag) =>
      match GetMap(tag, "attrib")
      case None => Undefined
      case Some(attrib) => Defined(GetStr(attrib, "url"))
  }

  // ---------------------------------------------------------------------
  // The variables carried from child to child
  // ---------------------------------------------------------------------

  /**
   * `chan_number`, `lineup_section`, `chan_name`, `logo`, `chan_service_id`
   * and `stb_preset`; the other variables of the walk are assigned but
   * never read.
   */
  datatype Vars = Vars(number: Option<string>, section: Option<string>, name: Option<string>,
                       logo: Option<string>, serviceId: Option<string>, stbPreset: Option<string>)

  /** Their initial values: `"0"`, `""`, `""`, `""`, `"0"` and NULL. */
  const Initial := Vars(Some("0"), Some(""), Some(""), Some(""), Some("0"), None)

  /** One child of a `station` element's tags. */
  function StationChild(v: Vars, g: Field): Outcome<Vars>
  {
    if g.name == "name" then Defined(v.(name := ReturnVar(g)))
    else if g.name == "logo" then
      match ReturnVarAttrib(g)
      case Undefined => Undefined
      case Defined(l) => Defined(v.(logo := l))
    else if g.name == "video" && MapOf(g).Some? && GetMap(MapOf(g).value, "tags").None? then Undefined
    else Defined(v)
  }

  /** The children of a `station` element, in order. */
  function StationVars(v: Vars, gs: seq<Field>): Outcome<Vars>
    decreases |gs|
  {
    if gs == [] then Defined(v)
    else
      match StationChild(v, gs[0])
      case Undefined => Undefined
      case Defined(w) => StationVars(w, gs[1..])
  }

  /** The children of a `dvb-channel` element: only `service-id` is read later. */
  function DvbVars(v: Vars, gs: seq<Field>): Vars
    decreases |gs|
  {
    if gs == [] then v
    else DvbVars(if gs[0].name == "service-id" then v.(serviceId := ReturnVar(gs[0])) else v, gs[1..])
  }

  /** The children of an `stb-channel` element: `stb-preset`. */
  function StbVars(v: Vars, gs: seq<Field>): Vars
    decreases |gs|
  {
    if gs == [] then v
    else StbVars(if gs[0].name == "stb-preset" then v.(stbPreset := ReturnVar(gs[0])) else v, gs[1..])
  }

  /**
   * One child of a `lineup-entry` element's tags. A `station` without tags
   * is iterated as NULL; a `dvb-channel` or `stb-channel` without tags is
   * skipped.
   */
  function EntryChild(v: Vars, f: Field): Outcome<Vars>
  {
    if f.name == "preset" then Defined(v.(number := ReturnVar(f)))
    else if f.name == "section" then Defined(v.(section := ReturnVar(f)))
    else if MapOf(f).None? then Defined(v)
    else
      var tags := GetMap(MapOf(f).value, "tags");
      if f.name == "station" then
        if tags.None? then Undefined else StationVars(v, tags.value.fields)
      else if f.name == "dvb-channel" then
        if tags.None? then Defined(v) else Defined(DvbVars(v, tags.value.fields))
      else if f.name == "stb-channel" then
        if tags.None? then Defined(v) else Defined(StbVars(v, tags.value.fields))
      else Defined(v)
  }

  /** The children of a `lineup-entry` element, in order. */
  function EntryVars(v: Vars, fs: seq<Field>): Outcome<Vars>
    decreases |fs|
  {
    if fs == [] then Defined(v)
    else
      match EntryChild(v, fs[0])
      case Undefined => Undefined
      case Defined(w) => EntryVars(w, fs[1..])
  }

  /**
   * One child of the lineup list: the variables after it and whether the
   * classification runs. A `lineup-entry` element without tags skips the
   * classification; any other child is classified with the variables as
   * they are.
   */
  function ScanChild(v: Vars, e: Field): Outcome<(Vars, bool)>
  {
    if e.name == "lineup-entry" && MapOf(e).Some? then
      match GetMap(MapOf(e).value, "tags")
      case None => Defined((v, false))
      case Some(tags) =>
        match EntryVars(v, tags.fields)
        case Undefined => Undefined
        case Defined(w) => Defined((w, true))
    else Defined((v, true))
  }

  /** An entry without an `stb-channel` child leaves `stb_preset` as it was. */
  lemma {:induction false} StbPresetKept(v: Vars, fs: seq<Field>)
    requires EntryVars(v, fs).Defined?
    requires forall i | 0 <= i < |fs| :: fs[i].name != "stb-channel"
    ensures EntryVars(v, fs).value.stbPreset == v.stbPreset
    decreases |fs|
  {
    if fs != [] {
      var w := EntryChild(v, fs[0]).value;
      if fs[0].name == "station" && MapOf(fs[0]).Some? && GetMap(MapOf(fs[0]).value, "tags").Some? {
        StationKeepsPreset(v, GetMap(MapOf(fs[0]).value, "tags").value.fields);
      }
      if fs[0].name == "dvb-channel" && MapOf(fs[0]).Some? && GetMap(MapOf(fs[0]).value, "tags").Some? {
        DvbKeepsPreset(v, GetMap(MapOf(fs[0]).value, "tags").value.fields);
      }
      assert w.stbPreset == v.stbPreset;
      StbPresetKept(w, fs[1..]);
    }
  }

  lemma {:induction false} StationKeepsPreset(v: Vars, gs: seq<Field>)
    requires StationVars(v, gs).Defined?
    ensures StationVars(v, gs).value.stbPreset == v.stbPreset
    decreases |gs|
  {
    if gs != [] {
      StationKeepsPreset(StationChild(v, gs[0]).value, gs[1..]);
    }
  }

  lemma {:induction false} DvbKeepsPreset(v: Vars, gs: seq<Field>)
    ensures DvbVars(v, gs).stbPreset == v.stbPreset
    decreases |gs|
  {
    if gs != [] {
      DvbKeepsPreset(if gs[0].name == "service-id" then v.(serviceId := ReturnVar(gs[0])) else v, gs[1..]);
    }
  }

  // ---------------------------------------------------------------------
  // Classification
  // ---------------------------------------------------------------------

  datatype Action = SkipRadio | ToStb | ToUpdate(cid: int) | NoMatch

  /**
   * The classification block: the service id is converted first (`0` when
   * nothing converts), then a `Radio channels` section is skipped, then a
   * set `stb_preset` sends the entry to `stb_channel`, then a non-zero
   * service id outside the `Regional` section to `xmltv_channelupdate`.
   */
  function Classify(v: Vars): (r: Outcome<Action>)
    ensures r.Undefined? <==> v.serviceId.None? || v.section.None?
    ensures r.Defined? ==>
              (r.value == SkipRadio <==> v.section.value == "Radio channels")
              && (r.value == ToStb <==> v.section.value != "Radio channels" && v.stbPreset.Some?)
              && (r.value.ToUpdate? <==> v.section.value != "Radio channels" && v.stbPreset.None?
                                         && Atoi(v.serviceId.value) != 0 && v.section.value != "Regional")
              && (r.value.ToUpdate? ==> r.value.cid == Atoi(v.serviceId.value))
  {
    if v.serviceId.None? || v.section.None? then Undefined
    else
      var cid := Atoi(v.serviceId.value);
      if v.section.value == "Radio channels" then Defined(SkipRadio)
      else if v.stbPreset.Some? then Defined(ToStb)
      else if cid != 0 && v.section.value != "Regional" then Defined(ToUpdate(cid))
      else Defined(NoMatch)
  }

  /**
   * What `stb_channel` returns: 1 exactly when a channel of that name
   * exists and one of the three switches is on, whether or not a value
   * changes; NULL handed to the lookup, to `atoi` or to the icon setter
   * is `Undefined`.
   */
  function StbResult(config: Config, names: seq<string>, name: Option<string>,
                     number: Option<string>, logo: Option<string>): (r: Outcome<bool>)
    ensures r == Defined(true) <==>
              name.Some? && FirstNamed(names, name.value).Some?
              && (config.renumber || config.rename || config.reicon)
              && (config.renumber ==> number.Some?) && (config.reicon ==> logo.Some?)
  {
    if name.None? then Undefined
    else if FirstNamed(names, name.value).None? then Defined(false)
    else if (config.renumber && number.None?) || (config.reicon && logo.None?) then Undefined
    else Defined(config.renumber || config.rename || config.reicon)
  }

  /**
   * What `xmltv_channelupdate` returns: 1 exactly when an enabled service
   * with that id has a channel and the number is to be set on a primary
   * EPG service, or names or icons are to be set.
   */
  function UpdateResult(config: Config, services: seq<Service>, cid: int, name: Option<string>,
                        number: Option<string>, logo: Option<string>): (r: Outcome<bool>)
    ensures !Linked(services, cid) ==> r == Defined(false)
    ensures r == Defined(true) <==>
              Linked(services, cid)
              && ((FindService(services, cid).value.primaryEpg && config.renumber) || config.rename || config.reicon)
              && (FindService(services, cid).value.primaryEpg && config.renumber ==> number.Some?)
              && (config.rename ==> name.Some?) && (config.reicon ==> logo.Some?)
  {
    if !Linked(services, cid) then Defined(false)
    else
      var s := FindService(services, cid).value;
      if (s.primaryEpg && config.renumber && number.None?) || (config.rename && name.None?)
         || (config.reicon && logo.None?) then Undefined
      else Defined((s.primaryEpg && config.renumber) || config.rename || config.reicon)
  }

  /** The feed channel ids `xmltv_channelupdate` finds or creates. */
  function UpdateKeys(modId: string, services: seq<Service>, cid: int): set<string>
  {
    if Linked(services, cid) then {ChannelKey(modId, cid)} else {}
  }

  // ---------------------------------------------------------------------
  // The walk
  // ---------------------------------------------------------------------

  /** What the walk depends on besides the lineup: module id, switches, channel names, services. */
  datatype Env = Env(modId: string, config: Config, names: seq<string>, services: seq<Service>)

  /** The variables, `update_counter`, and the feed channel ids found or created so far. */
  datatype WalkState = WalkState(vars: Vars, updates: nat, keys: set<string>)

  /** The feed channel ids a classified child finds or creates. */
  function TouchedKeys(modId: string, services: seq<Service>, v: Vars): set<string>
  {
    match Classify(v)
    case Defined(ToUpdate(cid)) => UpdateKeys(modId, services, cid)
    case _ => {}
  }

  /** One classified child: the changed bit it returns and the feed channel ids it touches. */
  function Effect(env: Env, v: Vars): Outcome<(bool, set<string>)>
  {
    match Classify(v)
    case Undefined => Undefined
    case Defined(a) =>
      match a
      case SkipRadio => Defined((false, {}))
      case NoMatch => Defined((false, {}))
      case ToStb =>
        (match StbResult(env.config, env.names, v.name, v.number, v.logo)
         case Undefined => Undefined
         case Defined(c) => Defined((c, {})))
      case ToUpdate(cid) =>
        match UpdateResult(env.config, env.services, cid, v.name, v.number, v.logo)
        case Undefined => Undefined
        case Defined(c) => Defined((c, TouchedKeys(env.modId, env.services, v)))
  }

  /** The classification of a child with variables `v`: a returned 1 is counted. */
  function Apply(env: Env, st: WalkState, v: Vars): Outcome<WalkState>
  {
    match Effect(env, v)
    case Undefined => Undefined
    case Defined((c, keys)) =>
      Defined(WalkState(v, st.updates + (if c then 1 else 0), st.keys + keys))
  }

  /** One child of the lineup list. */
  function ChildStep(env: Env, st: WalkState, e: Field): Outcome<WalkState>
  {
    match ScanChild(st.vars, e)
    case Undefined => Undefined
    case Defined((v, classify)) =>
      if !classify then Defined(st.(vars := v)) else Apply(env, st, v)
  }

  /** The rest of the walk from state `st`. */
  function Walk(env: Env, st: WalkState, children: seq<Field>): Outcome<WalkState>
    decreases |children|
  {
    if children == [] then Defined(st)
    else
      match ChildStep(env, st, children[0])
      case Undefined => Undefined
      case Defined(next) => Walk(env, next, children[1..])
  }

  /** The walk from position `i` is the step at `i` followed by the walk from `i + 1`. */
  lemma {:induction false} WalkUnfold(env: Env, st: WalkState, children: seq<Field>, i: nat)
    requires i < |children|
    ensures Walk(env, st, children[i..]) ==
              match ChildStep(env, st, children[i])
              case Undefined => Undefined
              case Defined(next) => Walk(env, next, children[i + 1..])
  {
    assert children[i..][1..] == children[i + 1..];
  }

  /** `update_counter` rises by at most one per child, and feed channel ids are only added. */
  lemma {:induction false} WalkBounds(env: Env, st: WalkState, children: seq<Field>)
    requires Walk(env, st, children).Defined?
    ensures st.updates <= Walk(env, st, children).value.updates <= st.updates + |children|
    ensures st.keys <= Walk(env, st, children).value.keys
    decreases |children|
  {
    if children != [] {
      WalkBounds(env, ChildStep(env, st, children[0]).value, children[1..]);
    }
  }

  /** Every feed channel id the walk adds is the key of a linked service id. */
  lemma {:induction false} WalkKeys(env: Env, st: WalkState, children: seq<Field>, k: string)
    requires Walk(env, st, children).Defined?
    requires k in Walk(env, st, children).value.keys && k !in st.keys
    ensures exists cid :: Linked(env.services, cid) && k == ChannelKey(env.modId, cid)
    decreases |children|
  {
    if children != [] {
      var next := ChildStep(env, st, children[0]).value;
      if k in next.keys {
        var cid := Classify(ScanChild(st.vars, children[0]).value.0).value.cid;
        assert Linked(env.services, cid) && k == ChannelKey(env.modId, cid);
      } else {
        WalkKeys(env, next, children[1..], k);
      }
    }
  }

  /** The children of `tags/xmltv-lineup/tags`, when the path exists. */
  function LineupChildren(body: Msg): Option<seq<Field>>
  {
    match GetMap(body, "tags")
    case None => None
    case Some(t) =>
      match GetMap(t, "xmltv-lineup")
      case None => None
      case Some(l) =>
        match GetMap(l, "tags")
        case None => None
        case Some(c) => Some(c.fields)
  }

  // ---------------------------------------------------------------------
  // The loops over the tag tree
  // ---------------------------------------------------------------------

  /** The `HTSMSG_FOREACH` over a `station` element's tags. */
  method ScanStation(v: Vars, gs: seq<Field>) returns (r: Outcome<Vars>)
    ensures r == StationVars(v, gs)
  {
    var w := v;
    var i := 0;
    while i < |gs|
      invariant i <= |gs|
      invariant StationVars(v, gs) == StationVars(w, gs[i..])
    {
      assert gs[i..][1..] == gs[i + 1..];
      var g := gs[i];
      if g.name == "name" {
        w := w.(name := ReturnVar(g));
      } else if g.name == "logo" {
        var logo := ReturnVarAttrib(g);
        if logo.Undefined? {
          return Undefined;
        }
        w := w.(logo := logo.value);
      } else if g.name == "video" {
        var tag := MapOf(g);
        if tag.Some? && GetMap(tag.value, "tags").None? {
          return Undefined;
        }
      }
      i := i + 1;
    }
    return Defined(w);
  }

  /** The `HTSMSG_FOREACH` over a `dvb-channel` element's tags. */
  method ScanDvb(v: Vars, gs: seq<Field>) returns (w: Vars)
    ensures w == DvbVars(v, gs)
  {
    w := v;
    var i := 0;
    while i < |gs|
      invariant i <= |gs|
      invariant DvbVars(v, gs) == DvbVars(w, gs[i..])
    {
      assert gs[i..][1..] == gs[i + 1..];
      if gs[i].name == "service-id" {
        w := w.(serviceId := ReturnVar(gs[i]));
      }
      i := i + 1;
    }
  }

  /** The `HTSMSG_FOREACH` over an `stb-channel` element's tags. */
  method ScanStb(v: Vars, gs: seq<Field>) returns (w: Vars)
    ensures w == StbVars(v, gs)
  {
    w := v;
    var i := 0;
    while i < |gs|
      invariant i <= |gs|
      invariant StbVars(v, gs) == StbVars(w, gs[i..])
    {
      assert gs[i..][1..] == gs[i + 1..];
      if gs[i].name == "stb-preset" {
        w := w.(stbPreset := ReturnVar(gs[i]));
      }
      i := i + 1;
    }
  }

  /** The `HTSMSG_FOREACH` over a `lineup-entry` element's tags. */
  method ScanEntry(v: Vars, fs: seq<Field>) returns (r: Outcome<Vars>)
    ensures r == EntryVars(v, fs)
  {
    var w := v;
    var i := 0;
    while i < |fs|
      invariant i <= |fs|
      invariant EntryVars(v, fs) == EntryVars(w, fs[i..])
    {
      assert fs[i..][1..] == fs[i + 1..];
      var f := fs[i];
      var tag := MapOf(f);
      if f.name == "preset" {
        w := w.(number := ReturnVar(f));
      } else if f.name == "section" {
        w := w.(section := ReturnVar(f));
      } else if tag.Some? {
        var chandata := GetMap(tag.value, "tags");
        if f.name == "station" {
          if chandata.None? {
            return Undefined;
          }
          var s := ScanStation(w, chandata.value.fields);
          if s.Undefined? {
            return Undefined;
          }
          w := s.value;
        } else if f.name == "dvb-channel" && chandata.Some? {
          w := ScanDvb(w, chandata.value.fields);
        } else if f.name == "stb-channel" && chandata.Some? {
          w := ScanStb(w, chandata.value.fields);
        }
      }
      i := i + 1;
    }
    return Defined(w);
  }

  // ---------------------------------------------------------------------
  // stb_channel, xmltv_channelupdate
  // ---------------------------------------------------------------------

  /**
   * `stb_channel`: the first local channel called `name` is renumbered,
   * renamed (to the name it already has) and re-iconed as the switches
   * say; no other channel changes.
   */
  method StbChannel(config: Config, channels: seq<Channel>, name: Option<string>,
                    number: Option<string>, logo: Option<string>) returns (changed: Outcome<bool>)
    modifies set c | c in channels
    ensures changed == StbResult(config, old(NamesOf(channels)), name, number, logo)
    ensures NamesOf(channels) == old(NamesOf(channels))
    ensures changed.Defined? && name.Some? && old(FirstNamed(NamesOf(channels), name.value)).None? ==>
              forall c | c in channels :: unchanged(c)
    ensures changed.Defined? && name.Some? && old(FirstNamed(NamesOf(channels), name.value)).Some? ==>
              var c := channels[old(FirstNamed(NamesOf(channels), name.value)).value];
              && (if config.renumber then number.Some? && c.number == Atoi(number.value) else c.number == old(c.number))
              && (if config.reicon then logo.Some? && c.icon == logo.value else c.icon == old(c.icon))
              && forall o | o in channels && o != c :: unchanged(o)
  {
    if name.None? {
      return Undefined;
    }
    var k := FirstNamed(NamesOf(channels), name.value);
    if k.None? {
      return Defined(false);
    }
    var chan := channels[k.value];
    if config.renumber {
      if number.None? {
        return Undefined;
      }
      chan.SetNumber(Atoi(number.value));
    }
    if config.rename {
      var renamed := chan.Rename(name.value);
    }
    if config.reicon {
      if logo.None? {
        return Undefined;
      }
      chan.SetIcon(logo.value);
    }
    assert forall i | 0 <= i < |channels| :: channels[i].name == old(channels[i].name);
    return Defined(config.renumber || config.rename || config.reicon);
  }

  /**
   * The value updates of `xmltv_channelupdate`, in the order the source
   * makes them; a value the update needs but the entry never set stops it.
   */
  method ApplyLineupValues(ec: FeedChannel, config: Config, primary: bool,
                           name: Option<string>, number: Option<string>, logo: Option<string>)
    returns (complete: bool)
    modifies ec`number, ec`name, ec`icon
    ensures complete <==> (primary && config.renumber ==> number.Some?)
                          && (config.rename ==> name.Some?) && (config.reicon ==> logo.Some?)
    ensures complete ==>
              && (if primary && config.renumber then ec.number == Atoi(number.value) else ec.number == old(ec.number))
              && (if config.rename then ec.name == name else ec.name == old(ec.name))
              && (if config.reicon then ec.icon == logo else ec.icon == old(ec.icon))
  {
    complete := false;
    if primary && config.renumber {
      if number.None? {
        return;
      }
      var c := ec.SetNumber(Atoi(number.value));
    }
    if config.rename {
      if name.None? {
        return;
      }
      var c := ec.SetName(name.value);
    }
    if config.reicon {
      if logo.None? {
        return;
      }
      var c := ec.SetIcon(logo.value);
    }
    complete := true;
  }

  /**
   * `xmltv_channelupdate`: for a linked service id, the feed channel
   * `"<module>-<cid>"` is found or created and linked to the service's
   * channel first, then takes the number (primary EPG service only), the
   * name and the icon as the switches say.
   */
  method ChannelUpdate(modId: string, config: Config, services: seq<Service>, feeds: FeedRegistry,
                       cid: int, name: Option<string>, number: Option<string>, logo: Option<string>)
    returns (changed: Outcome<bool>)
    requires feeds.Valid()
    modifies feeds, feeds.Repr
    ensures feeds.Valid() && fresh(feeds.Repr - old(feeds.Repr))
    ensures changed == UpdateResult(config, services, cid, name, number, logo)
    ensures changed.Defined? ==> feeds.byId.Keys == old(feeds.byId.Keys) + UpdateKeys(modId, services, cid)
    ensures !Linked(services, cid) ==> feeds.byId == old(feeds.byId) && forall c | c in old(feeds.Repr) :: unchanged(c)
    ensures Linked(services, cid) ==>
              && ChannelKey(modId, cid) in feeds.byId
              && forall c | c in old(feeds.Repr) && c != feeds.byId[ChannelKey(modId, cid)] :: unchanged(c)
    ensures changed.Defined? && Linked(services, cid) ==>
              var s := FindService(services, cid).value;
              && ChannelKey(modId, cid) in feeds.byId
              && var ec := feeds.byId[ChannelKey(modId, cid)];
              && ec.channel == s.channel
              && (if s.primaryEpg && config.renumber then number.Some? && ec.number == Atoi(number.value)
                  else ec.number == old(if ChannelKey(modId, cid) in feeds.byId then feeds.byId[ChannelKey(modId, cid)].number else 0))
              && (config.rename ==> ec.name == name)
              && (config.reicon ==> ec.icon == logo)
  {
    var s := FindService(services, cid);
    if s.None? || s.value.channel == null {
      return Defined(false);
    }
    var ec, created := feeds.FindOrCreate(ChannelKey(modId, cid));
    ec.SetChannel(s.value.channel);
    var complete := ApplyLineupValues(ec, config, s.value.primaryEpg, name, number, logo);
    if !complete {
      return Undefined;
    }
    return Defined((s.value.primaryEpg && config.renumber) || config.rename || config.reicon);
  }

  // ---------------------------------------------------------------------
  // xmltv_parse_lineups
  // ---------------------------------------------------------------------

  /** The scanning part of one iteration of the outer `HTSMSG_FOREACH`. */
  method ScanLineupChild(v: Vars, e: Field) returns (r: Outcome<(Vars, bool)>)
    ensures r == ScanChild(v, e)
  {
    if e.name == "lineup-entry" {
      var tag := MapOf(e);
      if tag.Some? {
        var lineups := GetMap(tag.value, "tags");
        if lineups.None? {
          return Defined((v, false));
        }
        var w := ScanEntry(v, lineups.value.fields);
        if w.Undefined? {
          return Undefined;
        }
        return Defined((w.value, true));
      }
    }
    return Defined((v, true));
  }

  /** A child classified for `stb_channel`. */
  method StbStep(ghost modId: string, config: Config, ghost services: seq<Service>,
                 channels: seq<Channel>, st: WalkState, v: Vars) returns (r: Outcome<WalkState>)
    requires Classify(v) == Defined(ToStb)
    modifies set c | c in channels
    ensures NamesOf(channels) == old(NamesOf(channels))
    ensures r == Apply(Env(modId, config, old(NamesOf(channels)), services), st, v)
    ensures r.Defined? ==> r.value.keys == st.keys
  {
    ghost var env := Env(modId, config, NamesOf(channels), services);
    assert TouchedKeys(modId, services, v) == {};
    var changed := StbChannel(config, channels, v.name, v.number, v.logo);
    if changed.Undefined? {
      return Undefined;
    }
    assert Effect(env, v) == Defined((changed.value, {}));
    assert st.keys + {} == st.keys;
    r := Defined(WalkState(v, st.updates + (if changed.value then 1 else 0), st.keys));
  }

  /** A child classified for `xmltv_channelupdate` with service id `cid`. */
  method UpdateStep(modId: string, config: Config, services: seq<Service>, feeds: FeedRegistry,
                    ghost channels: seq<Channel>, st: WalkState, v: Vars, cid: int, ghost base: set<string>)
    returns (r: Outcome<WalkState>)
    requires Classify(v) == Defined(ToUpdate(cid))
    requires feeds.Valid() && feeds.byId.Keys == base + st.keys
    modifies feeds, feeds.Repr
    ensures feeds.Valid() && fresh(feeds.Repr - old(feeds.Repr))
    ensures r == Apply(Env(modId, config, NamesOf(channels), services), st, v)
    ensures r.Defined? ==> feeds.byId.Keys == base + r.value.keys
  {
    var changed := ChannelUpdate(modId, config, services, feeds, cid, v.name, v.number, v.logo);
    if changed.Undefined? {
      return Undefined;
    }
    r := Defined(WalkState(v, st.updates + (if changed.value then 1 else 0), st.keys + UpdateKeys(modId, services, cid)));
  }

  /** The classification block of one iteration, with the variables as they stand. */
  method ClassifyChild(modId: string, config: Config, services: seq<Service>, feeds: FeedRegistry,
                       channels: seq<Channel>, st: WalkState, v: Vars, ghost base: set<string>)
    returns (r: Outcome<WalkState>)
    requires feeds.Valid() && feeds.byId.Keys == base + st.keys
    modifies feeds, feeds.Repr, set c | c in channels
    ensures feeds.Valid() && fresh(feeds.Repr - old(feeds.Repr))
    ensures NamesOf(channels) == old(NamesOf(channels))
    ensures r == Apply(Env(modId, config, old(NamesOf(channels)), services), st, v)
    ensures r.Defined? ==> feeds.byId.Keys == base + r.value.keys
  {
    var action := Classify(v);
    if action.Undefined? {
      return Undefined;
    }
    assert st.keys + {} == st.keys;
    match action.value {
      case SkipRadio =>
        r := Defined(WalkState(v, st.updates, st.keys));
      case NoMatch =>
        r := Defined(WalkState(v, st.updates, st.keys));
      case ToStb =>
        r := StbStep(modId, config, services, channels, st, v);
      case ToUpdate(cid) =>
        r := UpdateStep(modId, config, services, feeds, channels, st, v, cid, base);
    }
  }

  /**
   * One iteration of the outer `HTSMSG_FOREACH`: the child's variables are
   * scanned, then, unless it is a `lineup-entry` without tags, it is
   * classified and `update_counter` counts a returned 1.
   */
  method ParseLineupChild(modId: string, config: Config, services: seq<Service>, feeds: FeedRegistry,
                          channels: seq<Channel>, st: WalkState, e: Field, ghost base: set<string>)
    returns (r: Outcome<WalkState>)
    requires feeds.Valid() && feeds.byId.Keys == base + st.keys
    modifies feeds, feeds.Repr, set c | c in channels
    ensures feeds.Valid() && fresh(feeds.Repr - old(feeds.Repr))
    ensures NamesOf(channels) == old(NamesOf(channels))
    ensures r == ChildStep(Env(modId, config, old(NamesOf(channels)), services), st, e)
    ensures r.Defined? ==> feeds.byId.Keys == base + r.value.keys
  {
    var scanned := ScanLineupChild(st.vars, e);
    if scanned.Undefined? {
      return Undefined;
    }
    var v := scanned.value.0;
    if !scanned.value.1 {
      return Defined(st.(vars := v));
    }
    r := ClassifyChild(modId, config, services, feeds, channels, st, v, base);
  }

  /** The loop of `xmltv_parse_lineups` over the children of the lineup list. */
  method WalkLineup(modId: string, config: Config, services: seq<Service>, feeds: FeedRegistry,
                    channels: seq<Channel>, children: seq<Field>) returns (updateCounter: Outcome<nat>)
    requires feeds.Valid()
    modifies feeds, feeds.Repr, set c | c in channels
    ensures feeds.Valid() && fresh(feeds.Repr - old(feeds.Repr))
    ensures NamesOf(channels) == old(NamesOf(channels))
    ensures var w := Walk(Env(modId, config, old(NamesOf(channels)), services), WalkState(Initial, 0, {}), children);
            && (updateCounter.Undefined? <==> w.Undefined?)
            && (updateCounter.Defined? ==>
                  updateCounter.value == w.value.updates && feeds.byId.Keys == old(feeds.byId.Keys) + w.value.keys)
  {
    ghost var env := Env(modId, config, NamesOf(channels), services);
    var st := WalkState(Initial, 0, {});
    var i := 0;
    while i < |children|
      invariant i <= |children|
      invariant feeds.Valid() && fresh(feeds.Repr - old(feeds.Repr))
      invariant NamesOf(channels) == env.names
      invariant feeds.byId.Keys == old(feeds.byId.Keys) + st.keys
      invariant Walk(env, WalkState(Initial, 0, {}), children) == Walk(env, st, children[i..])
    {
      WalkUnfold(env, st, children, i);
      var next := ParseLineupChild(modId, config, services, feeds, channels, st, children[i], old(feeds.byId.Keys));
      if next.Undefined? {
        return Undefined;
      }
      st := next.value;
      i := i + 1;
    }
    assert children[i..] == [];
    return Defined(st.updates);
  }

  /**
   * `xmltv_parse_lineups`: always returns 0. Without the
   * `tags/xmltv-lineup/tags` path nothing happens; otherwise the children
   * are walked in order with the variables carried from one to the next,
   * `update_counter` ends as the walk's count, and the feed channels the
   * walk touches are registered.
   */
  method ParseLineups(modId: string, config: Config, services: seq<Service>, feeds: FeedRegistry,
                      channels: seq<Channel>, body: Msg) returns (result: int, updateCounter: Outcome<nat>)
    requires feeds.Valid()
    modifies feeds, feeds.Repr, set c | c in channels
    ensures result == 0
    ensures feeds.Valid() && fresh(feeds.Repr - old(feeds.Repr))
    ensures NamesOf(channels) == old(NamesOf(channels))
    ensures LineupChildren(body).None? ==>
              && updateCounter == Defined(0) && feeds.byId == old(feeds.byId)
              && (forall c | c in channels :: unchanged(c))
              && (forall c | c in old(feeds.Repr) :: unchanged(c))
    ensures LineupChildren(body).Some? ==>
              var w := Walk(Env(modId, config, old(NamesOf(channels)), services),
                            WalkState(Initial, 0, {}), LineupChildren(body).value);
              && (updateCounter.Undefined? <==> w.Undefined?)
              && (updateCounter.Defined? ==>
                    updateCounter.value == w.value.updates && feeds.byId.Keys == old(feeds.byId.Keys) + w.value.keys)
  {
    var lineups := GetMap(body, "tags");
    if lineups.None? {
      return 0, Defined(0);
    }
    lineups := GetMap(lineups.value, "xmltv-lineup");
    if lineups.None? {
      return 0, Defined(0);
    }
    lineups := GetMap(lineups.value, "tags");
    if lineups.None? {
      return 0, Defined(0);
    }
    updateCounter := WalkLineup(modId, config, services, feeds, channels, lineups.value.fields);
    result := 0;
  }
}
