// The entry point of the XMLTV grabber, `_xmltv_parse`: the parsed document
// is either a `tv` listing, ingested into the guide, or an `xmltv-lineups`
// document, reconciled against the channel list.

module Xmltv {
  import opened Common
  import opened Htsmsg
  import opened TimeCodec
  import opened Guide
  import opened Ingest
  import opened Lineup

  /** What a parsed document holds, as `_xmltv_parse` decides it. */
  datatype Input =
    | NoTags            // the document has no `tags` map
    | Tv(tv: Msg)       // a `tv` element
    | Lineups(lineups: Msg)  // an `xmltv-lineups` element and no `tv` element
    | Neither           // neither of the two

  /** The dispatch of `_xmltv_parse`: `tv` is looked for first, so it wins over `xmltv-lineups`. */
  function Dispatch(data: Msg): (r: Input)
    ensures r.NoTags? <==> GetMap(data, "tags").None?
    ensures GetMap(data, "tags").Some? ==>
              var tags := GetMap(data, "tags").value;
              && (GetMap(tags, "tv").Some? ==> r == Tv(GetMap(tags, "tv").value))
              && (GetMap(tags, "tv").None? && GetMap(tags, "xmltv-lineups").Some? ==>
                    r == Lineups(GetMap(tags, "xmltv-lineups").value))
              && (r.Neither? <==> GetMap(tags, "tv").None? && GetMap(tags, "xmltv-lineups").None?)
  {
    match GetMap(data, "tags")
    case None => NoTags
    case Some(tags) =>
      if GetMap(tags, "tv").Some? then Tv(GetMap(tags, "tv").value)
      else if GetMap(tags, "xmltv-lineups").Some? then Lineups(GetMap(tags, "xmltv-lineups").value)
      else Neither
  }

  /**
   * `_xmltv_parse`: a `tv` document is ingested and its result returned; a
   * lineups document is reconciled and, since the reconciliation always
   * returns 0, reports nothing to save; any other document changes nothing.
   */
  method Parse(modId: string, config: Config, services: seq<Service>, feeds: FeedRegistry,
               store: GuideStore, stats: Stats, channels: seq<Channel>, data: Msg,
               clock: int, localTime: Tm -> int) returns (save: bool)
    requires feeds.Valid() && store.Valid() && Apart(feeds, store, stats)
    requires Dispatch(data).Tv? ==> TvDefined(Dispatch(data).tv)
    requires forall c | c in channels :: c !in store.Repr
    modifies feeds, feeds.Repr, store, store.Repr, set c | c in channels
    modifies stats
    ensures feeds.Valid() && fresh(feeds.Repr - old(feeds.Repr))
    ensures Dispatch(data).Tv? ==>
              var tags := GetMap(Dispatch(data).tv, "tags");
              && store.Valid() && Apart(feeds, store, stats)
              && (tags.Some? ==>
                    var ids := ChannelIds(tags.value.fields);
                    && feeds.byId.Keys == old(feeds.byId.Keys) + IdSet(ids)
                    && stats.channels.total == AddU16(old(stats.channels.total), |ids|))
    ensures !Dispatch(data).Tv? ==>
              && !save
              && store.broadcasts == old(store.broadcasts) && store.episodes == old(store.episodes)
              && store.seriesLinks == old(store.seriesLinks) && store.Repr == old(store.Repr)
              && store.Valid() && ViewOf(store) == old(ViewOf(store))
              && stats.channels == old(stats.channels) && stats.broadcasts == old(stats.broadcasts)
              && stats.seasons == old(stats.seasons) && stats.episodes == old(stats.episodes)
    ensures Dispatch(data).Lineups? ==>
              var children := LineupChildren(Dispatch(data).lineups);
              && NamesOf(channels) == old(NamesOf(channels))
              && (children.None? ==> feeds.byId == old(feeds.byId))
              && (children.Some? ==>
                    var w := Walk(Env(modId, config, old(NamesOf(channels)), services),
                                  WalkState(Initial, 0, {}), children.value);
                    w.Defined? ==> feeds.byId.Keys == old(feeds.byId.Keys) + w.value.keys)
    ensures Dispatch(data).NoTags? || Dispatch(data).Neither? ==>
              && feeds.byId == old(feeds.byId)
              && (forall c | c in channels :: unchanged(c))
              && (forall o | o in old(feeds.Repr) :: unchanged(o))
  {
    save := false;
    match Dispatch(data) {
      case NoTags =>
      case Neither =>
      case Tv(tv) =>
        save := ParseTv(modId, feeds, store, stats, tv, clock, localTime);
      case Lineups(lineups) =>
        var _, _ := ParseLineups(modId, config, services, feeds, channels, lineups);
    }
  }
}
