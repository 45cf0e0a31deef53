/**
 * The backend's discovery cycle (backend/services/discovery.py): the
 * per-keyword state rows and the channel catalog they feed.
 *
 * The catalog maps a YouTube channel id to its row and the states map a
 * keyword to its row, as the unique columns `youtube_channel_id` and
 * `keyword` allow one row per key. The session flushes pending rows before
 * each query, so a row added earlier in the same call is found by a later
 * lookup. What `search_channels` returns for the keyword, and the clock, are
 * parameters.
 */
module BackendDiscovery {
  import opened Wrappers
  import opened Json
  import YoutubeSearch

  datatype CatalogChannel = CatalogChannel(
    name: Json,
    url: Option<string>,
    status: string,
    lastDiscoveredKeyword: string,
    createdAt: string,
    updatedAt: string)

  /** A `discovery_state` row; None is SQL NULL. */
  datatype StateRecord = StateRecord(
    nextPageToken: Json,
    runsCount: Option<int>,
    newChannelsFound: Option<int>,
    exhausted: Option<bool>,
    lastRunAt: Option<string>,
    videoNoNewPages: Option<int>)

  /** Consecutive cycles without a new channel after which a keyword counts as exhausted. */
  const ExhaustedAfter: int := 5

  /** The row `ensure_discovery_states` adds, with the column defaults for the fields it leaves out. */
  function ZeroState(): StateRecord {
    StateRecord(JNull, Some(0), Some(0), Some(false), None, Some(0))
  }

  /** A `DiscoveryState(keyword=keyword)` before the cycle sets its fields. */
  function BlankState(): StateRecord {
    StateRecord(JNull, None, None, None, None, None)
  }

  /** `x or 0` for an integer column. */
  function OrZero(x: Option<int>): int {
    if x.Some? then x.value else 0
  }

  /** `ensure_discovery_states`: keywords in order, a zeroed row for each that has none. */
  function EnsuredStates(states: map<string, StateRecord>, keywords: seq<string>): map<string, StateRecord>
    decreases |keywords|
  {
    if keywords == [] then states
    else
      var before := EnsuredStates(states, keywords[..|keywords| - 1]);
      var kw := keywords[|keywords| - 1];
      if kw in before then before else before[kw := ZeroState()]
  }

  /** What the loop of `run_discovery_cycle` does to the catalog, with the two counters. */
  datatype Tally = Tally(channels: map<Json, CatalogChannel>, newChannels: nat, skipped: nat)

  /** The loop over the search results, in order. */
  function Absorb(channels: map<Json, CatalogChannel>, found: seq<YoutubeSearch.Channel>, keyword: string, now: string): Tally
    decreases |found|
  {
    if found == [] then Tally(channels, 0, 0)
    else
      var before := Absorb(channels, found[..|found| - 1], keyword, now);
      var c := found[|found| - 1];
      if !Truthy(c.id) then before
      else if c.id in before.channels then before.(skipped := before.skipped + 1)
      else
        Tally(before.channels[c.id := CatalogChannel(c.title, c.url, "new", keyword, now, now)],
              before.newChannels + 1, before.skipped)
  }

  /** The state fields a cycle sets, from the row found (or a blank new one). */
  function NextState(prev: Option<StateRecord>, newChannels: nat, token: Json, now: string): (s: StateRecord)
    ensures s.nextPageToken == token && s.lastRunAt == Some(now)
    ensures s.runsCount == Some(OrZero(prev.GetOr(BlankState()).runsCount) + 1)
    ensures s.newChannelsFound == Some(OrZero(prev.GetOr(BlankState()).newChannelsFound) + newChannels)
    ensures newChannels == 0 ==> s.videoNoNewPages == Some(OrZero(prev.GetOr(BlankState()).videoNoNewPages) + 1)
    ensures newChannels != 0 ==> s.videoNoNewPages == Some(0)
    ensures s.exhausted == Some(s.videoNoNewPages.value >= ExhaustedAfter)
  {
    var base := prev.GetOr(BlankState());
    var empty := if newChannels == 0 then OrZero(base.videoNoNewPages) + 1 else 0;
    StateRecord(token, Some(OrZero(base.runsCount) + 1), Some(OrZero(base.newChannelsFound) + newChannels),
                Some(empty >= ExhaustedAfter), Some(now), Some(empty))
  }

  class Catalog {
    var channels: map<Json, CatalogChannel>
    var states: map<string, StateRecord>

    constructor()
      ensures channels == map[] && states == map[]
    {
      channels := map[];
      states := map[];
    }

    /** `ensure_discovery_states`. */
    method EnsureDiscoveryStates(keywords: seq<string>)
      modifies this
      ensures channels == old(channels)
      ensures states == EnsuredStates(old(states), keywords)
    {
      for i := 0 to |keywords|
        invariant channels == old(channels)
        invariant states == EnsuredStates(old(states), keywords[..i])
      {
        assert keywords[..i + 1][..i] == keywords[..i];
        if keywords[i] !in states {
          states := states[keywords[i] := ZeroState()];
        }
      }
      assert keywords[..|keywords|] == keywords;
    }

    /**
     * `run_discovery_cycle`, given the channels and the continuation token
     * the search returned for the keyword.
     */
    method RunDiscoveryCycle(keyword: string, found: seq<YoutubeSearch.Channel>, token: Json, now: string)
      returns (newChannels: nat, skipped: nat)
      modifies this
      ensures Tally(channels, newChannels, skipped) == Absorb(old(channels), found, keyword, now)
      ensures states == old(states)[keyword := NextState(if keyword in old(states) then Some(old(states)[keyword]) else None,
                                                         newChannels, token, now)]
    {
      var state := if keyword in states then states[keyword] else BlankState();
      newChannels, skipped := 0, 0;
      for i := 0 to |found|
        invariant Tally(channels, newChannels, skipped) == Absorb(old(channels), found[..i], keyword, now)
        invariant states == old(states)
      {
        assert found[..i + 1][..i] == found[..i];
        var c := found[i];
        if !Truthy(c.id) {
          continue;
        }
        if c.id in channels {
          skipped := skipped + 1;
          continue;
        }
        channels := channels[c.id := CatalogChannel(c.title, c.url, "new", keyword, now, now)];
        newChannels := newChannels + 1;
      }
      assert found[..|found|] == found;
      var empty := if newChannels == 0 then OrZero(state.videoNoNewPages) + 1 else 0;
      state := state.(nextPageToken := token, runsCount := Some(OrZero(state.runsCount) + 1), lastRunAt := Some(now),
                      videoNoNewPages := Some(empty),
                      newChannelsFound := Some(OrZero(state.newChannelsFound) + newChannels),
                      exhausted := Some(empty >= ExhaustedAfter));
      states := states[keyword := state];
    }
  }

  // ---------------------------------------------------------------------------

  /**
   * `ensure_discovery_states` adds a zeroed row for exactly the keywords that
   * had none and leaves every existing row as it was.
   */
  lemma {:induction false} EnsuredStatesAddsOnlyMissing(states: map<string, StateRecord>, keywords: seq<string>)
    ensures EnsuredStates(states, keywords) == states + map k | k in keywords && k !in states :: ZeroState()
    decreases |keywords|
  {
    if keywords != [] {
      var init := keywords[..|keywords| - 1];
      EnsuredStatesAddsOnlyMissing(states, init);
      assert forall k :: k in keywords <==> k in init || k == keywords[|keywords| - 1] by {
        assert keywords == init + [keywords[|keywords| - 1]];
      }
    }
  }

  /** The truthy ids among the search results. */
  function TruthyIds(found: seq<YoutubeSearch.Channel>): set<Json> {
    set i | 0 <= i < |found| && Truthy(found[i].id) :: found[i].id
  }

  lemma TruthyIdsSnoc(found: seq<YoutubeSearch.Channel>)
    requires found != []
    ensures var c := found[|found| - 1];
      TruthyIds(found) == TruthyIds(found[..|found| - 1]) + (if Truthy(c.id) then {c.id} else {})
  {
    var init := found[..|found| - 1];
    var c := found[|found| - 1];
    forall x
      ensures x in TruthyIds(found) <==> x in TruthyIds(init) + (if Truthy(c.id) then {c.id} else {})
    {
      if x in TruthyIds(found) {
        var i :| 0 <= i < |found| && Truthy(found[i].id) && found[i].id == x;
        if i < |init| {
          assert init[i] == found[i];
        }
      }
      if x in TruthyIds(init) {
        var i :| 0 <= i < |init| && Truthy(init[i].id) && init[i].id == x;
        assert found[i] == init[i];
      }
    }
  }

  /**
   * The loop keeps every known row as it was and adds one row, with status
   * "new" and the keyword, for each truthy id not yet known.
   */
  lemma {:induction false} AbsorbAddsUnknownIds(channels: map<Json, CatalogChannel>, found: seq<YoutubeSearch.Channel>,
                                                keyword: string, now: string)
    ensures var r := Absorb(channels, found, keyword, now);
      && r.channels.Keys == channels.Keys + TruthyIds(found)
      && (forall k :: k in channels ==> r.channels[k] == channels[k])
      && (forall k :: k in r.channels && k !in channels ==>
            r.channels[k].status == "new" && r.channels[k].lastDiscoveredKeyword == keyword)
    decreases |found|
  {
    if found != [] {
      AbsorbAddsUnknownIds(channels, found[..|found| - 1], keyword, now);
      TruthyIdsSnoc(found);
    }
  }

  /** Each result counts once: as new, as skipped, or as having a falsy id. */
  lemma {:induction false} AbsorbCounts(channels: map<Json, CatalogChannel>, found: seq<YoutubeSearch.Channel>,
                                        keyword: string, now: string)
    ensures var r := Absorb(channels, found, keyword, now);
      r.newChannels + r.skipped + CountFalsy(found) == |found|
    decreases |found|
  {
    if found != [] {
      AbsorbCounts(channels, found[..|found| - 1], keyword, now);
    }
  }

  /** The new count is the number of rows added. */
  lemma {:induction false} AbsorbNewIsAdded(channels: map<Json, CatalogChannel>, found: seq<YoutubeSearch.Channel>,
                                            keyword: string, now: string)
    ensures var r := Absorb(channels, found, keyword, now);
      channels.Keys <= r.channels.Keys && r.newChannels == |r.channels.Keys - channels.Keys|
    decreases |found|
  {
    if found != [] {
      var init := found[..|found| - 1];
      var c := found[|found| - 1];
      AbsorbNewIsAdded(channels, init, keyword, now);
      var before := Absorb(channels, init, keyword, now);
      if Truthy(c.id) && c.id !in before.channels {
        AddedKeys(before.channels, channels.Keys, c.id, CatalogChannel(c.title, c.url, "new", keyword, now, now));
      }
    }
  }

  lemma AddedKeys(m: map<Json, CatalogChannel>, known: set<Json>, k: Json, v: CatalogChannel)
    requires known <= m.Keys && k !in m
    ensures known <= m[k := v].Keys
    ensures |m[k := v].Keys - known| == |m.Keys - known| + 1
  {
    assert m[k := v].Keys - known == (m.Keys - known) + {k};
  }

  /** How many search results have a falsy id. */
  function CountFalsy(found: seq<YoutubeSearch.Channel>): nat
    decreases |found|
  {
    if found == [] then 0
    else CountFalsy(found[..|found| - 1]) + (if Truthy(found[|found| - 1].id) then 0 else 1)
  }

  /** From any row, five empty cycles in a row exhaust a keyword. */
  lemma FiveEmptyCyclesExhaust(prev: Option<StateRecord>, tokens: seq<Json>, now: string)
    requires |tokens| == ExhaustedAfter
    requires prev.Some? ==> OrZero(prev.value.videoNoNewPages) >= 0
    ensures EmptyCycles(prev, tokens, now).exhausted == Some(true)
  {
    EmptyCyclesCount(prev, tokens, now);
  }

  /** The state after one cycle per token, none of which found a new channel. */
  function EmptyCycles(prev: Option<StateRecord>, tokens: seq<Json>, now: string): StateRecord
    requires tokens != []
    decreases |tokens|
  {
    if |tokens| == 1 then NextState(prev, 0, tokens[0], now)
    else NextState(Some(EmptyCycles(prev, tokens[..|tokens| - 1], now)), 0, tokens[|tokens| - 1], now)
  }

  /** Each empty cycle adds one to the consecutive-empty counter. */
  lemma {:induction false} EmptyCyclesCount(prev: Option<StateRecord>, tokens: seq<Json>, now: string)
    requires tokens != []
    ensures EmptyCycles(prev, tokens, now).videoNoNewPages == Some(OrZero(prev.GetOr(BlankState()).videoNoNewPages) + |tokens|)
    decreases |tokens|
  {
    if |tokens| > 1 {
      EmptyCyclesCount(prev, tokens[..|tokens| - 1], now);
    }
  }

  /**
   * A productive cycle clears the exhausted flag, and after it a keyword is
   * exhausted again only once it has had five empty cycles in a row.
   */
  lemma ProductiveCycleResets(prev: Option<StateRecord>, newChannels: nat, token: Json, tokens: seq<Json>, now: string)
    requires newChannels > 0 && tokens != []
    ensures NextState(prev, newChannels, token, now).exhausted == Some(false)
    ensures var s := EmptyCycles(Some(NextState(prev, newChannels, token, now)), tokens, now);
      s.exhausted == Some(|tokens| >= ExhaustedAfter)
  {
    EmptyCyclesCount(Some(NextState(prev, newChannels, token, now)), tokens, now);
  }

  /** A cycle's counters: one more run, this cycle's new channels added to the total. */
  lemma CycleCounters(prev: Option<StateRecord>, newChannels: nat, token: Json, now: string)
    ensures var s := NextState(prev, newChannels, token, now);
      && s.runsCount.value == OrZero(prev.GetOr(BlankState()).runsCount) + 1
      && s.newChannelsFound.value - OrZero(prev.GetOr(BlankState()).newChannelsFound) == newChannels
      && (prev.None? ==> s.runsCount == Some(1) && s.newChannelsFound == Some(newChannels))
  {
  }
}
