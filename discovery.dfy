/**
 * The scraper's discovery engine (scraper/discovery.py): the per-query loop
 * that skips falsy and repeated channel ids and stops at the per-query cap,
 * and the per-candidate step that builds a snapshot, runs the filters and
 * writes its verdict to the store.
 *
 * The connector's results for a query are a finite sequence of candidate
 * mappings; the outside inputs of a step come in as a `World`.
 */
module Discovery {
  import opened Wrappers
  import opened Json
  import opened Settings
  import opened Filters
  import opened EmailParser
  import opened TelegramDetection
  import opened LanguageDetection
  import opened Db
  import opened ChannelData

  /** Everything the step derives from a candidate before it writes. */
  datatype Assessment = Assessment(
    longForm: seq<Row>,
    emails: seq<string>,
    telegram: Option<string>,
    language: Option<string>,
    snapshot: ChannelSnapshot,
    verdict: FilterResult)

  /**
   * `candidate.get("subscriber_count", 0)` as the subscriber gate compares
   * it: a boolean counts as 0 or 1, and None skips the gate. A text, list or
   * dict cannot be compared (`CountUnorderable`) and also reads as None here.
   */
  function SubscriberCount(c: Row): (r: Option<int>)
    ensures "subscriber_count" !in c ==> r == Some(0)
    ensures r.None? <==> "subscriber_count" in c && (c["subscriber_count"] == JNull || CountUnorderable(c))
    ensures r.Some? && "subscriber_count" in c && c["subscriber_count"].JBool? ==> r.value in {0, 1}
  {
    if "subscriber_count" !in c then Some(0)
    else
      match c["subscriber_count"]
      case JNum(n) => Some(n)
      case JBool(b) => Some(if b then 1 else 0)
      case _ => None
  }

  /** The count is a text, a list or a dict: comparing it with the minimum raises TypeError. */
  predicate CountUnorderable(c: Row) {
    "subscriber_count" in c && (c["subscriber_count"].JStr? || c["subscriber_count"].JList? || c["subscriber_count"].JObject?)
  }

  /** The filters reach the subscriber gate with an unorderable count and raise: the language gate let the candidate through. */
  predicate CountRaises(filters: DiscoveryFilters, c: Row, a: Assessment) {
    CountUnorderable(c) && !LanguageDenied(filters, a.language)
  }

  /** The e-mail blobs: the description, then every long-form description. */
  function EmailBlobs(c: Row, longForm: seq<Row>): seq<Option<string>> {
    [TextField(c, "description")] + Descriptions(longForm)
  }

  /** Long-form videos, e-mails, Telegram handle, language, snapshot and verdict of a candidate. */
  function Assess(settings: DiscoverySettings, c: Row, videos: seq<Row>, tags: seq<string>, w: World): (a: Assessment)
    requires IsCandidateOrder(w.order)
    ensures a.longForm == LongForm(videos)
    ensures a.language == Detect(SignalsOf(c, tags, a.longForm, settings.enrichment.languageMode), w.order)
    ensures !settings.enrichment.telegramDetection ==> a.telegram.None?
    ensures "subscriber_count" !in c ==> a.snapshot.subscriberCount == Some(0)
    ensures "subscriber_count" in c && c["subscriber_count"] == JNull ==> a.snapshot.subscriberCount.None?
    ensures a.snapshot.longFormVideos == |a.longForm|
    ensures a.snapshot.lastLongformUpload == (if a.longForm == [] then None else OptionalText(a.longForm[0], "published_at"))
    ensures a.snapshot.languageCode == a.language && a.snapshot.emails == a.emails
    ensures a.verdict == ApplyFilters(settings.filters, a.snapshot, w.clock, w.parse)
  {
    var longForm := LongForm(videos);
    var emails := Dedupe(Reconstructed(EmailBlobs(c, longForm), w.matches));
    var telegram := if settings.enrichment.telegramDetection then DetectTelegram(TelegramBlobs(c, longForm)) else None;
    var language := Detect(SignalsOf(c, tags, longForm, settings.enrichment.languageMode), w.order);
    var snapshot := ChannelSnapshot(SubscriberCount(c), |longForm|, LastLongFormUpload(longForm), language, emails);
    Assessment(longForm, emails, telegram, language, snapshot, ApplyFilters(settings.filters, snapshot, w.clock, w.parse))
  }

  /** The channel payload both verdicts send. */
  function CandidatePayload(c: Row, a: Assessment): Row {
    map[
      "id" := GetOrNull(c, "id"),
      "title" := GetOrNull(c, "title"),
      "description" := GetOrNull(c, "description"),
      "subscriber_count" := GetOrNull(c, "subscriber_count"),
      "long_form_videos" := JNum(|a.longForm|),
      "last_longform_upload" := TextOrNull(a.snapshot.lastLongformUpload),
      "language_code" := TextOrNull(a.language),
      "emails" := EmailList(a.emails),
      "telegram" := TextOrNull(a.telegram)]
  }

  /** The payload of a rejected candidate: flagged, with the reason. */
  function RejectedPayload(c: Row, a: Assessment): Row {
    CandidatePayload(c, a)["blacklisted" := JNum(1)]["blacklist_reason" := TextOrNull(a.verdict.reason)]
  }

  function BlacklistDetails(id: Json, reason: Option<string>): Json {
    JObject([Member("channel_id", id), Member("reason", TextOrNull(reason))])
  }

  function AcceptedDetails(id: Json): Json {
    JObject([Member("channel_id", id)])
  }

  /**
   * `_handle_candidate`: the state reached and whether the step completed.
   * Reading the videos and the tags and comparing the subscriber count come
   * before any write, so when one of them raises the store is left as it was.
   */
  function Handle(t: Tables, settings: DiscoverySettings, c: Row, w: World): (Tables, bool)
    requires IsCandidateOrder(w.order)
  {
    if Videos(c).None? || Tags(c).None? then (t, false)
    else
      var videos := Videos(c).value;
      var a := Assess(settings, c, videos, Tags(c).value, w);
      if CountRaises(settings.filters, c, a) then (t, false)
      else Effects(t, c, videos, a, w.now)
  }

  /**
   * The writes of `_handle_candidate` once the candidate is assessed. The log
   * entry and the upsert commit on their own, so a video batch that raises
   * leaves them in place.
   */
  function Effects(t: Tables, c: Row, videos: seq<Row>, a: Assessment, now: string): (Tables, bool) {
    var id := GetOrNull(c, "id");
    if !a.verdict.accepted then
      var t1 := AfterRecordLog(t, "blacklist", BlacklistDetails(id, a.verdict.reason), now);
      match AfterUpsertChannel(t1, RejectedPayload(c, a), now)
      case None => (t1, false)
      case Some(t2) => (t2, true)
    else
      var t1 := AfterRecordLog(t, "accepted", AcceptedDetails(id), now);
      match AfterUpsertChannel(t1, CandidatePayload(c, a), now)
      case None => (t1, false)
      case Some(t2) =>
        if videos == [] then (t2, true)
        else
          match AfterBulkInsertVideos(t2, videos)
          case None => (t2, false)
          case Some(t3) => (t3, true)
  }

  /** A truthy list or dict id: `channel_id in found_channels` raises TypeError, as it cannot be hashed. */
  predicate IdUnhashable(id: Json) {
    Truthy(id) && (id.JList? || id.JObject?)
  }

  /** The element a hashable id is in a Python set: `True` and `1` are one element. */
  function SetKey(id: Json): (k: Json)
    ensures k == JNum(1) <==> id == JNum(1) || id == JBool(true)
    ensures k.JBool? ==> id == JBool(false)
  {
    if id == JBool(true) then JNum(1) else id
  }

  /** `if limit and len(found_channels) >= limit`. */
  predicate LimitReached(limit: Option<int>, handled: int) {
    limit.Some? && limit.value != 0 && handled >= limit.value
  }

  /** `_discover_query` over the remaining candidates, with the ids handled so far. */
  function RunQuery(t: Tables, settings: DiscoverySettings, candidates: seq<Row>, found: set<Json>, w: World): (Tables, bool)
    requires IsCandidateOrder(w.order)
    decreases |candidates|
  {
    if candidates == [] then (t, true)
    else
      var id := GetOrNull(candidates[0], "id");
      if !Truthy(id) then RunQuery(t, settings, candidates[1..], found, w)
      else if IdUnhashable(id) then (t, false)
      else if SetKey(id) in found then RunQuery(t, settings, candidates[1..], found, w)
      else
        var step := Handle(t, settings, candidates[0], w);
        if !step.1 then step
        else if LimitReached(settings.maxResultsPerQuery, |found + {SetKey(id)}|) then step
        else RunQuery(step.0, settings, candidates[1..], found + {SetKey(id)}, w)
  }

  /** The candidate is passed over: its id is falsy, or hashable and already handled. */
  predicate Skipped(c: Row, found: set<Json>) {
    var id := GetOrNull(c, "id");
    !Truthy(id) || (!IdUnhashable(id) && SetKey(id) in found)
  }

  /** The candidates the query handles, in order, up to the cap or an id that cannot be hashed. */
  function Selected(candidates: seq<Row>, found: set<Json>, limit: Option<int>): seq<Row>
    decreases |candidates|
  {
    if candidates == [] then []
    else
      var id := GetOrNull(candidates[0], "id");
      if Skipped(candidates[0], found) then Selected(candidates[1..], found, limit)
      else if IdUnhashable(id) then []
      else if LimitReached(limit, |found + {SetKey(id)}|) then [candidates[0]]
      else [candidates[0]] + Selected(candidates[1..], found + {SetKey(id)}, limit)
  }

  /** The scan reaches an id that cannot be hashed before the cap stops it. */
  predicate QueryRaises(candidates: seq<Row>, found: set<Json>, limit: Option<int>)
    decreases |candidates|
  {
    if candidates == [] then false
    else
      var id := GetOrNull(candidates[0], "id");
      if Skipped(candidates[0], found) then QueryRaises(candidates[1..], found, limit)
      else if IdUnhashable(id) then true
      else if LimitReached(limit, |found + {SetKey(id)}|) then false
      else QueryRaises(candidates[1..], found + {SetKey(id)}, limit)
  }

  /** A run of steps, failed when the scan raises after it. */
  function Raised(run: (Tables, bool), raises: bool): (Tables, bool) {
    (run.0, run.1 && !raises)
  }

  /** The given candidates handled one after the other, stopping at a failure. */
  function HandleAll(t: Tables, settings: DiscoverySettings, candidates: seq<Row>, w: World): (Tables, bool)
    requires IsCandidateOrder(w.order)
    decreases |candidates|
  {
    if candidates == [] then (t, true)
    else
      var step := Handle(t, settings, candidates[0], w);
      if !step.1 then step else HandleAll(step.0, settings, candidates[1..], w)
  }

  class DiscoveryEngine {
    const db: Database
    const settings: DiscoverySettings
    var state: map<string, Json>

    constructor(db: Database, settings: DiscoverySettings)
      ensures this.db == db && this.settings == settings
      ensures state == LoadDiscoveryState(db.Snapshot())
    {
      this.db := db;
      this.settings := settings;
      state := LoadDiscoveryState(db.Snapshot());
    }

    /** `_discover_query`. */
    method DiscoverQuery(candidates: seq<Row>, w: World) returns (ok: bool)
      requires IsCandidateOrder(w.order)
      modifies db
      ensures (db.Snapshot(), ok) == RunQuery(old(db.Snapshot()), settings, candidates, {}, w)
    {
      var limit := settings.maxResultsPerQuery;
      var found: set<Json> := {};
      for i := 0 to |candidates|
        invariant RunQuery(old(db.Snapshot()), settings, candidates, {}, w)
               == RunQuery(db.Snapshot(), settings, candidates[i..], found, w)
      {
        assert candidates[i..][1..] == candidates[i + 1..];
        var channelId := GetOrNull(candidates[i], "id");
        if !Truthy(channelId) {
          continue;
        }
        if IdUnhashable(channelId) {
          // the set lookup raises TypeError
          return false;
        }
        if SetKey(channelId) in found {
          continue;
        }
        found := found + {SetKey(channelId)};
        ok := HandleCandidate(candidates[i], w);
        if !ok || LimitReached(limit, |found|) {
          return;
        }
      }
      ok := true;
    }

    /** `_handle_candidate`. */
    method HandleCandidate(candidate: Row, w: World) returns (ok: bool)
      requires IsCandidateOrder(w.order)
      modifies db
      ensures (db.Snapshot(), ok) == Handle(old(db.Snapshot()), settings, candidate, w)
    {
      var channelId := GetOrNull(candidate, "id");
      var items := Videos(candidate);
      if items.None? {
        // iterating the videos raises before anything is written
        return false;
      }
      var tags := Tags(candidate);
      if tags.None? {
        // the tag loop of `detect_language` raises before anything is written
        return false;
      }
      var videos := items.value;
      var longForm := LongForm(videos);
      var emails := ExtractEmails(EmailBlobs(candidate, longForm), w.matches);
      var telegram: Option<string> := None;
      if settings.enrichment.telegramDetection {
        telegram := DetectTelegram(TelegramBlobs(candidate, longForm));
      }
      var language := DetectLanguage(SignalsOf(candidate, tags.value, longForm, settings.enrichment.languageMode), w.order);
      var snapshot := ChannelSnapshot(SubscriberCount(candidate), |longForm|, LastLongFormUpload(longForm), language, emails);
      var verdict := ApplyFilters(settings.filters, snapshot, w.clock, w.parse);
      var a := Assessment(longForm, emails, telegram, language, snapshot, verdict);
      assert a == Assess(settings, candidate, videos, tags.value, w);
      if CountRaises(settings.filters, candidate, a) {
        // the subscriber gate compares a text, list or dict with the minimum
        return false;
      }
      if !verdict.accepted {
        db.RecordLog("blacklist", BlacklistDetails(channelId, verdict.reason), w.now);
        ok := db.UpsertChannel(RejectedPayload(candidate, a), w.now);
        return;
      }
      db.RecordLog("accepted", AcceptedDetails(channelId), w.now);
      ok := db.UpsertChannel(CandidatePayload(candidate, a), w.now);
      if ok && videos != [] {
        ok := db.BulkInsertVideos(videos);
      }
    }

    /** `persist_state`: the state loaded at construction written back. */
    method PersistState(now: string)
      modifies db
      ensures db.Snapshot() == AfterPersistDiscoveryState(old(db.Snapshot()), state, now)
      ensures LoadDiscoveryState(db.Snapshot()) == LoadDiscoveryState(old(db.Snapshot())) + state
    {
      db.PersistDiscoveryState(state, now);
      PersistThenLoad(old(db.Snapshot()), state, now);
    }
  }

  // ---------------------------------------------------------------------------
  // The query loop.

  /**
   * The query loop handles exactly the selected candidates, in order, and
   * fails after them when the scan meets an id that cannot be hashed: a
   * skipped candidate has no effect on the store.
   */
  lemma {:induction false} RunQueryIsHandleAll(t: Tables, settings: DiscoverySettings, candidates: seq<Row>,
                                               found: set<Json>, w: World)
    requires IsCandidateOrder(w.order)
    ensures var limit := settings.maxResultsPerQuery;
      RunQuery(t, settings, candidates, found, w)
      == Raised(HandleAll(t, settings, Selected(candidates, found, limit), w), QueryRaises(candidates, found, limit))
    decreases |candidates|
  {
    if candidates != [] {
      var id := GetOrNull(candidates[0], "id");
      if Skipped(candidates[0], found) {
        RunQueryIsHandleAll(t, settings, candidates[1..], found, w);
        SkippedCandidate(t, settings, candidates, found, w);
      } else if IdUnhashable(id) {
        UnhashableCandidate(t, settings, candidates, found, w);
      } else {
        var step := Handle(t, settings, candidates[0], w);
        if !step.1 {
          HandledFailed(t, settings, candidates, found, w);
        } else if LimitReached(settings.maxResultsPerQuery, |found + {SetKey(id)}|) {
          HandledAtCap(t, settings, candidates, found, w);
        } else {
          RunQueryIsHandleAll(step.0, settings, candidates[1..], found + {SetKey(id)}, w);
          HandledBelowCap(t, settings, candidates, found, w);
        }
      }
    }
  }

  /** A candidate with a falsy or already handled id is passed over. */
  lemma SkippedCandidate(t: Tables, settings: DiscoverySettings, candidates: seq<Row>, found: set<Json>, w: World)
    requires IsCandidateOrder(w.order) && candidates != [] && Skipped(candidates[0], found)
    ensures var limit := settings.maxResultsPerQuery;
      && RunQuery(t, settings, candidates, found, w) == RunQuery(t, settings, candidates[1..], found, w)
      && Selected(candidates, found, limit) == Selected(candidates[1..], found, limit)
      && QueryRaises(candidates, found, limit) == QueryRaises(candidates[1..], found, limit)
  {
  }

  /** A candidate whose id cannot be hashed ends the query with a failure and nothing written. */
  lemma UnhashableCandidate(t: Tables, settings: DiscoverySettings, candidates: seq<Row>, found: set<Json>, w: World)
    requires IsCandidateOrder(w.order) && candidates != []
    requires !Skipped(candidates[0], found) && IdUnhashable(GetOrNull(candidates[0], "id"))
    ensures var limit := settings.maxResultsPerQuery;
      && RunQuery(t, settings, candidates, found, w) == (t, false)
      && Selected(candidates, found, limit) == []
      && QueryRaises(candidates, found, limit)
  {
  }

  /** A handled candidate whose step fails ends the query with that step. */
  lemma HandledFailed(t: Tables, settings: DiscoverySettings, candidates: seq<Row>, found: set<Json>, w: World)
    requires IsCandidateOrder(w.order) && candidates != []
    requires !Skipped(candidates[0], found) && !IdUnhashable(GetOrNull(candidates[0], "id"))
    ensures var step := Handle(t, settings, candidates[0], w);
      var limit := settings.maxResultsPerQuery;
      !step.1 ==>
        && RunQuery(t, settings, candidates, found, w) == step
        && Raised(HandleAll(t, settings, Selected(candidates, found, limit), w), QueryRaises(candidates, found, limit)) == step
  {
    var rest := SelectedHandledFirst(candidates, found, settings.maxResultsPerQuery);
    HandleAllCons(t, settings, candidates[0], rest, w);
  }

  /** A handled candidate that completes and reaches the cap ends the query with its step. */
  lemma HandledAtCap(t: Tables, settings: DiscoverySettings, candidates: seq<Row>, found: set<Json>, w: World)
    requires IsCandidateOrder(w.order) && candidates != []
    requires var id := GetOrNull(candidates[0], "id");
      !Skipped(candidates[0], found) && !IdUnhashable(id) && LimitReached(settings.maxResultsPerQuery, |found + {SetKey(id)}|)
    ensures var step := Handle(t, settings, candidates[0], w);
      var limit := settings.maxResultsPerQuery;
      step.1 ==>
        && RunQuery(t, settings, candidates, found, w) == step
        && HandleAll(t, settings, Selected(candidates, found, limit), w) == step
        && !QueryRaises(candidates, found, limit)
  {
    var rest := SelectedHandledFirst(candidates, found, settings.maxResultsPerQuery);
    HandleAllCons(t, settings, candidates[0], rest, w);
  }

  /** A handled candidate that completes below the cap: the query goes on from the step's state. */
  lemma HandledBelowCap(t: Tables, settings: DiscoverySettings, candidates: seq<Row>, found: set<Json>, w: World)
    requires IsCandidateOrder(w.order) && candidates != []
    requires var id := GetOrNull(candidates[0], "id");
      !Skipped(candidates[0], found) && !IdUnhashable(id) && !LimitReached(settings.maxResultsPerQuery, |found + {SetKey(id)}|)
    ensures var found' := found + {SetKey(GetOrNull(candidates[0], "id"))};
      var step := Handle(t, settings, candidates[0], w);
      var limit := settings.maxResultsPerQuery;
      step.1 ==>
        && RunQuery(t, settings, candidates, found, w) == RunQuery(step.0, settings, candidates[1..], found', w)
        && HandleAll(t, settings, Selected(candidates, found, limit), w)
           == HandleAll(step.0, settings, Selected(candidates[1..], found', limit), w)
        && QueryRaises(candidates, found, limit) == QueryRaises(candidates[1..], found', limit)
  {
    var rest := SelectedHandledFirst(candidates, found, settings.maxResultsPerQuery);
    HandleAllCons(t, settings, candidates[0], rest, w);
  }

  /** A candidate handled next is selected first; the rest is empty at the cap and the selection of the others below it. */
  lemma SelectedHandledFirst(candidates: seq<Row>, found: set<Json>, limit: Option<int>) returns (rest: seq<Row>)
    requires candidates != []
    requires !Skipped(candidates[0], found) && !IdUnhashable(GetOrNull(candidates[0], "id"))
    ensures Selected(candidates, found, limit) == [candidates[0]] + rest
    ensures var k := SetKey(GetOrNull(candidates[0], "id"));
      rest == if LimitReached(limit, |found + {k}|) then [] else Selected(candidates[1..], found + {k}, limit)
  {
    var k := SetKey(GetOrNull(candidates[0], "id"));
    rest := if LimitReached(limit, |found + {k}|) then [] else Selected(candidates[1..], found + {k}, limit);
    assert [candidates[0]] == [candidates[0]] + [];
  }

  /** Handling `[c] + cs` is handling `c`, then `cs` unless that failed. */
  lemma HandleAllCons(t: Tables, settings: DiscoverySettings, c: Row, cs: seq<Row>, w: World)
    requires IsCandidateOrder(w.order)
    ensures HandleAll(t, settings, [c] + cs, w)
         == (var step := Handle(t, settings, c, w); if !step.1 then step else HandleAll(step.0, settings, cs, w))
  {
    assert ([c] + cs)[0] == c && ([c] + cs)[1..] == cs;
  }

  /** A list or dict id, non-empty, ends the query at once: the set lookup raises before the candidate is handled. */
  lemma UnhashableIdEndsQuery(t: Tables, settings: DiscoverySettings, c: Row, rest: seq<Row>, found: set<Json>, w: World)
    requires IsCandidateOrder(w.order) && IdUnhashable(GetOrNull(c, "id"))
    ensures RunQuery(t, settings, [c] + rest, found, w) == (t, false)
  {
    assert ([c] + rest)[0] == c;
  }

  /** The ids `True` and `1` are one set element: once one is handled, a candidate with the other is passed over. */
  lemma TrueAndOneAreOneId(t: Tables, settings: DiscoverySettings, c: Row, rest: seq<Row>, w: World)
    requires IsCandidateOrder(w.order) && GetOrNull(c, "id") == JBool(true)
    ensures RunQuery(t, settings, [c] + rest, {JNum(1)}, w) == RunQuery(t, settings, rest, {JNum(1)}, w)
  {
    assert ([c] + rest)[0] == c && ([c] + rest)[1..] == rest;
  }

  /** Every selected candidate has a truthy hashable id not handled before, and no id is handled twice. */
  lemma {:induction false} SelectedIdsFresh(candidates: seq<Row>, found: set<Json>, limit: Option<int>)
    ensures FreshIds(Selected(candidates, found, limit), found)
    decreases |candidates|
  {
    if candidates != [] {
      var id := GetOrNull(candidates[0], "id");
      if Skipped(candidates[0], found) {
        SelectedIdsFresh(candidates[1..], found, limit);
      } else if IdUnhashable(id) {
      } else if !LimitReached(limit, |found + {SetKey(id)}|) {
        SelectedIdsFresh(candidates[1..], found + {SetKey(id)}, limit);
        var rest := Selected(candidates[1..], found + {SetKey(id)}, limit);
        var s := [candidates[0]] + rest;
        assert s == Selected(candidates, found, limit);
        forall i, j | 0 <= i < j < |s|
          ensures SetKey(GetOrNull(s[i], "id")) != SetKey(GetOrNull(s[j], "id"))
        {
          assert s[j] == rest[j - 1];
          if i > 0 {
            assert s[i] == rest[i - 1];
          }
        }
        forall i | 0 <= i < |s|
          ensures IdFresh(s[i], found)
        {
          if i > 0 {
            assert s[i] == rest[i - 1];
          }
        }
      } else {
        assert Selected(candidates, found, limit) == [candidates[0]];
      }
    }
  }

  /** A truthy id that can be hashed and is not among the handled ones. */
  predicate IdFresh(c: Row, found: set<Json>) {
    var id := GetOrNull(c, "id");
    Truthy(id) && !IdUnhashable(id) && SetKey(id) !in found
  }

  /** Fresh ids, pairwise distinct as set elements. */
  predicate FreshIds(s: seq<Row>, found: set<Json>) {
    && (forall i :: 0 <= i < |s| ==> IdFresh(s[i], found))
    && (forall i, j :: 0 <= i < j < |s| ==> SetKey(GetOrNull(s[i], "id")) != SetKey(GetOrNull(s[j], "id")))
  }

  /** Every selected candidate is one of the candidates. */
  lemma {:induction false} SelectedFromCandidates(candidates: seq<Row>, found: set<Json>, limit: Option<int>)
    ensures forall r :: r in Selected(candidates, found, limit) ==> r in candidates
    decreases |candidates|
  {
    if candidates != [] {
      var id := GetOrNull(candidates[0], "id");
      if Skipped(candidates[0], found) {
        SelectedFromCandidates(candidates[1..], found, limit);
      } else if !IdUnhashable(id) && !LimitReached(limit, |found + {SetKey(id)}|) {
        SelectedFromCandidates(candidates[1..], found + {SetKey(id)}, limit);
      }
    }
  }

  /**
   * With a positive cap L, at most L candidates are handled in all; the
   * count starts from the ids already handled.
   */
  lemma {:induction false} SelectedWithinLimit(candidates: seq<Row>, found: set<Json>, limit: Option<int>)
    requires limit.Some? && limit.value > 0 && |found| < limit.value
    ensures |found| + |Selected(candidates, found, limit)| <= limit.value
    decreases |candidates|
  {
    if candidates != [] {
      var id := GetOrNull(candidates[0], "id");
      if Skipped(candidates[0], found) {
        SelectedWithinLimit(candidates[1..], found, limit);
      } else if !IdUnhashable(id) && !LimitReached(limit, |found + {SetKey(id)}|) {
        SelectedWithinLimit(candidates[1..], found + {SetKey(id)}, limit);
      }
    }
  }

  /** A negative cap is truthy and already reached: the loop stops after the first handled candidate. */
  lemma NegativeLimitHandlesOne(candidates: seq<Row>, limit: Option<int>)
    requires limit.Some? && limit.value < 0
    ensures |Selected(candidates, {}, limit)| <= 1
  {
    if candidates != [] {
      if Skipped(candidates[0], {}) {
        NegativeLimitHandlesOne(candidates[1..], limit);
      }
    }
  }

  /** No candidate before position k has an id that cannot be hashed. */
  predicate HashableBefore(candidates: seq<Row>, k: int) {
    forall j :: 0 <= j < k && j < |candidates| ==> !IdUnhashable(GetOrNull(candidates[j], "id"))
  }

  /**
   * Without a cap (None or 0) every fresh id is handled, up to the first id
   * that cannot be hashed.
   */
  lemma {:induction false} SelectedCompleteWithoutLimit(candidates: seq<Row>, found: set<Json>, limit: Option<int>)
    requires limit.None? || limit.value == 0
    ensures forall k :: 0 <= k < |candidates| && IdFresh(candidates[k], found) && HashableBefore(candidates, k) ==>
              exists r :: r in Selected(candidates, found, limit) && SetKey(GetOrNull(r, "id")) == SetKey(GetOrNull(candidates[k], "id"))
    decreases |candidates|
  {
    if candidates != [] {
      var id := GetOrNull(candidates[0], "id");
      var s := Selected(candidates, found, limit);
      if Skipped(candidates[0], found) {
        SelectedCompleteWithoutLimit(candidates[1..], found, limit);
        forall k | 0 <= k < |candidates| && IdFresh(candidates[k], found) && HashableBefore(candidates, k)
          ensures exists r :: r in s && SetKey(GetOrNull(r, "id")) == SetKey(GetOrNull(candidates[k], "id"))
        {
          assert k != 0;
          assert candidates[1..][k - 1] == candidates[k];
          assert HashableBefore(candidates[1..], k - 1) by {
            forall j | 0 <= j < k - 1
              ensures !IdUnhashable(GetOrNull(candidates[1..][j], "id"))
            {
              assert candidates[1..][j] == candidates[j + 1];
            }
          }
        }
      } else if !IdUnhashable(id) {
        var key := SetKey(id);
        SelectedCompleteWithoutLimit(candidates[1..], found + {key}, limit);
        var rest := Selected(candidates[1..], found + {key}, limit);
        assert s == [candidates[0]] + rest;
        forall k | 0 <= k < |candidates| && IdFresh(candidates[k], found) && HashableBefore(candidates, k)
          ensures exists r :: r in s && SetKey(GetOrNull(r, "id")) == SetKey(GetOrNull(candidates[k], "id"))
        {
          if SetKey(GetOrNull(candidates[k], "id")) == key {
            assert candidates[0] in s;
          } else {
            assert k != 0;
            assert candidates[1..][k - 1] == candidates[k];
            assert HashableBefore(candidates[1..], k - 1) by {
              forall j | 0 <= j < k - 1
                ensures !IdUnhashable(GetOrNull(candidates[1..][j], "id"))
              {
                assert candidates[1..][j] == candidates[j + 1];
              }
            }
            var r :| r in rest && SetKey(GetOrNull(r, "id")) == SetKey(GetOrNull(candidates[k], "id"));
            assert r in s;
          }
        }
      }
    }
  }

  // ---------------------------------------------------------------------------
  // The candidate step.

  /** Both payloads name only existing columns, so their upserts never raise. */
  lemma PayloadsFitColumns(c: Row, a: Assessment)
    ensures ChannelPayload(CandidatePayload(c, a)).Keys <= ChannelColumns
    ensures ChannelPayload(RejectedPayload(c, a)).Keys <= ChannelColumns
  {
  }

  /**
   * A rejected candidate leaves exactly one "blacklist" log entry carrying
   * the reason, and one upsert that flags the channel with that reason; no
   * video is written.
   */
  lemma HandleRejected(t: Tables, c: Row, videos: seq<Row>, a: Assessment, now: string)
    requires !a.verdict.accepted
    ensures var id := GetOrNull(c, "id");
      var r := Effects(t, c, videos, a, now);
      && r.1
      && r.0.logs == t.logs + [LogEntry("blacklist", BlacklistDetails(id, a.verdict.reason), now)]
      && r.0 == t.(logs := r.0.logs, channels := r.0.channels)
      && (id != JNull ==>
            && ChannelHolds(r.0, id, "blacklisted", JNum(1))
            && ChannelHolds(r.0, id, "blacklist_reason", TextOrNull(a.verdict.reason)))
  {
    var id := GetOrNull(c, "id");
    var p := RejectedPayload(c, a);
    var t1 := AfterRecordLog(t, "blacklist", BlacklistDetails(id, a.verdict.reason), now);
    PayloadsFitColumns(c, a);
    assert Effects(t, c, videos, a, now) == (AfterUpsertChannel(t1, p, now).value, true);
    if id != JNull {
      RejectedPayloadHolds(c, a);
      UpsertHolds(t1, p, now, "blacklisted");
      UpsertHolds(t1, p, now, "blacklist_reason");
    }
  }

  lemma RejectedPayloadHolds(c: Row, a: Assessment)
    ensures var p := RejectedPayload(c, a);
      && "id" in p && p["id"] == GetOrNull(c, "id")
      && "blacklisted" in p && p["blacklisted"] == JNum(1)
      && "blacklist_reason" in p && p["blacklist_reason"] == TextOrNull(a.verdict.reason)
  {
  }

  /**
   * An accepted candidate leaves exactly one "accepted" log entry and one
   * upsert that clears any earlier flag; then all its videos, shorts and live
   * streams included, are written in one batch when there are any.
   */
  lemma HandleAccepted(t: Tables, c: Row, videos: seq<Row>, a: Assessment, now: string)
    requires a.verdict.accepted
    ensures var id := GetOrNull(c, "id");
      var t1 := AfterRecordLog(t, "accepted", AcceptedDetails(id), now);
      var u := AfterUpsertChannel(t1, CandidatePayload(c, a), now);
      var r := Effects(t, c, videos, a, now);
      && u.Some?
      && u.value.logs == t.logs + [LogEntry("accepted", AcceptedDetails(id), now)]
      && u.value == t.(logs := u.value.logs, channels := u.value.channels)
      && (id != JNull ==> ChannelHolds(u.value, id, "blacklisted", JNum(0)))
      && (videos == [] ==> r == (u.value, true))
      && (videos != [] ==> r == (match AfterBulkInsertVideos(u.value, videos)
                                    case None => (u.value, false)
                                    case Some(t3) => (t3, true)))
  {
    var id := GetOrNull(c, "id");
    var p := CandidatePayload(c, a);
    PayloadsFitColumns(c, a);
    if id != JNull {
      assert "id" in p && p["id"] == id && "blacklisted" !in p;
      var t1 := AfterRecordLog(t, "accepted", AcceptedDetails(id), now);
      UpsertStoresGivenColumns(t1, p, now);
    }
  }

  /** A rejection always carries its reason. */
  lemma RejectionHasReason(settings: DiscoverySettings, c: Row, videos: seq<Row>, tags: seq<string>, w: World)
    requires IsCandidateOrder(w.order)
    ensures !Assess(settings, c, videos, tags, w).verdict.accepted ==> Assess(settings, c, videos, tags, w).verdict.reason.Some?
  {
  }
  /**
   * With a subscriber count that cannot be compared, a step completes only by
   * rejecting the candidate for its language; otherwise it fails before any
   * write.
   */
  lemma UnorderableCountOnlyLanguageRejects(t: Tables, settings: DiscoverySettings, c: Row, w: World)
    requires IsCandidateOrder(w.order) && CountUnorderable(c)
    ensures var r := Handle(t, settings, c, w);
      && (!r.1 ==> r.0 == t)
      && (r.1 ==>
            && Videos(c).Some? && Tags(c).Some?
            && var a := Assess(settings, c, Videos(c).value, Tags(c).value, w);
               a.verdict == FilterResult(false, Some(LanguageReason(a.language.value))))
  {
    if Videos(c).Some? && Tags(c).Some? {
      var a := Assess(settings, c, Videos(c).value, Tags(c).value, w);
      if !CountRaises(settings.filters, c, a) {
        PayloadsFitColumns(c, a);
      }
    }
  }

  /** When the candidate's videos cannot be read, the step fails and nothing is written. */
  lemma UnreadableVideosWriteNothing(t: Tables, settings: DiscoverySettings, c: Row, w: World)
    requires IsCandidateOrder(w.order) && "videos" in c && VideosRaise(c["videos"])
    ensures Handle(t, settings, c, w) == (t, false)
  {
  }

  /**
   * When iterating the candidate's tags raises (no list, text or dict, or a
   * list item that is not a text), the step fails and nothing is written.
   */
  lemma UnreadableTagsWriteNothing(t: Tables, settings: DiscoverySettings, c: Row, w: World)
    requires IsCandidateOrder(w.order) && "tags" in c && TagsRaise(c["tags"])
    ensures Handle(t, settings, c, w) == (t, false)
  {
  }

  // ---------------------------------------------------------------------------
  // The step as written: `emails` is sent to sqlite3 as a list.

  /**
   * `_handle_candidate` as written, with sqlite3's parameter binding: both
   * payloads hold `emails` as a list, which the upsert cannot bind.
   */
  function HandleAsWritten(t: Tables, settings: DiscoverySettings, c: Row, w: World): (Tables, bool)
    requires IsCandidateOrder(w.order)
  {
    if Videos(c).None? || Tags(c).None? then (t, false)
    else
      var videos := Videos(c).value;
      var a := Assess(settings, c, videos, Tags(c).value, w);
      if CountRaises(settings.filters, c, a) then (t, false)
      else EffectsAsWritten(t, c, videos, a, w.now)
  }

  /** The writes of `_handle_candidate` as written. */
  function EffectsAsWritten(t: Tables, c: Row, videos: seq<Row>, a: Assessment, now: string): (Tables, bool) {
    var id := GetOrNull(c, "id");
    var t1 := if a.verdict.accepted then AfterRecordLog(t, "accepted", AcceptedDetails(id), now)
              else AfterRecordLog(t, "blacklist", BlacklistDetails(id, a.verdict.reason), now);
    var p := if a.verdict.accepted then CandidatePayload(c, a) else RejectedPayload(c, a);
    match AfterUpsertChannelAsWritten(t1, p, now)
    case None => (t1, false)
    case Some(t2) =>
      if !a.verdict.accepted || videos == [] then (t2, true)
      else
        match AfterBulkInsertVideosAsWritten(t2, videos)
        case None => (t2, false)
        case Some(t3) => (t3, true)
  }

  /**
   * As written, no step ever completes or stores a channel or a video: at
   * most the log entry, committed on its own, is left behind.
   */
  lemma HandleAsWrittenStoresNothing(t: Tables, settings: DiscoverySettings, c: Row, w: World)
    requires IsCandidateOrder(w.order)
    ensures var r := HandleAsWritten(t, settings, c, w);
      && !r.1
      && r.0 == t.(logs := r.0.logs)
      && t.logs <= r.0.logs && |r.0.logs| <= |t.logs| + 1
  {
    if Videos(c).Some? && Tags(c).Some? {
      var a := Assess(settings, c, Videos(c).value, Tags(c).value, w);
      EffectsAsWrittenFail(t, c, Videos(c).value, a, w.now);
    }
  }

  /** As written, both verdicts leave their log entry and then fail on the upsert. */
  lemma EffectsAsWrittenFail(t: Tables, c: Row, videos: seq<Row>, a: Assessment, now: string)
    ensures var r := EffectsAsWritten(t, c, videos, a, now);
      && !r.1
      && r.0 == t.(logs := r.0.logs)
      && |r.0.logs| == |t.logs| + 1 && r.0.logs[..|t.logs|] == t.logs
  {
    var id := GetOrNull(c, "id");
    var t1 := if a.verdict.accepted then AfterRecordLog(t, "accepted", AcceptedDetails(id), now)
              else AfterRecordLog(t, "blacklist", BlacklistDetails(id, a.verdict.reason), now);
    var p := if a.verdict.accepted then CandidatePayload(c, a) else RejectedPayload(c, a);
    ListValueUpsertRaises(t1, p, now, "emails");
  }

  /**
   * The query as written: the first candidate it handles raises, so nothing
   * past that candidate's log entry is stored and the query fails.
   */
  function RunQueryAsWritten(t: Tables, settings: DiscoverySettings, candidates: seq<Row>, found: set<Json>, w: World): (Tables, bool)
    requires IsCandidateOrder(w.order)
    decreases |candidates|
  {
    if candidates == [] then (t, true)
    else
      var id := GetOrNull(candidates[0], "id");
      if !Truthy(id) then RunQueryAsWritten(t, settings, candidates[1..], found, w)
      else if IdUnhashable(id) then (t, false)
      else if SetKey(id) in found then RunQueryAsWritten(t, settings, candidates[1..], found, w)
      else
        var step := HandleAsWritten(t, settings, candidates[0], w);
        if !step.1 then step
        else if LimitReached(settings.maxResultsPerQuery, |found + {SetKey(id)}|) then step
        else RunQueryAsWritten(step.0, settings, candidates[1..], found + {SetKey(id)}, w)
  }

  /** As written, a query completes only when it handles no candidate, and it never stores a channel or a video. */
  lemma {:induction false} QueryAsWrittenStoresNothing(t: Tables, settings: DiscoverySettings, candidates: seq<Row>,
                                                       found: set<Json>, w: World)
    requires IsCandidateOrder(w.order)
    ensures var r := RunQueryAsWritten(t, settings, candidates, found, w);
      && r.0 == t.(logs := r.0.logs)
      && t.logs <= r.0.logs && |r.0.logs| <= |t.logs| + 1
      && (r.1 <==> Selected(candidates, found, settings.maxResultsPerQuery) == [] && !QueryRaises(candidates, found, settings.maxResultsPerQuery))
    decreases |candidates|
  {
    if candidates != [] {
      var id := GetOrNull(candidates[0], "id");
      if Skipped(candidates[0], found) {
        QueryAsWrittenStoresNothing(t, settings, candidates[1..], found, w);
      } else if !IdUnhashable(id) {
        HandleAsWrittenStoresNothing(t, settings, candidates[0], w);
        var rest := SelectedHandledFirst(candidates, found, settings.maxResultsPerQuery);
      }
    }
  }
}
