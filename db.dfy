/**
 * The scraper's catalog store (scraper/db.py), as in-memory tables.
 *
 * Each table keyed by an id is a map from the id to its row; as SQLite allows
 * NULL in a TEXT primary key and never finds a conflict on it, rows whose id
 * is NULL are kept apart, in insertion order. A row maps column names to
 * values. `CURRENT_TIMESTAMP` is the `now` argument of each operation. A
 * statement that raises rolls back its `with self.conn` block: the operation
 * then reports failure and leaves every table as it was.
 */
module Db {
  import opened Wrappers
  import opened Json

  /** A row, or a payload passed in as a Python mapping: column name to value. */
  type Row = map<string, Json>

  /** A table with an id primary key. */
  datatype Table = Table(rows: map<Json, Row>, nullId: seq<Row>)

  datatype LogEntry = LogEntry(category: string, details: Json, createdAt: string)
  datatype StateRow = StateRow(value: Json, updatedAt: string)
  datatype SettingsRow = SettingsRow(payload: Json, updatedAt: string)

  /** The contents of every table. */
  datatype Tables = Tables(
    channels: Table,
    videos: Table,
    logs: seq<LogEntry>,
    discoveryState: map<string, StateRow>,
    enrichmentSettings: Option<SettingsRow>,
    meta: map<string, string>)

  /** `str(len(MIGRATIONS))`, written by the constructor. */
  const SchemaVersion := "6"

  /** A freshly created database: empty tables and the schema version. */
  function Fresh(): (t: Tables)
    ensures t.meta == map["schema_version" := SchemaVersion]
  {
    Tables(Table(map[], []), Table(map[], []), [], map[], None, map["schema_version" := SchemaVersion])
  }

  /** The value under `key`, as `d.get(key)` gives it (None for a missing key). */
  function GetOrNull(r: Row, key: string): Json {
    if key in r then r[key] else JNull
  }

  /** A dict built from its members: a later duplicate key wins. */
  function ToRow(ms: seq<Member>): (r: Row)
    ensures forall k :: k in r <==> HasKey(ms, k)
    // each stored value is the one `d.get` finds, that of the last member with the key (`LookupLast`)
    ensures forall k :: k in r ==> Lookup(ms, k) == Some(r[k])
  {
    if ms == [] then map[]
    else
      var init := ToRow(ms[..|ms| - 1]);
      assert forall k :: HasKey(ms, k) <==> HasKey(ms[..|ms| - 1], k) || ms[|ms| - 1].key == k by {
        forall k
          ensures HasKey(ms, k) <==> HasKey(ms[..|ms| - 1], k) || ms[|ms| - 1].key == k
        {
          if HasKey(ms, k) {
            var i :| 0 <= i < |ms| && ms[i].key == k;
            if i < |ms| - 1 {
              assert ms[..|ms| - 1][i].key == k;
            }
          }
          if HasKey(ms[..|ms| - 1], k) {
            var i :| 0 <= i < |ms| - 1 && ms[..|ms| - 1][i].key == k;
            assert ms[i].key == k;
          }
        }
      }
      init[ms[|ms| - 1].key := ms[|ms| - 1].value]
  }

  // ---------------------------------------------------------------------------
  // channels

  const ChannelColumns: set<string> := {
    "id", "title", "description", "subscriber_count", "long_form_videos",
    "last_longform_upload", "language_code", "telegram", "emails", "blacklisted",
    "blacklist_reason", "created_at", "updated_at", "quality_score"}

  /** A new channel row before its payload: the column defaults, NULL elsewhere. */
  function ChannelDefaults(now: string): (r: Row)
    ensures r.Keys == ChannelColumns
  {
    map[
      "id" := JNull, "title" := JNull, "description" := JNull, "subscriber_count" := JNull,
      "long_form_videos" := JNum(0), "last_longform_upload" := JNull, "language_code" := JNull,
      "telegram" := JNull, "emails" := JNull, "blacklisted" := JNum(0), "blacklist_reason" := JNull,
      "created_at" := JStr(now), "updated_at" := JStr(now), "quality_score" := JNull]
  }

  /** `payload.setdefault("emails", "[]")` and `payload.setdefault("blacklisted", 0)`. */
  function ChannelPayload(channel: Row): (p: Row)
    ensures p.Keys == channel.Keys + {"emails", "blacklisted"}
    ensures forall k :: k in channel ==> p[k] == channel[k]
    ensures "emails" !in channel ==> p["emails"] == JStr("[]")
    ensures "blacklisted" !in channel ==> p["blacklisted"] == JNum(0)
  {
    var p := if "emails" in channel then channel else channel["emails" := JStr("[]")];
    if "blacklisted" in p then p else p["blacklisted" := JNum(0)]
  }

  /** The row an upsert leaves: the insert, or the update of the given columns and `updated_at`. */
  function ChannelRowAfter(existing: Option<Row>, payload: Row, now: string): Row {
    match existing
    case None => ChannelDefaults(now) + payload
    case Some(row) => row + (payload - {"id"}) + map["updated_at" := JStr(now)]
  }

  /** `upsert_channel`; None where the statement raises (a key that is no column). */
  function AfterUpsertChannel(t: Tables, channel: Row, now: string): (r: Option<Tables>)
    ensures r.Some? <==> ChannelPayload(channel).Keys <= ChannelColumns
    ensures r.Some? ==> r.value == t.(channels := r.value.channels)
  {
    var payload := ChannelPayload(channel);
    if !(payload.Keys <= ChannelColumns) then None
    else
      var id := GetOrNull(payload, "id");
      if id == JNull then
        Some(t.(channels := t.channels.(nullId := t.channels.nullId + [ChannelRowAfter(None, payload, now)])))
      else
        var existing := if id in t.channels.rows then Some(t.channels.rows[id]) else None;
        Some(t.(channels := t.channels.(rows := t.channels.rows[id := ChannelRowAfter(existing, payload, now)])))
  }

  // ---------------------------------------------------------------------------
  // videos

  /** The named parameters of the video statement. */
  const VideoColumns: set<string> := {
    "id", "channel_id", "title", "description", "tags", "is_short", "is_live",
    "language_code", "published_at", "metadata"}

  /** `setdefault("metadata", "{}")` and `setdefault("tags", json.dumps(video.get("tags", [])))`. */
  function VideoPayload(video: Row): (p: Row)
    ensures p.Keys == video.Keys + {"metadata", "tags"}
    ensures forall k :: k in video ==> p[k] == video[k]
  {
    var p := if "metadata" in video then video else video["metadata" := JStr("{}")];
    if "tags" in p then p else p["tags" := JStr("[]")]
  }

  /** The row the statement writes: the ten parameters, other keys ignored. */
  function VideoRow(p: Row): (r: Row)
    requires VideoColumns <= p.Keys
    ensures r.Keys == VideoColumns
    ensures forall c :: c in r ==> r[c] == p[c]
  {
    map c | c in VideoColumns :: p[c]
  }

  /** `id` is a key already stored among `ids`, so the statement takes its conflict path. */
  predicate IdStored(ids: set<Json>, id: Json) {
    id != JNull && id in ids
  }

  /**
   * The foreign key on `videos.channel_id` (enforced, as the connection turns
   * foreign keys on): NULL, or the id of a stored channel.
   */
  predicate ChannelKnown(channels: map<Json, Row>, channelId: Json) {
    channelId == JNull || channelId in channels
  }

  /**
   * One video: insert, or on a conflicting id replace every column but
   * `channel_id`. An inserted row must name a stored channel (or none); the
   * conflict path leaves `channel_id` alone and so cannot break the key.
   */
  function InsertVideo(channels: map<Json, Row>, table: Table, video: Row): (r: Option<Table>)
    ensures r.Some? <==>
              && VideoColumns <= VideoPayload(video).Keys
              && (IdStored(table.rows.Keys, video["id"]) || ChannelKnown(channels, video["channel_id"]))
  {
    var p := VideoPayload(video);
    if !(VideoColumns <= p.Keys) then None
    else
      var row := VideoRow(p);
      var id := row["id"];
      if IdStored(table.rows.Keys, id) then
        Some(table.(rows := table.rows[id := table.rows[id] + (row - {"id", "channel_id"})]))
      else if !ChannelKnown(channels, row["channel_id"]) then None  // FOREIGN KEY constraint failed
      else if id == JNull then Some(table.(nullId := table.nullId + [row]))
      else Some(table.(rows := table.rows[id := row]))
  }

  /** The videos one after the other; None as soon as one raises. */
  function InsertVideos(channels: map<Json, Row>, table: Table, videos: seq<Row>): Option<Table>
    decreases |videos|
  {
    if videos == [] then Some(table)
    else
      match InsertVideos(channels, table, videos[..|videos| - 1])
      case None => None
      case Some(t1) => InsertVideo(channels, t1, videos[|videos| - 1])
  }

  // ---------------------------------------------------------------------------
  // Parameter binding, as sqlite3 does it without an adapter.

  /** A value sqlite3 binds: None, a number (a boolean as 0 or 1) or a text; a list or dict is refused. */
  predicate Bindable(v: Json) {
    v.JNull? || v.JBool? || v.JNum? || v.JStr?
  }

  /** Every value of a channel payload can be bound. */
  predicate PayloadBindable(p: Row) {
    forall k :: k in p ==> Bindable(p[k])
  }

  /** Every named parameter of the video statement that the video supplies can be bound. */
  predicate VideoBindable(video: Row) {
    forall c :: c in VideoColumns && c in VideoPayload(video) ==> Bindable(VideoPayload(video)[c])
  }

  /**
   * `upsert_channel` as written, binding included: a list or dict value makes
   * `execute` raise, and `with self.conn` rolls the statement back.
   */
  function AfterUpsertChannelAsWritten(t: Tables, channel: Row, now: string): (r: Option<Tables>)
    ensures r.Some? <==> PayloadBindable(ChannelPayload(channel)) && AfterUpsertChannel(t, channel, now).Some?
    ensures r.Some? ==> r == AfterUpsertChannel(t, channel, now)
  {
    if PayloadBindable(ChannelPayload(channel)) then AfterUpsertChannel(t, channel, now) else None
  }

  /** A list or dict anywhere in the payload makes the upsert raise, whatever the columns. */
  lemma ListValueUpsertRaises(t: Tables, channel: Row, now: string, key: string)
    requires key in channel && (channel[key].JList? || channel[key].JObject?)
    ensures AfterUpsertChannelAsWritten(t, channel, now).None?
  {
    assert !Bindable(ChannelPayload(channel)[key]);
  }

  /**
   * `bulk_insert_videos` as written, binding included: one video that cannot
   * be bound rolls the whole batch back.
   */
  function AfterBulkInsertVideosAsWritten(t: Tables, videos: seq<Row>): (r: Option<Tables>)
    ensures r.Some? <==> (forall i :: 0 <= i < |videos| ==> VideoBindable(videos[i])) && AfterBulkInsertVideos(t, videos).Some?
    ensures r.Some? ==> r == AfterBulkInsertVideos(t, videos)
  {
    if forall i :: 0 <= i < |videos| ==> VideoBindable(videos[i]) then AfterBulkInsertVideos(t, videos) else None
  }

  /** `bulk_insert_videos`: all the videos in one transaction, or nothing. */
  function AfterBulkInsertVideos(t: Tables, videos: seq<Row>): Option<Tables> {
    match InsertVideos(t.channels.rows, t.videos, videos)
    case None => None
    case Some(vt) => Some(t.(videos := vt))
  }

  // ---------------------------------------------------------------------------
  // logs, discovery state, enrichment settings, meta

  function AfterRecordLog(t: Tables, category: string, details: Json, now: string): (r: Tables)
    ensures |r.logs| == |t.logs| + 1 && r.logs[..|t.logs|] == t.logs
    ensures r.logs[|t.logs|] == LogEntry(category, details, now)
    ensures r == t.(logs := r.logs)
  {
    t.(logs := t.logs + [LogEntry(category, details, now)])
  }

  /** `persist_discovery_state`: every given key upserted, other keys kept. */
  function AfterPersistDiscoveryState(t: Tables, state: map<string, Json>, now: string): Tables {
    t.(discoveryState := t.discoveryState + map k | k in state :: StateRow(state[k], now))
  }

  /** `load_discovery_state`. */
  function LoadDiscoveryState(t: Tables): (r: map<string, Json>)
    ensures r.Keys == t.discoveryState.Keys
  {
    map k | k in t.discoveryState :: t.discoveryState[k].value
  }

  function AfterSaveEnrichmentSettings(t: Tables, payload: Json, now: string): Tables {
    t.(enrichmentSettings := Some(SettingsRow(payload, now)))
  }

  /** `load_enrichment_settings`: `{}` while no row id 1 exists. */
  function LoadEnrichmentSettings(t: Tables): Json {
    match t.enrichmentSettings
    case None => JObject([])
    case Some(row) => row.payload
  }

  function AfterSetMeta(t: Tables, key: string, value: string): Tables {
    t.(meta := t.meta[key := value])
  }

  /** `get_meta`. */
  function GetMeta(t: Tables, key: string, default: Option<string>): (r: Option<string>)
    ensures key !in t.meta ==> r == default
  {
    if key in t.meta then Some(t.meta[key]) else default
  }

  // ---------------------------------------------------------------------------
  // import_bundle

  /**
   * What `for x in value` runs over: a list's items, a dict's keys, a
   * string's characters; None where the value is not iterable.
   */
  function Elements(j: Json): Option<seq<Json>> {
    match j
    case JList(items) => Some(items)
    case JObject(ms) => Some(seq(|ms|, i requires 0 <= i < |ms| => JStr(ms[i].key)))
    case JStr(s) => Some(seq(|s|, i requires 0 <= i < |s| => JStr([s[i]])))
    case _ => None
  }

  /** `payload.get(key, [])` iterated; absent gives no elements. */
  function BundleEntries(ms: seq<Member>, key: string): Option<seq<Json>> {
    match Lookup(ms, key)
    case None => Some([])
    case Some(v) => Elements(v)
  }

  /** The channels of a bundle, one committed upsert each; stops at the first that raises. */
  function ImportChannels(t: Tables, items: seq<Json>, now: string): (Tables, bool)
    decreases |items|
  {
    if items == [] then (t, true)
    else if !items[0].JObject? then (t, false)
    else
      match AfterUpsertChannel(t, ToRow(items[0].members), now)
      case None => (t, false)
      case Some(t1) => ImportChannels(t1, items[1..], now)
  }

  /** The videos of a bundle, one committed single-video bulk insert each. */
  function ImportVideos(t: Tables, items: seq<Json>): (Tables, bool)
    decreases |items|
  {
    if items == [] then (t, true)
    else if !items[0].JObject? then (t, false)
    else
      match AfterBulkInsertVideos(t, [ToRow(items[0].members)])
      case None => (t, false)
      case Some(t1) => ImportVideos(t1, items[1..])
  }

  /** `import_bundle`: the state reached and whether every step went through. */
  function AfterImportBundle(t: Tables, bundle: Json, now: string): (Tables, bool) {
    if !bundle.JObject? then (t, false)
    else
      var ms := bundle.members;
      match BundleEntries(ms, "channels")
      case None => (t, false)
      case Some(channels) =>
        var (t1, ok1) := ImportChannels(t, channels, now);
        if !ok1 then (t1, false)
        else
          match BundleEntries(ms, "videos")
          case None => (t1, false)
          case Some(videos) =>
            var (t2, ok2) := ImportVideos(t1, videos);
            if !ok2 then (t2, false)
            else
              var state := Lookup(ms, "discovery_state").GetOr(JNull);
              if !Truthy(state) then (t2, true)
              else if !state.JObject? then (t2, false)
              else (AfterPersistDiscoveryState(t2, ToRow(state.members), now), true)
  }

  // ---------------------------------------------------------------------------
  // The store.

  class Database {
    var channels: Table
    var videos: Table
    var logs: seq<LogEntry>
    var discoveryState: map<string, StateRow>
    var enrichmentSettings: Option<SettingsRow>
    var meta: map<string, string>

    function Snapshot(): Tables
      reads this
    {
      Tables(channels, videos, logs, discoveryState, enrichmentSettings, meta)
    }

    /** A new database file: the migrations create empty tables and record the schema version. */
    constructor()
      ensures Snapshot() == Fresh()
    {
      channels := Table(map[], []);
      videos := Table(map[], []);
      logs := [];
      discoveryState := map[];
      enrichmentSettings := None;
      meta := map[];
      new;
      SetMeta("schema_version", SchemaVersion);
    }

    method SetMeta(key: string, value: string)
      modifies this
      ensures Snapshot() == AfterSetMeta(old(Snapshot()), key, value)
    {
      meta := meta[key := value];
    }

    method UpsertChannel(channel: Row, now: string) returns (ok: bool)
      modifies this
      ensures ok <==> AfterUpsertChannel(old(Snapshot()), channel, now).Some?
      ensures Snapshot() == AfterUpsertChannel(old(Snapshot()), channel, now).GetOr(old(Snapshot()))
    {
      var payload := ChannelPayload(channel);
      if !(payload.Keys <= ChannelColumns) {
        return false;
      }
      var id := GetOrNull(payload, "id");
      if id == JNull {
        channels := channels.(nullId := channels.nullId + [ChannelRowAfter(None, payload, now)]);
      } else if id in channels.rows {
        channels := channels.(rows := channels.rows[id := ChannelRowAfter(Some(channels.rows[id]), payload, now)]);
      } else {
        channels := channels.(rows := channels.rows[id := ChannelRowAfter(None, payload, now)]);
      }
      ok := true;
    }

    method BulkInsertVideos(batch: seq<Row>) returns (ok: bool)
      modifies this
      ensures ok <==> AfterBulkInsertVideos(old(Snapshot()), batch).Some?
      ensures Snapshot() == AfterBulkInsertVideos(old(Snapshot()), batch).GetOr(old(Snapshot()))
    {
      var table := videos;
      for i := 0 to |batch|
        invariant InsertVideos(channels.rows, videos, batch[..i]) == Some(table)
      {
        assert batch[..i + 1][..i] == batch[..i];
        var next := InsertVideo(channels.rows, table, batch[i]);
        if next.None? {
          // the statement raises and the transaction rolls back
          InsertVideosFails(channels.rows, videos, batch, i + 1);
          return false;
        }
        table := next.value;
      }
      assert batch[..|batch|] == batch;
      videos := table;
      ok := true;
    }

    method RecordLog(category: string, details: Json, now: string)
      modifies this
      ensures Snapshot() == AfterRecordLog(old(Snapshot()), category, details, now)
    {
      logs := logs + [LogEntry(category, details, now)];
    }

    method PersistDiscoveryState(state: map<string, Json>, now: string)
      modifies this
      ensures Snapshot() == AfterPersistDiscoveryState(old(Snapshot()), state, now)
    {
      var rest := state.Keys;
      while rest != {}
        invariant rest <= state.Keys
        invariant discoveryState == old(discoveryState) + map k | k in state && k !in rest :: StateRow(state[k], now)
        invariant Snapshot() == old(Snapshot()).(discoveryState := discoveryState)
        decreases |rest|
      {
        var key :| key in rest;
        PersistOneKey(old(discoveryState), state, rest, key, now);
        discoveryState := discoveryState[key := StateRow(state[key], now)];
        rest := rest - {key};
      }
      assert (map k | k in state && k !in rest :: StateRow(state[k], now)) == map k | k in state :: StateRow(state[k], now);
    }

    method SaveEnrichmentSettings(payload: Json, now: string)
      modifies this
      ensures Snapshot() == AfterSaveEnrichmentSettings(old(Snapshot()), payload, now)
    {
      enrichmentSettings := Some(SettingsRow(payload, now));
    }

    method ImportBundle(bundle: Json, now: string) returns (ok: bool)
      modifies this
      ensures (Snapshot(), ok) == AfterImportBundle(old(Snapshot()), bundle, now)
    {
      if !bundle.JObject? {
        return false;
      }
      var ms := bundle.members;
      var channelItems := BundleEntries(ms, "channels");
      if channelItems.None? {
        return false;
      }
      ok := ImportChannelItems(channelItems.value, now);
      if !ok {
        return;
      }
      var videoItems := BundleEntries(ms, "videos");
      if videoItems.None? {
        return false;
      }
      ok := ImportVideoItems(videoItems.value);
      if !ok {
        return;
      }
      var state := Lookup(ms, "discovery_state").GetOr(JNull);
      if Truthy(state) {
        if !state.JObject? {
          return false;
        }
        PersistDiscoveryState(ToRow(state.members), now);
      }
    }

    /** `for channel in ...: self.upsert_channel(channel)`. */
    method ImportChannelItems(items: seq<Json>, now: string) returns (ok: bool)
      modifies this
      ensures (Snapshot(), ok) == ImportChannels(old(Snapshot()), items, now)
    {
      for i := 0 to |items|
        invariant ImportChannels(old(Snapshot()), items, now) == ImportChannels(Snapshot(), items[i..], now)
      {
        assert items[i..][1..] == items[i + 1..];
        if !items[i].JObject? {
          return false;
        }
        var done := UpsertChannel(ToRow(items[i].members), now);
        if !done {
          return false;
        }
      }
      ok := true;
    }

    /** `for video in ...: self.bulk_insert_videos([video])`. */
    method ImportVideoItems(items: seq<Json>) returns (ok: bool)
      modifies this
      ensures (Snapshot(), ok) == ImportVideos(old(Snapshot()), items)
    {
      for i := 0 to |items|
        invariant ImportVideos(old(Snapshot()), items) == ImportVideos(Snapshot(), items[i..])
      {
        assert items[i..][1..] == items[i + 1..];
        if !items[i].JObject? {
          return false;
        }
        var done := BulkInsertVideos([ToRow(items[i].members)]);
        if !done {
          return false;
        }
      }
      ok := true;
    }
  }

  /** Once a prefix of the batch raises, the whole batch does. */
  lemma {:induction false} InsertVideosFails(channels: map<Json, Row>, table: Table, videos: seq<Row>, n: nat)
    requires n <= |videos| && InsertVideos(channels, table, videos[..n]).None?
    ensures InsertVideos(channels, table, videos).None?
    decreases |videos| - n
  {
    if n < |videos| {
      assert videos[..n + 1][..n] == videos[..n];
      InsertVideosFails(channels, table, videos, n + 1);
    } else {
      assert videos[..n] == videos;
    }
  }

  // ---------------------------------------------------------------------------
  // Properties of the store.

  /** The channel row stored under `id` has `value` in column `col`. */
  predicate ChannelHolds(t: Tables, id: Json, col: string, value: Json) {
    id in t.channels.rows && col in t.channels.rows[id] && t.channels.rows[id][col] == value
  }

  /** Every keyed row holds its own key in its `id` column. */
  predicate KeyedById(table: Table) {
    forall k :: k in table.rows ==> "id" in table.rows[k] && table.rows[k]["id"] == k
  }

  /** An upsert keeps every channel row under its own id. */
  lemma UpsertKeepsIds(t: Tables, channel: Row, now: string)
    requires KeyedById(t.channels)
    ensures AfterUpsertChannel(t, channel, now).Some? ==> KeyedById(AfterUpsertChannel(t, channel, now).value.channels)
  {
  }

  /**
   * An upsert of an unknown id inserts one row: the payload's columns, then
   * `emails` "[]" and `blacklisted` 0 when not given, then the column defaults.
   */
  lemma UpsertInsertsNewRow(t: Tables, channel: Row, now: string)
    requires ChannelPayload(channel).Keys <= ChannelColumns
    requires "id" in channel && channel["id"] != JNull && channel["id"] !in t.channels.rows
    ensures var r := AfterUpsertChannel(t, channel, now).value.channels;
      var row := r.rows[channel["id"]];
      && r.rows == t.channels.rows[channel["id"] := row]
      && r.nullId == t.channels.nullId
      && row.Keys == ChannelColumns
      && (forall c :: c in channel ==> row[c] == channel[c])
      && ("emails" !in channel ==> row["emails"] == JStr("[]"))
      && ("blacklisted" !in channel ==> row["blacklisted"] == JNum(0))
      && ("created_at" !in channel ==> row["created_at"] == JStr(now))
      && (forall c :: c in ChannelColumns && c !in ChannelPayload(channel) ==> row[c] == ChannelDefaults(now)[c])
  {
  }

  /**
   * An upsert of a known id updates that row only: the given columns take
   * the new values, `updated_at` becomes `now`, the id and the columns not
   * given are kept, and no other row changes.
   */
  lemma UpsertUpdatesExistingRow(t: Tables, channel: Row, now: string)
    requires ChannelPayload(channel).Keys <= ChannelColumns
    requires "id" in channel && channel["id"] != JNull && channel["id"] in t.channels.rows
    ensures var id := channel["id"];
      var r := AfterUpsertChannel(t, channel, now).value.channels;
      var before := t.channels.rows[id];
      var row := r.rows[id];
      && r.rows == t.channels.rows[id := row]
      && r.nullId == t.channels.nullId
      && row.Keys == before.Keys + (ChannelPayload(channel).Keys - {"id"}) + {"updated_at"}
      && row["updated_at"] == JStr(now)
      && ("id" in before ==> row["id"] == before["id"])
      && (forall c :: c in channel && c != "id" && c != "updated_at" ==> row[c] == channel[c])
      && (forall c :: c in before && c !in ChannelPayload(channel) && c != "updated_at" ==> row[c] == before[c])
  {
    var id := channel["id"];
    var p := ChannelPayload(channel);
    assert AfterUpsertChannel(t, channel, now).value.channels.rows[id]
      == t.channels.rows[id] + (p - {"id"}) + map["updated_at" := JStr(now)];
    UpdateMerge(t.channels.rows[id], p, now);
  }

  /** The row an update leaves: the given columns but `id` replaced, `updated_at` set, the rest kept. */
  lemma UpdateMerge(before: Row, p: Row, now: string)
    ensures var row := before + (p - {"id"}) + map["updated_at" := JStr(now)];
      && row.Keys == before.Keys + (p.Keys - {"id"}) + {"updated_at"}
      && row["updated_at"] == JStr(now)
      && ("id" in before ==> row["id"] == before["id"])
      && (forall c :: c in p && c != "id" && c != "updated_at" ==> row[c] == p[c])
      && (forall c :: c in before && c !in p && c != "updated_at" ==> row[c] == before[c])
  {
  }

  /**
   * A payload without `blacklisted` clears the flag of the row it writes:
   * the default it receives is sent with the update as well.
   */
  lemma UpsertWithoutFlagClearsBlacklist(t: Tables, channel: Row, now: string)
    requires ChannelPayload(channel).Keys <= ChannelColumns
    requires "id" in channel && channel["id"] != JNull && "blacklisted" !in channel
    ensures AfterUpsertChannel(t, channel, now).value.channels.rows[channel["id"]]["blacklisted"] == JNum(0)
  {
  }

  /** Whether the id is new or known, the row then holds every column the payload gives but `id` and `updated_at`. */
  lemma UpsertStoresGivenColumns(t: Tables, channel: Row, now: string)
    requires ChannelPayload(channel).Keys <= ChannelColumns
    requires "id" in channel && channel["id"] != JNull
    ensures var row := AfterUpsertChannel(t, channel, now).value.channels.rows[channel["id"]];
      forall c :: c in ChannelPayload(channel) && c != "id" && c != "updated_at" ==> c in row && row[c] == ChannelPayload(channel)[c]
  {
    var id := channel["id"];
    var p := ChannelPayload(channel);
    if id in t.channels.rows {
      assert AfterUpsertChannel(t, channel, now).value.channels.rows[id]
        == t.channels.rows[id] + (p - {"id"}) + map["updated_at" := JStr(now)];
    } else {
      assert AfterUpsertChannel(t, channel, now).value.channels.rows[id] == ChannelDefaults(now) + p;
    }
  }

  /** A column given to an upsert, other than `id` and `updated_at`, holds the given value afterwards. */
  lemma UpsertHolds(t: Tables, channel: Row, now: string, col: string)
    requires ChannelPayload(channel).Keys <= ChannelColumns
    requires "id" in channel && channel["id"] != JNull
    requires col in channel && col != "id" && col != "updated_at"
    ensures ChannelHolds(AfterUpsertChannel(t, channel, now).value, channel["id"], col, channel[col])
  {
    UpsertStoresGivenColumns(t, channel, now);
  }

  /** Sending the same payload again changes only `updated_at` of that row. */
  lemma UpsertRepeatTouchesOnlyUpdatedAt(t: Tables, channel: Row, now1: string, now2: string)
    requires ChannelPayload(channel).Keys <= ChannelColumns
    requires "id" in channel && channel["id"] != JNull
    ensures var t1 := AfterUpsertChannel(t, channel, now1).value;
      var t2 := AfterUpsertChannel(t1, channel, now2).value;
      t2.channels.rows == t1.channels.rows[channel["id"] := t1.channels.rows[channel["id"]]["updated_at" := JStr(now2)]]
  {
    var t1 := AfterUpsertChannel(t, channel, now1).value;
    UpsertedRowHoldsPayload(t, channel, now1);
    RepeatedUpdate(t1.channels.rows[channel["id"]], ChannelPayload(channel), now2);
  }

  /** After an upsert, the row holds every payload value but `id` and `updated_at`. */
  lemma UpsertedRowHoldsPayload(t: Tables, channel: Row, now: string)
    requires ChannelPayload(channel).Keys <= ChannelColumns
    requires "id" in channel && channel["id"] != JNull
    ensures var row := AfterUpsertChannel(t, channel, now).value.channels.rows[channel["id"]];
      forall c :: c in ChannelPayload(channel) && c != "id" && c != "updated_at" ==> c in row && row[c] == ChannelPayload(channel)[c]
  {
    var id := channel["id"];
    var p := ChannelPayload(channel);
    var row := AfterUpsertChannel(t, channel, now).value.channels.rows[id];
    if id in t.channels.rows {
      assert row == t.channels.rows[id] + (p - {"id"}) + map["updated_at" := JStr(now)];
    } else {
      assert row == ChannelDefaults(now) + p;
    }
  }

  /** Writing values a row already holds, and `updated_at`, changes `updated_at` only. */
  lemma RepeatedUpdate(row: Row, p: Row, now: string)
    requires forall c :: c in p && c != "id" && c != "updated_at" ==> c in row && row[c] == p[c]
    ensures row + (p - {"id"}) + map["updated_at" := JStr(now)] == row["updated_at" := JStr(now)]
  {
  }

  /** A NULL or missing id never conflicts: every such upsert adds a row. */
  lemma UpsertWithoutIdAppends(t: Tables, channel: Row, now: string)
    requires ChannelPayload(channel).Keys <= ChannelColumns
    requires GetOrNull(channel, "id") == JNull
    ensures var r := AfterUpsertChannel(t, channel, now).value.channels;
      r.rows == t.channels.rows && r.nullId == t.channels.nullId + [ChannelDefaults(now) + ChannelPayload(channel)]
  {
  }

  /** The ids the videos of a batch store, once they have all gone in. */
  function BatchIds(videos: seq<Row>): set<Json>
    decreases |videos|
  {
    if videos == [] then {}
    else
      var id := GetOrNull(videos[|videos| - 1], "id");
      BatchIds(videos[..|videos| - 1]) + (if id == JNull then {} else {id})
  }

  /**
   * `video` raises when it comes after `earlier` in a batch: a named
   * parameter is missing, or its row is new (its id is NULL or stored
   * neither before the batch nor by an earlier video) and names a channel
   * that is not stored.
   */
  predicate VideoRaises(channels: map<Json, Row>, table: Table, earlier: seq<Row>, video: Row) {
    || !(VideoColumns <= VideoPayload(video).Keys)
    || (!IdStored(table.rows.Keys + BatchIds(earlier), video["id"]) && !ChannelKnown(channels, video["channel_id"]))
  }

  /** A batch fails exactly when one of its videos raises after the ones before it. */
  lemma BulkFailsIffVideoRaises(channels: map<Json, Row>, table: Table, videos: seq<Row>)
    ensures InsertVideos(channels, table, videos).None?
      <==> exists i :: 0 <= i < |videos| && VideoRaises(channels, table, videos[..i], videos[i])
  {
    var raises := (earlier, video) => VideoRaises(channels, table, earlier, video);
    BulkFailsIffSomeRaises(channels, table, videos);
    SomeRaisesAt(raises, videos);
  }

  /** Some video of the batch raises after the ones before it. */
  predicate SomeRaises(raises: (seq<Row>, Row) -> bool, videos: seq<Row>)
    decreases |videos|
  {
    && videos != []
    && var n := |videos| - 1;
       SomeRaises(raises, videos[..n]) || raises(videos[..n], videos[n])
  }

  lemma {:induction false} BulkFailsIffSomeRaises(channels: map<Json, Row>, table: Table, videos: seq<Row>)
    ensures InsertVideos(channels, table, videos).None?
      <==> SomeRaises((earlier, video) => VideoRaises(channels, table, earlier, video), videos)
    decreases |videos|
  {
    if videos != [] {
      var n := |videos| - 1;
      var init := videos[..n];
      BulkFailsIffSomeRaises(channels, table, init);
      if InsertVideos(channels, table, init).Some? {
        var t1 := InsertVideos(channels, table, init).value;
        InsertVideosKeys(channels, table, init);
        NextVideoRaises(channels, table, t1, init, videos[n]);
      }
    }
  }

  lemma {:induction false} SomeRaisesAt(raises: (seq<Row>, Row) -> bool, videos: seq<Row>)
    ensures SomeRaises(raises, videos) <==> exists i :: 0 <= i < |videos| && raises(videos[..i], videos[i])
    decreases |videos|
  {
    if videos != [] {
      var n := |videos| - 1;
      var init := videos[..n];
      SomeRaisesAt(raises, init);
      if SomeRaises(raises, init) {
        var i :| 0 <= i < n && raises(init[..i], init[i]);
        assert videos[..i] == init[..i] && videos[i] == init[i];
      }
      if exists i :: 0 <= i < n && raises(videos[..i], videos[i]) {
        var i :| 0 <= i < n && raises(videos[..i], videos[i]);
        assert videos[..i] == init[..i] && videos[i] == init[i];
      }
    }
  }

  /** After the earlier videos went in, the next one fails exactly when it raises. */
  lemma NextVideoRaises(channels: map<Json, Row>, table: Table, t1: Table, earlier: seq<Row>, video: Row)
    requires t1.rows.Keys == table.rows.Keys + BatchIds(earlier)
    ensures InsertVideo(channels, t1, video).None? <==> VideoRaises(channels, table, earlier, video)
  {
  }

  /** A batch that goes in stores its videos' ids beside the ones already there. */
  lemma {:induction false} InsertVideosKeys(channels: map<Json, Row>, table: Table, videos: seq<Row>)
    ensures InsertVideos(channels, table, videos).Some? ==>
              InsertVideos(channels, table, videos).value.rows.Keys == table.rows.Keys + BatchIds(videos)
    decreases |videos|
  {
    if videos != [] && InsertVideos(channels, table, videos).Some? {
      var n := |videos| - 1;
      InsertVideosKeys(channels, table, videos[..n]);
    }
  }

  /**
   * A video whose id is already stored replaces every column of that row
   * except `channel_id`, which stays with the channel that first stored it.
   */
  lemma VideoConflictKeepsChannel(channels: map<Json, Row>, table: Table, video: Row)
    requires VideoColumns <= VideoPayload(video).Keys
    requires video["id"] != JNull && video["id"] in table.rows
    requires VideoColumns <= table.rows[video["id"]].Keys
    ensures var row := InsertVideo(channels, table, video).value.rows[video["id"]];
      var before := table.rows[video["id"]];
      && row.Keys == before.Keys
      && row["channel_id"] == before["channel_id"]
      && (forall c :: c in VideoColumns && c != "id" && c != "channel_id" ==> row[c] == VideoPayload(video)[c])
      && (forall c :: c in before && c !in VideoColumns ==> row[c] == before[c])
  {
    var id := video["id"];
    var row := VideoRow(VideoPayload(video));
    assert row["id"] == id;
    assert InsertVideo(channels, table, video).value.rows[id] == table.rows[id] + (row - {"id", "channel_id"});
    ConflictMerge(table.rows[id], row);
  }

  /** The merge of a conflicting video row into the stored one. */
  lemma ConflictMerge(before: Row, row: Row)
    requires row.Keys == VideoColumns && VideoColumns <= before.Keys
    ensures var after := before + (row - {"id", "channel_id"});
      && after.Keys == before.Keys
      && after["channel_id"] == before["channel_id"]
      && (forall c :: c in VideoColumns && c != "id" && c != "channel_id" ==> after[c] == row[c])
      && (forall c :: c in before && c !in VideoColumns ==> after[c] == before[c])
  {
  }

  /** Every stored video row holds its own key in its `id` column, whatever the batch. */
  lemma {:induction false} InsertVideosKeepIds(channels: map<Json, Row>, table: Table, videos: seq<Row>)
    requires KeyedById(table)
    ensures InsertVideos(channels, table, videos).Some? ==> KeyedById(InsertVideos(channels, table, videos).value)
    decreases |videos|
  {
    if videos != [] {
      InsertVideosKeepIds(channels, table, videos[..|videos| - 1]);
    }
  }

  /** Upserting one more pending key of the state. */
  lemma PersistOneKey(base: map<string, StateRow>, state: map<string, Json>, rest: set<string>, key: string, now: string)
    requires key in rest && rest <= state.Keys
    ensures (base + map k | k in state && k !in rest :: StateRow(state[k], now))[key := StateRow(state[key], now)]
         == base + map k | k in state && k !in rest - {key} :: StateRow(state[k], now)
  {
    var before := map k | k in state && k !in rest :: StateRow(state[k], now);
    var after := map k | k in state && k !in rest - {key} :: StateRow(state[k], now);
    assert after == before[key := StateRow(state[key], now)];
  }

  /** `load_discovery_state` after `persist_discovery_state`: the given keys, the others as before. */
  lemma PersistThenLoad(t: Tables, state: map<string, Json>, now: string)
    ensures LoadDiscoveryState(AfterPersistDiscoveryState(t, state, now)) == LoadDiscoveryState(t) + state
  {
  }

  /** Persisting what was loaded leaves every stored value as it was. */
  lemma PersistLoadedIsNoChange(t: Tables, now: string)
    ensures LoadDiscoveryState(AfterPersistDiscoveryState(t, LoadDiscoveryState(t), now)) == LoadDiscoveryState(t)
  {
    PersistThenLoad(t, LoadDiscoveryState(t), now);
  }

  /** The settings read back are the last ones saved, and `{}` before any save. */
  lemma EnrichmentSettingsRoundTrip(t: Tables, payload: Json, now: string)
    ensures LoadEnrichmentSettings(AfterSaveEnrichmentSettings(t, payload, now)) == payload
    ensures LoadEnrichmentSettings(Fresh()) == JObject([])
  {
  }

  /** `get_meta` returns the last value set for the key, and other keys are unaffected. */
  lemma MetaRoundTrip(t: Tables, key: string, value: string, other: string, default: Option<string>)
    ensures GetMeta(AfterSetMeta(t, key, value), key, default) == Some(value)
    ensures other != key ==> GetMeta(AfterSetMeta(t, key, value), other, default) == GetMeta(t, other, default)
    ensures GetMeta(Fresh(), "schema_version", default) == Some(SchemaVersion)
  {
  }

  /**
   * Importing channels in two parts is importing them at once: the first part
   * stays committed when the second fails, and a failure in the first part
   * stops the import before the second.
   */
  lemma {:induction false} ImportChannelsAppend(t: Tables, a: seq<Json>, b: seq<Json>, now: string)
    ensures ImportChannels(t, a + b, now)
      == (var (t1, ok1) := ImportChannels(t, a, now); if ok1 then ImportChannels(t1, b, now) else (t1, false))
    decreases |a|
  {
    if a != [] {
      assert (a + b)[0] == a[0] && (a + b)[1..] == a[1..] + b;
      if a[0].JObject? {
        match AfterUpsertChannel(t, ToRow(a[0].members), now)
        case None =>
        case Some(t1) => ImportChannelsAppend(t1, a[1..], b, now);
      }
    } else {
      assert a + b == b;
    }
  }

  /** A batch is its first video, then the rest. */
  lemma {:induction false} InsertVideosFront(channels: map<Json, Row>, table: Table, v: Row, vs: seq<Row>)
    ensures InsertVideos(channels, table, [v] + vs)
      == (match InsertVideo(channels, table, v) case None => None case Some(t1) => InsertVideos(channels, t1, vs))
    decreases |vs|
  {
    if vs == [] {
      assert ([v] + vs)[..0] == [];
    } else {
      var init := vs[..|vs| - 1];
      assert ([v] + vs)[..|[v] + vs| - 1] == [v] + init;
      InsertVideosFront(channels, table, v, init);
    }
  }

  /**
   * When every bundle video is a dict, inserting them one at a time, each
   * committed, ends where one bulk insert of all of them would, and fails
   * exactly when that bulk insert would.
   */
  lemma {:induction false} ImportVideosAsBulk(t: Tables, items: seq<Json>)
    requires forall i :: 0 <= i < |items| ==> items[i].JObject?
    ensures ImportVideos(t, items).1 <==> InsertVideos(t.channels.rows, t.videos, BundleRows(items)).Some?
    ensures ImportVideos(t, items).1 ==>
              ImportVideos(t, items).0 == t.(videos := InsertVideos(t.channels.rows, t.videos, BundleRows(items)).value)
    decreases |items|
  {
    if items != [] {
      var row := ToRow(items[0].members);
      assert BundleRows(items) == [row] + BundleRows(items[1..]);
      InsertVideosFront(t.channels.rows, t.videos, row, BundleRows(items[1..]));
      assert InsertVideos(t.channels.rows, t.videos, [row]) == InsertVideo(t.channels.rows, t.videos, row) by {
        assert [row][..0] == [];
      }
      match InsertVideo(t.channels.rows, t.videos, row)
      case None =>
      case Some(vt) =>
        ImportVideosAsBulk(t.(videos := vt), items[1..]);
    }
  }

  /** The bundle's video dicts as rows, in order. */
  function BundleRows(items: seq<Json>): (rows: seq<Row>)
    requires forall i :: 0 <= i < |items| ==> items[i].JObject?
    ensures |rows| == |items|
    ensures forall i :: 0 <= i < |items| ==> rows[i] == ToRow(items[i].members)
    decreases |items|
  {
    if items == [] then [] else [ToRow(items[0].members)] + BundleRows(items[1..])
  }
}
