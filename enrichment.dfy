/**
 * `enrich_channel` of the scraper (scraper/enrichment.py): the e-mail scope
 * chosen by the e-mail mode, the language and Telegram detection, and the two
 * writes to the store. No filter runs here.
 */
module Enrichment {
  import opened Wrappers
  import opened Json
  import opened Settings
  import opened EmailParser
  import opened TelegramDetection
  import opened LanguageDetection
  import opened Db
  import opened ChannelData

  /** What the step derives before it writes. */
  datatype Enriched = Enriched(
    longForm: seq<Row>,
    emails: seq<string>,
    language: Option<string>,
    telegram: Option<string>)

  /** The blobs searched for e-mail addresses under an e-mail mode. */
  function EmailBlobsFor(mode: string, channel: Row, longForm: seq<Row>): seq<Option<string>> {
    (if mode in {"description", "full"} then [TextField(channel, "description")] else [])
    + (if mode in {"longform", "full"} then Descriptions(longForm) else [])
  }

  function Enrich(channel: Row, videos: seq<Row>, tags: seq<string>, settings: EnrichmentSettings, w: World): (e: Enriched)
    requires IsCandidateOrder(w.order)
    ensures e.longForm == LongForm(videos)
    ensures e.emails == Dedupe(Reconstructed(EmailBlobsFor(settings.emailMode, channel, e.longForm), w.matches))
    ensures !settings.telegramDetection ==> e.telegram.None?
    ensures settings.telegramDetection ==> e.telegram == DetectTelegram(TelegramBlobs(channel, e.longForm))
    ensures e.language == Detect(SignalsOf(channel, tags, e.longForm, settings.languageMode), w.order)
  {
    var longForm := LongForm(videos);
    Enriched(
      longForm,
      Dedupe(Reconstructed(EmailBlobsFor(settings.emailMode, channel, longForm), w.matches)),
      Detect(SignalsOf(channel, tags, longForm, settings.languageMode), w.order),
      if settings.telegramDetection then DetectTelegram(TelegramBlobs(channel, longForm)) else None)
  }

  /** The channel payload: no blacklist fields. */
  function EnrichmentPayload(channel: Row, e: Enriched): Row {
    map[
      "id" := GetOrNull(channel, "id"),
      "title" := GetOrNull(channel, "title"),
      "description" := GetOrNull(channel, "description"),
      "subscriber_count" := GetOrNull(channel, "subscriber_count"),
      "long_form_videos" := JNum(|e.longForm|),
      "last_longform_upload" := TextOrNull(LastLongFormUpload(e.longForm)),
      "language_code" := TextOrNull(e.language),
      "emails" := EmailList(e.emails),
      "telegram" := TextOrNull(e.telegram)]
  }

  /** One upsert, then one batch of every video; each commits on its own. */
  function Writes(t: Tables, payload: Row, videos: seq<Row>, now: string): (Tables, bool) {
    match AfterUpsertChannel(t, payload, now)
    case None => (t, false)
    case Some(t1) =>
      match AfterBulkInsertVideos(t1, videos)
      case None => (t1, false)
      case Some(t2) => (t2, true)
  }

  /**
   * `enrich_channel`: the state reached and whether it completed. The tag
   * loop of `detect_language` runs before any write, so when it raises the
   * store is left as it was.
   */
  function AfterEnrichChannel(t: Tables, channel: Row, videos: seq<Row>, settings: EnrichmentSettings, w: World): (Tables, bool)
    requires IsCandidateOrder(w.order)
  {
    match Tags(channel)
    case None => (t, false)
    case Some(tags) => Writes(t, EnrichmentPayload(channel, Enrich(channel, videos, tags, settings, w)), videos, w.now)
  }

  method EnrichChannel(db: Database, channel: Row, videos: seq<Row>, settings: EnrichmentSettings, w: World)
    returns (ok: bool)
    requires IsCandidateOrder(w.order)
    modifies db
    ensures (db.Snapshot(), ok) == AfterEnrichChannel(old(db.Snapshot()), channel, videos, settings, w)
  {
    var tags := Tags(channel);
    if tags.None? {
      // the tag loop of `detect_language` raises before anything is written
      return false;
    }
    var e := Derive(channel, videos, tags.value, settings, w);
    ok := db.UpsertChannel(EnrichmentPayload(channel, e), w.now);
    if ok {
      ok := db.BulkInsertVideos(videos);
    }
  }

  /** The detections of `enrich_channel`, before its writes. */
  method Derive(channel: Row, videos: seq<Row>, tags: seq<string>, settings: EnrichmentSettings, w: World) returns (e: Enriched)
    requires IsCandidateOrder(w.order)
    ensures e == Enrich(channel, videos, tags, settings, w)
  {
    var longForm := LongForm(videos);
    var blobs: seq<Option<string>> := [];
    if settings.emailMode in {"description", "full"} {
      blobs := blobs + [TextField(channel, "description")];
    }
    if settings.emailMode in {"longform", "full"} {
      blobs := blobs + Descriptions(longForm);
    }
    assert blobs == EmailBlobsFor(settings.emailMode, channel, longForm);
    var emails := ExtractEmails(blobs, w.matches);
    var language := DetectLanguage(SignalsOf(channel, tags, longForm, settings.languageMode), w.order);
    var telegram := if settings.telegramDetection then DetectTelegram(TelegramBlobs(channel, longForm)) else None;
    e := Enriched(longForm, emails, language, telegram);
  }

  // ---------------------------------------------------------------------------

  /**
   * "description" searches the channel description, "longform" the long-form
   * descriptions, "full" both in that order, and any other mode nothing, so
   * that it finds no address.
   */
  lemma EmailScopes(mode: string, channel: Row, longForm: seq<Row>, matches: string -> seq<EmailMatch>)
    ensures mode == "description" ==> EmailBlobsFor(mode, channel, longForm) == [TextField(channel, "description")]
    ensures mode == "longform" ==> EmailBlobsFor(mode, channel, longForm) == Descriptions(longForm)
    ensures mode == "full" ==> EmailBlobsFor(mode, channel, longForm) == [TextField(channel, "description")] + Descriptions(longForm)
    ensures mode !in {"description", "longform", "full"} ==>
              EmailBlobsFor(mode, channel, longForm) == [] && Dedupe(Reconstructed(EmailBlobsFor(mode, channel, longForm), matches)) == []
  {
    if mode == "description" {
      assert EmailBlobsFor(mode, channel, longForm) == [TextField(channel, "description")] + [];
    }
    if mode == "longform" {
      assert EmailBlobsFor(mode, channel, longForm) == [] + Descriptions(longForm);
    }
  }

  /** The payload names the nine columns it writes and no blacklist column. */
  lemma PayloadHasNoBlacklistFields(channel: Row, e: Enriched)
    ensures EnrichmentPayload(channel, e).Keys == {
      "id", "title", "description", "subscriber_count", "long_form_videos",
      "last_longform_upload", "language_code", "emails", "telegram"}
    ensures "blacklisted" !in EnrichmentPayload(channel, e) && "blacklist_reason" !in EnrichmentPayload(channel, e)
    ensures ChannelPayload(EnrichmentPayload(channel, e)).Keys <= ChannelColumns
  {
  }

  /**
   * The step upserts once and always goes on to the video batch, also when it
   * is empty; as the payload has no `blacklisted`, it clears an earlier flag.
   */
  lemma EnrichWrites(t: Tables, channel: Row, e: Enriched, videos: seq<Row>, now: string)
    ensures var u := AfterUpsertChannel(t, EnrichmentPayload(channel, e), now);
      var r := Writes(t, EnrichmentPayload(channel, e), videos, now);
      && u.Some?
      && r == (match AfterBulkInsertVideos(u.value, videos)
               case None => (u.value, false)
               case Some(t2) => (t2, true))
      && (videos == [] ==> r == (u.value, true))
      && (GetOrNull(channel, "id") != JNull ==> ChannelHolds(u.value, GetOrNull(channel, "id"), "blacklisted", JNum(0)))
  {
    var p := EnrichmentPayload(channel, e);
    PayloadHasNoBlacklistFields(channel, e);
    assert p["id"] == GetOrNull(channel, "id");
    WritesOfPayload(t, p, videos, now);
  }

  /** When iterating the channel's tags raises, the step fails and nothing is written. */
  lemma UnreadableTagsEnrichNothing(t: Tables, channel: Row, videos: seq<Row>, settings: EnrichmentSettings, w: World)
    requires IsCandidateOrder(w.order) && "tags" in channel && TagsRaise(channel["tags"])
    ensures AfterEnrichChannel(t, channel, videos, settings, w) == (t, false)
  {
  }

  lemma WritesOfPayload(t: Tables, p: Row, videos: seq<Row>, now: string)
    requires ChannelPayload(p).Keys <= ChannelColumns && "id" in p && "blacklisted" !in p
    ensures var u := AfterUpsertChannel(t, p, now);
      && u.Some?
      && Writes(t, p, videos, now) == (match AfterBulkInsertVideos(u.value, videos)
                                        case None => (u.value, false)
                                        case Some(t2) => (t2, true))
      && (videos == [] ==> Writes(t, p, videos, now) == (u.value, true))
      && (p["id"] != JNull ==> ChannelHolds(u.value, p["id"], "blacklisted", JNum(0)))
  {
    if p["id"] != JNull {
      UpsertStoresGivenColumns(t, p, now);
    }
  }

  // ---------------------------------------------------------------------------
  // The step as written: `emails` is sent to sqlite3 as a list.

  /** `enrich_channel` as written, with sqlite3's parameter binding. */
  function AfterEnrichChannelAsWritten(t: Tables, channel: Row, videos: seq<Row>, settings: EnrichmentSettings, w: World): (Tables, bool)
    requires IsCandidateOrder(w.order)
  {
    match Tags(channel)
    case None => (t, false)
    case Some(tags) =>
      match AfterUpsertChannelAsWritten(t, EnrichmentPayload(channel, Enrich(channel, videos, tags, settings, w)), w.now)
      case None => (t, false)
      case Some(t1) =>
        match AfterBulkInsertVideosAsWritten(t1, videos)
        case None => (t1, false)
        case Some(t2) => (t2, true)
  }

  /** As written, the upsert raises on the `emails` list: the step never completes and writes nothing. */
  lemma EnrichAsWrittenWritesNothing(t: Tables, channel: Row, videos: seq<Row>, settings: EnrichmentSettings, w: World)
    requires IsCandidateOrder(w.order)
    ensures AfterEnrichChannelAsWritten(t, channel, videos, settings, w) == (t, false)
  {
    if Tags(channel).Some? {
      PayloadUnbindable(t, channel, Enrich(channel, videos, Tags(channel).value, settings, w), w.now);
    }
  }

  /** The payload holds `emails` as a list, so the upsert as written raises. */
  lemma PayloadUnbindable(t: Tables, channel: Row, e: Enriched, now: string)
    ensures AfterUpsertChannelAsWritten(t, EnrichmentPayload(channel, e), now).None?
  {
    ListValueUpsertRaises(t, EnrichmentPayload(channel, e), now, "emails");
  }
}
