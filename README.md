# Channel harvester core, modelled in Dafny

This project models the deterministic core of a YouTube channel-harvesting pipeline. The pipeline exists in two generations, the `scraper/` package and the newer `backend/` application.

- **Scraper filter engine.** Five gates run in a fixed order over a channel snapshot: denied language, minimum subscribers, minimum long-form videos, upload recency and the e-mail gate. The first gate that fails decides, and its reason text quotes the values compared.
- **Attribute extractors.**
  - The scraper's e-mail parser rebuilds `user@domain.tld` from each match, lower-cases it, drops duplicates and keeps first-seen order.
  - The scraper's Telegram detector takes the first blob that yields a handle. A `t.me/` link beats a bare `@mention`, and a bare mention has its case-sensitivity guard.
  - The weighted language detector scores keyword hits and metadata bonuses, then picks the first most common key. A top score of 0 means unknown.
  - The backend has its own Telegram and e-mail extractors.
- **Discovery step and enrichment step.** The per-query loop skips falsy and repeated ids, fails on an id that cannot be hashed, and stops at the cap. For each candidate the step builds the snapshot, runs the filters and writes the verdict. The enrichment step builds its payload and writes it. Both write through the store.
- **The SQLite store**, as an in-memory class (`Db.Database`) over tables of rows:
  - channel upsert by id, with defaults;
  - video insert, or update on conflict;
  - an append-only log;
  - discovery state, enrichment settings and meta values, each with a round trip;
  - bundle import.
- **Backend discovery cycle.**
  - Skip-if-known insertion into the catalog.
  - The per-keyword counters: runs, new channels found, consecutive empty cycles, and "exhausted" after 5 such cycles.
  - The JSON worklist walk that collects `(channelId, title, url)` tuples, and the continuation-token lookup.

Imperative code stays imperative:
- `Database`, `DiscoveryEngine` and `Catalog` are classes whose methods update their fields.
- The loops of `extract_emails`, `detect_language`, `_walk_for_channels`, `bulk_insert_videos`, `persist_discovery_state` and `extract_emails_from_text` are methods with loop invariants.
- `enrich_channel` has no loop of its own. Its two list comprehensions are the functions `ChannelData.LongForm` (recursive) and `ChannelData.Descriptions`, and its method `Enrichment.Derive` calls them.
- Each method is proved equal to a specification function. The lemmas state the source's promises about those functions.

Inputs from outside the program are parameters:
- the clocks;
- `datetime.fromisoformat`;
- the matches of the e-mail regular expressions;
- the iteration order of the candidate-language set;
- the connector's and the search page's results.

The Telegram patterns are simple enough to be scanned by hand-written functions.

Two behaviours of the code that are easy to misread:
- **The scraper Telegram guard is real.** In `scraper/telegram_detection.py:18` the check `"@"+name not in blob.lower()` holds only when the name has an ASCII capital. An all-lower-case first mention therefore makes that blob yield nothing (`TelegramDetection.GuardIffCapital`).
- **`max_last_upload_age_days` can be `None`.** It is declared `int`, but the gate treats `None` as "no recency requirement", so the model keeps it optional.

## Model

| member | source | states |
|---|---|---|
| Filters.ApplyFilters | scraper/filters.py:31-72 | the result is accepted exactly when it carries no reason |
| Filters.ApplyFiltersIsOrderedGates | scraper/filters.py:31-72 | `apply_filters` equals running the five gates in the order language, subscribers, long-form, recency, e-mail, stopping at the first that fails |
| Filters.FirstFailingGateDecides | scraper/filters.py:32-70 | when gate i fails and every earlier gate passes, the result is gate i's rejection, whatever later gates say |
| Filters.AcceptedIffNoGateFails | scraper/filters.py:72 | the ordered chain accepts, with no reason, exactly when no gate fails |
| Filters.ApplyFiltersFirstFailure | scraper/filters.py:32-70 | `apply_filters` rejects with the reason of the first failing gate |
| Filters.ApplyFiltersAcceptsIffAllPass | scraper/filters.py:72 | `apply_filters` accepts exactly when all five gates pass |
| Filters.LanguageGateCondition | scraper/filters.py:32-36 | the language gate fires exactly for a non-empty code whose upper-cased form is in the upper-cased deny set; the reason is "Language {code} denied" with the code as given |
| Filters.SubscriberGateCondition | scraper/filters.py:38-41 | skipped for an unknown count; otherwise fires exactly when count < minimum, with "Subscribers below threshold: n < min" |
| Filters.LongFormGateCondition | scraper/filters.py:43-46 | the long-form gate fires exactly when the count is below the minimum, with "Insufficient long-form videos: n < min" |
| Filters.RecencyUnsetNeverRejects | scraper/filters.py:48 | with no maximum age the recency gate never fires, whatever the timestamp |
| Filters.RecencyGateCondition | scraper/filters.py:48-65 | with a maximum age, the gate fires for a missing or empty timestamp, for an unparsable one, and for an age in whole days strictly above the maximum, each with its own reason, and only then |
| Filters.RecencyBoundaryPasses | scraper/filters.py:55 | an upload exactly the maximum number of days old passes |
| Filters.EmailGateCondition | scraper/filters.py:67-70 | the e-mail gate fires exactly when it is on and no e-mail was found |
| Filters.SubscriberExample | scraper/filters.py:38-41 | 500 subscribers against 1000 gives "Subscribers below threshold: 500 < 1000" |
| Filters.RecencyExample | scraper/filters.py:55-61 | an upload 200 days old against a maximum of 120 gives "Last upload too old: 200d > 120d" |
| Filters.DefaultFiltersDenyHindi | scraper/settings.py:6-9 | the default filters reject a Hindi code in any letter case, quoting it as given |
| Settings.LanguageGate.Normalized | scraper/settings.py:16-17 | the deny list upper-cased element by element, same length and order |
| Settings.NormalizedIdempotent | scraper/settings.py:16-17 | normalizing a normalized deny list changes nothing |
| LanguageDetection.ScoreHintCountsDistinctHints | scraper/language_detection.py:14-16 | `_score_hint` is the number of distinct hint words of the language found in the lower-cased haystack; an unknown language scores 0 |
| LanguageDetection.CountFoundIsCardinality | scraper/language_detection.py:16 | counting the hint words found equals the size of the set of words found |
| LanguageDetection.HintScoreOutsideCandidates | scraper/language_detection.py:38-41 | a code other than HI/EN/DE/TR gets no keyword score from title, description or tags |
| LanguageDetection.Expected | scraper/language_detection.py:35-49 | the reference Counter: the candidates in set order, then every new bonus code, each with its keyword hits plus one bonus (2 in "precise", else 1) per signal naming it |
| LanguageDetection.KeywordScores | scraper/language_detection.py:38-41 | the first loop leaves each candidate with title, description and tag hits, inserted in set order |
| LanguageDetection.InferredBonuses | scraper/language_detection.py:43-45 | the second loop adds one bonus per present region, audio and captions code, upper-cased |
| LanguageDetection.VideoBonuses | scraper/language_detection.py:47-49 | the third loop adds one bonus per video language, upper-cased |
| LanguageDetection.DetectLanguage | scraper/language_detection.py:19-57 | the method returns the reference detection for every set order |
| LanguageDetection.MostCommon | scraper/language_detection.py:54 | `most_common(1)` returns a key whose count no other key exceeds |
| LanguageDetection.MostCommonIsFirst | scraper/language_detection.py:54 | among keys with the largest count, `most_common(1)` returns the first inserted |
| LanguageDetection.DetectNoneIffAllZero | scraper/language_detection.py:51-56 | the result is None exactly when every score is 0 |
| LanguageDetection.DetectIsMaximal | scraper/language_detection.py:54-57 | a detected language has a positive score that no code exceeds |
| LanguageDetection.DetectWinnerSource | scraper/language_detection.py:36-49 | the winner is a candidate or a code named by some metadata signal |
| LanguageDetection.DetectNonCandidateBeatsCandidates | scraper/language_detection.py:38-54 | a code outside HI/EN/DE/TR wins only with a score strictly above every candidate's |
| LanguageDetection.DetectNothingFromNothing | scraper/language_detection.py:51-56 | with no text, tags or metadata, nothing is detected |
| LanguageDetection.DetectRegionOnly | scraper/language_detection.py:43-45 | a region "fr" alone gives "FR", though it is not a candidate |
| LanguageDetection.ScoreOutsideKeys | scraper/language_detection.py:35-49 | a code that is neither a candidate nor a bonus code scores 0 |
| EmailParser.ExtractEmails | scraper/email_parser.py:14-28 | the loop's result is the de-duplicated sequence of the lower-cased rebuilt matches of the non-empty blobs, in order |
| EmailParser.AddMatches | scraper/email_parser.py:22-27 | the inner loop keeps `seen` equal to the set of results and extends the de-duplicated sequence by one blob's matches |
| EmailParser.RebuildAll | scraper/email_parser.py:23-24 | each match becomes `lower(user@domain.tld)`, in match order |
| EmailParser.DedupeNoDuplicates | scraper/email_parser.py:25-27 | no address is reported twice |
| EmailParser.DedupeSameElements | scraper/email_parser.py:25-27 | the reported addresses are exactly the rebuilt ones |
| EmailParser.DedupePrefix | scraper/email_parser.py:19-27 | first-seen order: later blobs only append addresses |
| EmailParser.ReconstructedMembers | scraper/email_parser.py:19-24 | an address is rebuilt exactly when some non-empty blob has a match rebuilding to it |
| EmailParser.OutputMembers | scraper/email_parser.py:17-28 | every lower-cased rebuilt match of every non-empty blob is in the output, and nothing else is |
| EmailParser.OutputSetIgnoresOrder | scraper/email_parser.py:17-28 | the set of outputs depends only on the set of blobs |
| EmailParser.FalsyBlobContributesNothing | scraper/email_parser.py:20-21 | a missing or empty blob contributes nothing, wherever it stands |
| EmailParser.OutputIsLowerCase | scraper/email_parser.py:24 | no ASCII capital survives in an address |
| TelegramScan.RunLength | scraper/telegram_detection.py:6-7 | a greedy run of `[A-Za-z0-9_]` ends at the text's end or at a non-name character |
| TelegramScan.LinkAt | scraper/telegram_detection.py:6 | a link matches at a position exactly when `t.me/`, `http://t.me/` or `https://t.me/`, in any case, is followed by at least the minimum number of name characters; the name is then the whole run, case kept |
| TelegramScan.HandleAt | scraper/telegram_detection.py:7 | a handle matches exactly at an `@` followed by at least four name characters and, with the look-behind, not preceded by a word character or another `@`; the name is then the whole run |
| TelegramScan.FindLink | scraper/telegram_detection.py:14 | `search` returns the leftmost position where a link matches |
| TelegramScan.FindHandle | scraper/telegram_detection.py:17 | `search` returns the leftmost position where a handle matches |
| TelegramScan.NoSlashNoLink | backend/scraper/telegram_extract.py:4 | a text without `/` holds no link |
| TelegramDetection.GuardIffCapital | scraper/telegram_detection.py:17-19 | the guard on a bare mention holds exactly when the name has an ASCII capital |
| TelegramDetection.BlobResultCases | scraper/telegram_detection.py:14-19 | within a blob the first link wins as "t.me/"+name; otherwise the first mention counts only when it has a capital |
| TelegramDetection.DetectIsFirstHit | scraper/telegram_detection.py:11-20 | the result is the first blob's that yields one, falsy blobs skipped; None exactly when no blob yields |
| TelegramDetection.LaterBlobsIgnored | scraper/telegram_detection.py:11-19 | once some blobs yield a result, later blobs are not consulted |
| TelegramDetection.ResultShape | scraper/telegram_detection.py:16-19 | a result is "t.me/" followed by a valid name |
| TelegramDetection.MentionWithCapitalIsTaken | scraper/telegram_detection.py:17-19 | a blob "@CryptoFam2024"-like (name with a capital) yields "t.me/"+name |
| TelegramDetection.LowerCaseMentionIsSkipped | scraper/telegram_detection.py:17-19 | an all-lower-case mention yields nothing and the scan moves on to the next blob |
| TelegramExtract.ExtractTelegram | backend/scraper/telegram_extract.py:8-19 | None for None or empty text; a result starts with "@" and has a name of at least four characters |
| TelegramExtract.HandleGuardNeverHolds | backend/scraper/telegram_extract.py:16 | the loop's guard is always false: the text contains the `@name` matched in it |
| TelegramExtract.ExtractCases | backend/scraper/telegram_extract.py:11-18 | a link wins and gives "@"+name; otherwise the leftmost handle is returned |
| TelegramExtract.EmailDomainReadsAsHandle | backend/scraper/telegram_extract.py:5-14 | with no look-behind, "user@name.rest" gives "@name" |
| EmailExtract.ExtractEmailsFromText | backend/scraper/email_extract.py:13-18 | the result is strictly ascending (sorted, duplicate-free) and holds exactly the plain matches verbatim and the alternate matches rebuilt as g1@g2.g3 |
| EmailExtract.SortStrings | backend/scraper/email_extract.py:18 | `sorted` of a set lists exactly its elements in strictly ascending order |
| EmailExtract.SortedUnique | backend/scraper/email_extract.py:18 | two ascending lists of the same elements are equal, so the sorted result is determined by the set |
| EmailExtract.LessTotal | backend/scraper/email_extract.py:18 | Python's string order is total |
| EmailExtract.LessTransitive | backend/scraper/email_extract.py:18 | Python's string order is transitive |
| EmailExtract.NoTextNoEmails | backend/scraper/email_extract.py:14-15 | None or empty text gives no address |
| EmailExtract.Insert | backend/scraper/email_extract.py:16-18 | adding to an ascending list keeps it ascending and adds exactly that element |
| YoutubeSearch.WalkForChannels | backend/scraper/youtube_search.py:47-64 | the worklist loop collects exactly the reference traversal: a dict's own tuple, then its values last to first, lists from their end |
| YoutubeSearch.Step | backend/scraper/youtube_search.py:52-63 | one pop keeps collected-plus-pending invariant and shrinks the worklist's size |
| YoutubeSearch.ChannelUrl | backend/scraper/youtube_search.py:58 | only a truthy id gets a url, the channel prefix plus the id |
| YoutubeSearch.Emit | backend/scraper/youtube_search.py:55-59 | a dict contributes a tuple exactly when it has both `channelId` and `title` |
| YoutubeSearch.FalsyDataHoldsNothing | backend/scraper/youtube_search.py:49-50 | the early return for falsy data loses no tuple |
| YoutubeSearch.VisitComplete | backend/scraper/youtube_search.py:47-64 | a tuple is collected exactly when some dict nested in the data, under list items and dict values, emits it |
| YoutubeSearch.FindContinuation | backend/scraper/youtube_search.py:72-86 | the token is None when the path to the blocks fails or no block decides; otherwise the first deciding block gives it: a dict holding `continuationItemRenderer` yields the four-key path's value (None when it fails), any other block that answers `in` with True or raises ends the lookup with None |
| YoutubeSearch.ScanBlocks | backend/scraper/youtube_search.py:76-83 | the loop over the blocks gives None when no block decides, else the token of the first deciding block |
| YoutubeSearch.TokenNeedsFullPath | backend/scraper/youtube_search.py:77-82 | only a dict block holding the whole path yields a token |
| Db.Fresh | scraper/db.py:89-94 | a new database has empty tables and meta `schema_version` = "6" |
| Json.Lookup | scraper/db.py:185 | `d.get(key)` finds a value exactly when some member has the key |
| Json.Keys | scraper/language_detection.py:12 | iterating a dict gives each key once, where it first appears |
| Json.KeysMembers | scraper/language_detection.py:12 | a key is listed exactly when some member has it |
| Json.LookupLast | scraper/db.py:183 | with a repeated key, `get` finds the value of the last member with it, as `json.loads` builds the dict |
| Db.ToRow | scraper/db.py:123 | a dict built from members has exactly the keys given, each holding the value `get` finds, that of the last member with the key |
| Db.ChannelPayload | scraper/db.py:123-125 | the payload is the channel plus `emails` "[]" and `blacklisted` 0 where absent |
| Db.ChannelDefaults | scraper/db.py:23-38 | a new row has every channel column, with the declared defaults |
| Db.AfterUpsertChannel | scraper/db.py:122-134 | the upsert succeeds exactly when every payload key is a column, and changes only the channels table |
| Db.AfterUpsertChannelAsWritten | scraper/db.py:126-134 | with sqlite3's binding, the upsert succeeds exactly when every payload value is None, a number, a boolean or a text and the upsert itself succeeds, and then it is that upsert |
| Db.ListValueUpsertRaises | scraper/db.py:134 | a list or dict anywhere in the payload makes the upsert raise |
| Db.AfterBulkInsertVideosAsWritten | scraper/db.py:136-148 | with sqlite3's binding, the batch succeeds exactly when every parameter of every video can be bound and the batch itself succeeds |
| Db.VideoPayload | scraper/db.py:139-141 | the payload is the video plus `metadata` "{}" and `tags` where absent |
| Db.VideoRow | scraper/db.py:143-144 | the row written holds exactly the ten named parameters |
| Db.InsertVideo | scraper/db.py:142-148 | one video's statement succeeds exactly when every named parameter is present and either its id is already stored (the conflict path, which keeps `channel_id`) or its `channel_id` is NULL or the id of a stored channel (the foreign key declared on the table and switched on by the connection) |
| Db.AfterRecordLog | scraper/db.py:150-155 | exactly one entry appended, earlier entries and other tables unchanged |
| Db.LoadDiscoveryState | scraper/db.py:118-120 | the loaded map has exactly the stored keys |
| Db.GetMeta | scraper/db.py:104-107 | a missing key gives the default |
| Db.Database.constructor | scraper/db.py:81-94 | the new store equals the fresh database |
| Db.Database.SetMeta | scraper/db.py:96-102 | the store becomes the meta upsert of the old store |
| Db.Database.UpsertChannel | scraper/db.py:122-134 | reports success as the specification does, and leaves the upserted store, or the old one when the statement raises |
| Db.Database.BulkInsertVideos | scraper/db.py:136-148 | the loop inserts the whole batch in one transaction, or leaves the store unchanged when one video raises, for a missing parameter or for a channel that is not stored |
| Db.Database.RecordLog | scraper/db.py:150-155 | the store becomes the old one with the entry appended |
| Db.Database.PersistDiscoveryState | scraper/db.py:109-116 | the loop upserts every given key and keeps the others |
| Db.Database.SaveEnrichmentSettings | scraper/db.py:164-170 | the store holds the payload in the single settings row |
| Db.Database.ImportBundle | scraper/db.py:182-190 | the store and the outcome are those of upserting every channel, then inserting every video (which may name only channels stored by then), then the state when non-empty |
| Db.Database.ImportChannelItems | scraper/db.py:185-186 | the channels of a bundle are upserted one by one, stopping at the first that raises |
| Db.Database.ImportVideoItems | scraper/db.py:187-188 | the videos of a bundle are inserted one batch each, stopping at the first that raises (a non-dict item, a missing parameter or an unknown channel) |
| Db.InsertVideosFails | scraper/db.py:137-148 | once a prefix of the batch raises, the whole batch does |
| Db.BulkFailsIffVideoRaises | scraper/db.py:137-148 | a batch fails exactly when one of its videos lacks a named parameter, or has a new row (NULL id, or an id stored neither before the batch nor by an earlier video) whose `channel_id` names no stored channel |
| Db.InsertVideosKeys | scraper/db.py:136-148 | after a batch goes in, the keyed video rows are those stored before plus the non-NULL ids of the batch |
| Db.UpsertKeepsIds | scraper/db.py:131-132 | at most one row per id: every keyed row stays under its own id |
| Db.UpsertInsertsNewRow | scraper/db.py:122-134 | an unknown id inserts one row: the given columns, `emails` "[]" and `blacklisted` 0 when absent, column defaults elsewhere |
| Db.UpsertUpdatesExistingRow | scraper/db.py:129-132 | a known id overwrites exactly the given columns and `updated_at`, keeps the id and the other columns, and changes no other row |
| Db.UpsertWithoutFlagClearsBlacklist | scraper/db.py:125 | an upsert without `blacklisted` sets it to 0, clearing an earlier flag |
| Db.UpsertStoresGivenColumns | scraper/db.py:122-134 | new or known, the row then holds every given column's value |
| Db.UpsertedRowHoldsPayload | scraper/db.py:126-132 | after an upsert, by the insert or by the conflict update, the row holds every payload value other than `id` and `updated_at` |
| Db.UpsertRepeatTouchesOnlyUpdatedAt | scraper/db.py:130-132 | repeating an upsert leaves the same content except `updated_at` |
| Db.UpsertWithoutIdAppends | scraper/db.py:131-132 | a NULL or missing id never conflicts, so each such upsert adds a row |
| Db.VideoConflictKeepsChannel | scraper/db.py:145-146 | on a conflicting id every column but `channel_id` is replaced |
| Db.InsertVideosKeepIds | scraper/db.py:136-148 | every stored video row stays under its own id |
| Db.PersistThenLoad | scraper/db.py:109-120 | loading after persisting gives the given keys, the other keys as before |
| Db.PersistLoadedIsNoChange | scraper/db.py:109-120 | persisting what was loaded changes no stored value |
| Db.EnrichmentSettingsRoundTrip | scraper/db.py:157-170 | the settings read back are the last saved, and `{}` before any save |
| Db.MetaRoundTrip | scraper/db.py:94-107 | `get_meta` returns the last value set, other keys unaffected, and "6" for the schema version of a new database |
| Db.ImportChannelsAppend | scraper/db.py:185-186 | importing a + b is importing a, then b unless a failed |
| Db.ImportVideosAsBulk | scraper/db.py:187-188 | one batch per video ends where one batch of all the videos ends when none raises |
| ChannelData.LongForm | scraper/discovery.py:74 | every kept video is neither short nor live |
| ChannelData.LongFormIsOrderedFilter | scraper/discovery.py:74 | the long-form videos are exactly those flagged neither short nor live |
| ChannelData.LongFormAppend | scraper/discovery.py:74 | the filter distributes over concatenation, so it keeps order and multiplicity |
| ChannelData.LongFormSingle | scraper/discovery.py:74 | one video is kept exactly when it is long-form |
| ChannelData.LongFormEmpty | scraper/discovery.py:74 | a list without a long-form video keeps nothing |
| ChannelData.LongFormFirst | scraper/discovery.py:101 | the first long-form video, whose `published_at` is the last upload, is the earliest long-form video of the list |
| ChannelData.Videos | scraper/discovery.py:73-74 | reading `videos` fails exactly when the value is not iterable or an item has no `.get`; otherwise a list gives one row per dict, in order, and an empty text or dict or an absent key gives none |
| ChannelData.LanguageCodes | scraper/discovery.py:94 | the codes passed on are non-empty, at most one per video |
| ChannelData.LanguageCodesMembers | scraper/discovery.py:94 | a code is passed on exactly when it is non-empty and some video has it |
| ChannelData.FirstFive | scraper/discovery.py:94 | at most five videos, a prefix of the long-form ones |
| ChannelData.Tags | scraper/discovery.py:90 | `tags` as the tag loop of `detect_language` iterates it: absent gives none; it fails exactly for None, a number, a boolean or a list with an item that is not a text; a list gives its texts in order, a text its characters one by one, a dict its keys |
| ChannelData.SignalsOf | scraper/discovery.py:87-96 | the detector gets the tags as read, the codes of the first five long-form videos and the region as given |
| ChannelData.LastLongFormUpload | scraper/discovery.py:101 | no long-form video gives no last upload |
| Discovery.SubscriberCount | scraper/discovery.py:99 | an absent count is 0; None skips the gate; a boolean counts as 0 or 1; a text, list or dict is not comparable and reads as None |
| Discovery.Assess | scraper/discovery.py:72-106 | long-form is the filter of the videos; the language is detected from the tags as read; Telegram is None when detection is off; the subscriber count defaults to 0 only when absent; the snapshot holds the long-form count and the first long-form `published_at`; the verdict is `apply_filters` of the snapshot |
| Discovery.DiscoveryEngine.constructor | scraper/discovery.py:31-35 | the engine keeps the state loaded from the store |
| Discovery.SetKey | scraper/discovery.py:50-52 | the ids `True` and `1` are one set element; every other id is itself |
| Discovery.DiscoveryEngine.DiscoverQuery | scraper/discovery.py:44-55 | the loop leaves the store as the query specification: falsy and repeated ids skipped (`True` and `1` being one id), a truthy list or dict id failing the query, each other candidate handled, stop at the cap |
| Discovery.DiscoveryEngine.HandleCandidate | scraper/discovery.py:71-143 | the step leaves the store as its specification: it fails with nothing written when the videos or the tags cannot be read, or when a text, list or dict count reaches the subscriber gate; otherwise assessment, then effects |
| Discovery.UnreadableTagsWriteNothing | scraper/language_detection.py:12 | when iterating the tags raises, the step fails and nothing is written |
| Discovery.UnorderableCountOnlyLanguageRejects | scraper/filters.py:32-41 | with a text, list or dict count the step completes only by rejecting the candidate for its language; otherwise it fails with nothing written |
| Discovery.UnreadableVideosWriteNothing | scraper/discovery.py:73-74 | when the videos cannot be read the step fails and nothing is written |
| Discovery.DiscoveryEngine.PersistState | scraper/discovery.py:145-146 | the state loaded at construction is written back, other keys kept |
| Discovery.RunQueryIsHandleAll | scraper/discovery.py:44-55 | a query handles exactly its selected candidates in order, and fails after them when the scan reaches a list or dict id before the cap |
| Discovery.SkippedCandidate | scraper/discovery.py:49-51 | a falsy or already handled id is passed over without effect |
| Discovery.UnhashableCandidate | scraper/discovery.py:50 | a truthy list or dict id ends the query with a failure, nothing written and nothing more selected |
| Discovery.HandledFailed | scraper/discovery.py:53 | a handled candidate whose step fails ends the query with that step |
| Discovery.HandledAtCap | scraper/discovery.py:53-55 | a handled candidate that completes at the cap ends the query with its step |
| Discovery.HandledBelowCap | scraper/discovery.py:52-55 | below the cap the query goes on from the step's state with the id added |
| Discovery.UnhashableIdEndsQuery | scraper/discovery.py:50 | a truthy list or dict id fails the query at once, whatever follows |
| Discovery.TrueAndOneAreOneId | scraper/discovery.py:50 | once `1` is handled, a candidate with id `True` is passed over |
| Discovery.SelectedIdsFresh | scraper/discovery.py:47-52 | handled ids are truthy, hashable, not handled before, and pairwise distinct as set elements |
| Discovery.SelectedFromCandidates | scraper/discovery.py:48-53 | every handled candidate is one of the connector's results |
| Discovery.SelectedWithinLimit | scraper/discovery.py:54-55 | with a positive cap L, at most L candidates are handled |
| Discovery.NegativeLimitHandlesOne | scraper/discovery.py:54-55 | a negative cap is truthy and already reached: at most one candidate is handled |
| Discovery.SelectedCompleteWithoutLimit | scraper/discovery.py:46-55 | with no cap (None or 0) every truthy hashable id not handled before is handled, unless a list or dict id comes before it |
| Discovery.PayloadsFitColumns | scraper/discovery.py:110-141 | both payloads name only channel columns, so in the model their upserts succeed (as written they raise on the `emails` list: see Findings) |
| Discovery.HandleRejected | scraper/discovery.py:107-125 | a rejection appends exactly one "blacklist" entry with the reason, upserts the channel with `blacklisted` 1 and the reason, and writes no video |
| Discovery.HandleAccepted | scraper/discovery.py:127-143 | an acceptance appends exactly one "accepted" entry, upserts the channel with `blacklisted` 0, then inserts all videos only when there are any |
| Discovery.HandleAsWrittenStoresNothing | scraper/discovery.py:106-143 | as written, no step completes or stores a channel or a video; at most its log entry is left |
| Discovery.EffectsAsWrittenFail | scraper/discovery.py:107-141 | as written, both verdicts append their log entry and then fail on the upsert |
| Discovery.QueryAsWrittenStoresNothing | scraper/discovery.py:44-55 | as written, a query completes only when it handles no candidate, and stores at most one log entry |
| Enrichment.EnrichAsWrittenWritesNothing | scraper/enrichment.py:43-55 | as written, the step never completes and leaves the store as it was |
| Enrichment.PayloadUnbindable | scraper/enrichment.py:51-54 | the payload's `emails` list makes the upsert raise |
| Discovery.RejectionHasReason | scraper/filters.py:36-70 | every rejection carries a reason |
| Enrichment.Enrich | scraper/enrichment.py:16-41 | long-form, e-mails from the blobs of the mode, Telegram None when off or the scan of description, about and long-form descriptions, and the detected language |
| Enrichment.EnrichChannel | scraper/enrichment.py:15-55 | the method leaves the store and the outcome of the specification: it fails with nothing written when the tags cannot be read; otherwise one upsert, then one batch |
| Enrichment.UnreadableTagsEnrichNothing | scraper/enrichment.py:26-35 | when iterating the tags raises, the step fails and nothing is written |
| Enrichment.Derive | scraper/enrichment.py:16-41 | the detections computed step by step are those of `Enrichment.Enrich` |
| Enrichment.EmailScopes | scraper/enrichment.py:18-24 | "description" searches the description, "longform" the long-form descriptions, "full" both in that order, any other mode nothing |
| Enrichment.PayloadHasNoBlacklistFields | scraper/enrichment.py:43-53 | the payload has the nine columns and no blacklist field |
| Enrichment.EnrichWrites | scraper/enrichment.py:54-55 | one upsert that clears any blacklist flag, then one batch of all videos, the empty batch included |
| BackendDiscovery.NextState | backend/services/discovery.py:51-59 | the token is overwritten, runs +1, found + new, the empty counter +1 or reset to 0, exhausted iff it reaches 5 |
| BackendDiscovery.Catalog.EnsureDiscoveryStates | backend/services/discovery.py:13-18 | the states become the ensured states; the channels are unchanged |
| BackendDiscovery.Catalog.RunDiscoveryCycle | backend/services/discovery.py:21-62 | the loop's catalog and counts are those of the reference; the keyword's state, found or created, gets the next state |
| BackendDiscovery.EnsuredStatesAddsOnlyMissing | backend/services/discovery.py:13-18 | a zeroed state is added only for keywords without one |
| BackendDiscovery.AbsorbAddsUnknownIds | backend/services/discovery.py:30-50 | known rows unchanged; exactly the unknown truthy ids added, with status "new" and the keyword |
| BackendDiscovery.AbsorbCounts | backend/services/discovery.py:30-50 | each result counts once: new, skipped or falsy |
| BackendDiscovery.AbsorbNewIsAdded | backend/services/discovery.py:39-50 | the new count is the number of rows added |
| BackendDiscovery.FiveEmptyCyclesExhaust | backend/services/discovery.py:54-59 | from any state whose empty-cycle counter is non-negative, five empty cycles in a row exhaust the keyword |
| BackendDiscovery.EmptyCyclesCount | backend/services/discovery.py:54-55 | each empty cycle adds one to the consecutive-empty counter |
| BackendDiscovery.ProductiveCycleResets | backend/services/discovery.py:56-59 | a productive cycle clears exhaustion, and counting restarts from 0 |
| BackendDiscovery.CycleCounters | backend/services/discovery.py:52-58 | runs count goes up by exactly one and the total by exactly this cycle's new channels |
| Text.ContainsWitness | scraper/telegram_detection.py:18 | Python's `in` on strings holds only at a position where the text occurs |
| Text.UpperIdempotent | scraper/filters.py:32-33 | upper-casing twice is upper-casing once |

## Left out

- The async orchestration (`DiscoveryEngine.discover`, `_bounded` with its semaphore, the backend's jobs) is left out. Queries run as concurrent tasks, but each query's candidates are handled one at a time in the order given, so the model runs one query at a time.
- Network, HTML fetching, `_extract_initial_data` and the connectors (`search_channels`, `related_channels`, `suggest_channels`) are left out. Their results are parameters.
- The regular expressions of both e-mail extractors are parameters returning the matches. The Telegram patterns are modelled by hand-written scanners.
- Case mapping covers ASCII and the Latin-1 letters À..Þ and à..þ only (enough for "türkçe"). It does not cover ß, which Python upper-cases to "SS", ÿ (to Ÿ) or µ (to the Greek capital mu). Python's other Unicode mappings, and its `\w` beyond Latin-1, are left out.
- Clocks are one given reading per operation. `apply_filters` reads the clock twice (the comparison and the reason); the model uses one reading for both.
- `datetime.fromisoformat` is a parameter returning microseconds, or None where it raises `ValueError`. A comparison of naive with aware datetimes, which raises `TypeError` and is not caught, is not modelled.
- JSON is modelled with integer numbers only; floats are left out. `json.dumps` / `json.loads` are identity on the modelled values.
- Db.AfterUpsertChannel, Db.InsertVideo: sqlite3's parameter binding is not modelled: the model stores a list or dict value as it is, where sqlite3 refuses it and `execute` raises (only None, numbers, booleans and texts bind). The discovery and enrichment payloads always carry `emails` as a list, so as written every upsert they make raises. `_handle_candidate` then leaves only its log entry and raises, which ends the query, and `enrich_channel` raises with nothing written: no step ever stores a channel or a video. The model describes the intended write, with the list stored as a value; the code as written is modelled beside it (see Findings). A video whose `tags` is a list or whose `metadata` is a dict likewise raises in `bulk_insert_videos`, and the model's batch does not.
- Column names are matched exactly; SQLite's case-insensitive column names and type affinity are left out.
- Reopening an existing database file is left out. The constructor always models a fresh file.
- `export_bundle` and `ensure_db` are left out. File I/O is outside the model.
- ChannelData.TextField: a text field (`title`, `description`, `about`) holding a non-text value reads as None (falsy). The source passes the value on, and the e-mail, Telegram or language code may raise on it; that failure is not modelled.
- ChannelData.OptionalText: a truthy non-text `region`, `audio_language`, `captions_language` or video `language_code` reads as None, where `detect_language` would raise calling `.upper()` on it (scraper/language_detection.py:45 and 49). A non-text `published_at` reads as None, so the recency gate gives "No long-form upload date" where `fromisoformat` would raise `TypeError`.
- Discovery.SubscriberCount: a boolean count is compared as 0 or 1, as Python does, but the reason text shows the number where Python shows `True` or `False`.
- Json.Values: with repeated keys it lists every member's value, where a decoded dict holds one value per key.
- Discovery.DiscoveryEngine.HandleCandidate, Enrichment.EnrichChannel: a text `title` or `description` is required by `_score_hint`; a non-text one reads as "" (see ChannelData.TextField), where `.lower()` would raise.
- Enrichment.EnrichChannel: `videos` is a sequence of mappings. A one-shot iterator, which the source would exhaust before the video batch, is not modelled, and neither is a non-mapping video, on which the long-form comprehension would raise.
- The backend session is a `Catalog` object. Commits, session failures and the SQLAlchemy models' other columns are left out.
- YoutubeSearch.Render: a list or dict id is rendered as the empty text, not as Python's `str` of it.
- `language_mode` values other than "precise" weigh 1, as in the source. The `persist` flag is declared but unused by the modelled code.
- The backend's `Setting` table, `youtube_channel.py`, `youtube_video.py`, `language_detect.py` and the frontend are not part of this model.

## Findings

| source | as written | input that shows it | evidently intended | confidence | as-written member | corrected member |
|---|---|---|---|---|---|---|
| scraper/discovery.py:121 | both payloads of `_handle_candidate` pass `emails` as a Python list, which sqlite3 cannot bind at scraper/db.py:134 | any candidate whose videos, tags and count can be read: the "accepted" or "blacklist" log entry is committed, then the upsert raises and the query ends | `emails` stored as its JSON text, as the `json.dumps([])` default of scraper/db.py:124 shows, so that the upsert succeeds | high (not executed) | Discovery.HandleAsWrittenStoresNothing | Discovery.HandleAccepted |
| scraper/enrichment.py:51 | the enrichment payload passes `emails` as a Python list | any channel whose tags can be read: the upsert raises before the video batch | `emails` stored as its JSON text, so that the upsert and the batch run | high (not executed) | Enrichment.EnrichAsWrittenWritesNothing | Enrichment.EnrichWrites |
