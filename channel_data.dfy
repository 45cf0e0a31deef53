/**
 * How the discovery step (scraper/discovery.py) and the enrichment step
 * (scraper/enrichment.py) read a channel mapping and its videos: which videos
 * are long-form, which texts are searched, and the signals and snapshot
 * values built from them.
 *
 * A mapping is a `Row`. `m.get(key)` is `GetOrNull`; `m.get(key, "")` on a
 * text field is `TextField(m, key)`, which is None where the value is None and
 * hence falsy for the extractors.
 */
module ChannelData {
  import opened Wrappers
  import opened Json
  import opened Db
  import opened LanguageDetection
  import opened EmailParser

  /**
   * What a step takes from outside the program: the store's clock, the clock
   * of the recency gate, `datetime.fromisoformat`, the e-mail pattern's
   * matches in a text, and the iteration order of the candidate-language set.
   */
  datatype World = World(
    now: string,
    clock: int,
    parse: string -> Option<int>,
    matches: string -> seq<EmailMatch>,
    order: seq<string>)

  /** `m.get(key, "")` of a text field. */
  function TextField(m: Row, key: string): (r: Option<string>)
    ensures key !in m ==> r == Some("")
  {
    if key !in m then Some("")
    else match m[key]
      case JStr(s) => Some(s)
      case _ => None
  }

  /** `m.get(key)` of an optional text: None when absent or not a text. */
  function OptionalText(m: Row, key: string): Option<string> {
    if key in m && m[key].JStr? then Some(m[key].s) else None
  }

  /** A text or None as a stored value. */
  function TextOrNull(x: Option<string>): Json {
    if x.Some? then JStr(x.value) else JNull
  }

  /** Neither `is_short` nor `is_live` is truthy. */
  predicate IsLongForm(v: Row) {
    !Truthy(GetOrNull(v, "is_short")) && !Truthy(GetOrNull(v, "is_live"))
  }

  /** `[v for v in videos if not v.get("is_short") and not v.get("is_live")]`. */
  function LongForm(videos: seq<Row>): (r: seq<Row>)
    ensures |r| <= |videos|
    ensures forall i :: 0 <= i < |r| ==> IsLongForm(r[i])
  {
    if videos == [] then []
    else
      var init := LongForm(videos[..|videos| - 1]);
      if IsLongForm(videos[|videos| - 1]) then init + [videos[|videos| - 1]] else init
  }

  /**
   * Iterating `value` and calling `.get` on each item raises: the value is
   * not iterable (None, a number, a boolean), or an item has no `.get` (a
   * character of a non-empty text, a key of a non-empty dict, a list item
   * that is not a dict).
   */
  predicate VideosRaise(value: Json) {
    match value
    case JList(items) => exists i :: 0 <= i < |items| && !items[i].JObject?
    case JStr(s) => s != ""
    case JObject(ms) => ms != []
    case _ => true
  }

  /**
   * `m.get("videos", [])` as the long-form filter reads it: the list of
   * mappings, or None where reading it raises. An empty text or dict reads
   * as no videos.
   */
  function Videos(m: Row): (r: Option<seq<Row>>)
    ensures r.None? <==> "videos" in m && VideosRaise(m["videos"])
    ensures r.Some? && "videos" in m && m["videos"].JList? ==>
              var items := m["videos"].items;
              |r.value| == |items| && forall i :: 0 <= i < |items| ==> items[i].JObject? && r.value[i] == ToRow(items[i].members)
    ensures r.Some? && !("videos" in m && m["videos"].JList?) ==> r.value == []
  {
    if "videos" !in m then Some([])
    else
      match m["videos"]
      case JList(items) =>
        if forall i :: 0 <= i < |items| ==> items[i].JObject? then
          Some(seq(|items|, i requires 0 <= i < |items| => ToRow(items[i].members)))
        else None
      case JStr(s) => if s == "" then Some([]) else None
      case JObject(ms) => if ms == [] then Some([]) else None
      case _ => None
  }

  /** `[v.get("description", "") for v in videos]`. */
  function Descriptions(videos: seq<Row>): (r: seq<Option<string>>)
    ensures |r| == |videos|
    ensures forall i :: 0 <= i < |videos| ==> r[i] == TextField(videos[i], "description")
  {
    seq(|videos|, i requires 0 <= i < |videos| => TextField(videos[i], "description"))
  }

  /** The blobs searched for a Telegram handle: description, about, then the long-form descriptions. */
  function TelegramBlobs(m: Row, longForm: seq<Row>): seq<Option<string>> {
    [TextField(m, "description"), TextField(m, "about")] + Descriptions(longForm)
  }

  /** `[v.get("language_code") for v in videos if v.get("language_code")]`. */
  function LanguageCodes(videos: seq<Row>): (r: seq<string>)
    ensures |r| <= |videos|
    ensures forall i :: 0 <= i < |r| ==> r[i] != ""
  {
    if videos == [] then []
    else
      var init := LanguageCodes(videos[..|videos| - 1]);
      var code := OptionalText(videos[|videos| - 1], "language_code");
      if code.Some? && code.value != "" then init + [code.value] else init
  }

  /** The first five long-form videos, or all of them when fewer. */
  function FirstFive(longForm: seq<Row>): (r: seq<Row>)
    ensures |r| <= 5 && r <= longForm
  {
    if |longForm| <= 5 then longForm else longForm[..5]
  }

  /**
   * Iterating `tags` and lower-casing each item raises: the value is not
   * iterable (None, a number, a boolean), or a list item is not a text.
   */
  predicate TagsRaise(value: Json) {
    match value
    case JList(items) => exists i :: 0 <= i < |items| && !items[i].JStr?
    case JStr(_) => false
    case JObject(_) => false
    case _ => true
  }

  /**
   * `m.get("tags", [])` as `detect_language` iterates it, or None where that
   * raises: a list gives its texts, a text its characters one by one, and a
   * dict its keys.
   */
  function Tags(m: Row): (r: Option<seq<string>>)
    ensures "tags" !in m ==> r == Some([])
    ensures r.None? <==> "tags" in m && TagsRaise(m["tags"])
    ensures r.Some? && "tags" in m && m["tags"].JList? ==>
              var items := m["tags"].items;
              |r.value| == |items| && forall i :: 0 <= i < |items| ==> items[i] == JStr(r.value[i])
    ensures r.Some? && "tags" in m && m["tags"].JStr? ==>
              var s := m["tags"].s;
              |r.value| == |s| && forall i :: 0 <= i < |s| ==> r.value[i] == [s[i]]
    ensures r.Some? && "tags" in m && m["tags"].JObject? ==>
              forall k :: k in r.value <==> HasKey(m["tags"].members, k)
  {
    if "tags" !in m then Some([])
    else
      match m["tags"]
      case JList(items) =>
        if forall i :: 0 <= i < |items| ==> items[i].JStr? then
          Some(seq(|items|, i requires 0 <= i < |items| => if items[i].JStr? then items[i].s else ""))
        else None
      case JStr(s) => Some(seq(|s|, i requires 0 <= i < |s| => [s[i]]))
      case JObject(ms) =>
        assert forall k :: k in Keys(ms) <==> HasKey(ms, k) by {
          forall k
            ensures k in Keys(ms) <==> HasKey(ms, k)
          {
            KeysMembers(ms, k);
          }
        }
        Some(Keys(ms))
      case _ => None
  }

  /** The arguments passed to `detect_language`. */
  function SignalsOf(m: Row, tags: seq<string>, longForm: seq<Row>, mode: string): (sig: Signals)
    ensures sig.tags == tags
    ensures sig.videoLanguages == Some(LanguageCodes(FirstFive(longForm)))
    ensures sig.channelRegion == OptionalText(m, "region")
  {
    Signals(
      TextField(m, "title").GetOr(""),
      TextField(m, "description").GetOr(""),
      tags,
      OptionalText(m, "region"),
      OptionalText(m, "audio_language"),
      OptionalText(m, "captions_language"),
      Some(LanguageCodes(FirstFive(longForm))),
      mode)
  }

  /** `longform_videos[0].get("published_at") if longform_videos else None`. */
  function LastLongFormUpload(longForm: seq<Row>): (r: Option<string>)
    ensures longForm == [] ==> r.None?
  {
    if longForm == [] then None else OptionalText(longForm[0], "published_at")
  }

  /** A list of addresses as a stored value. */
  function EmailList(emails: seq<string>): Json {
    JList(seq(|emails|, i requires 0 <= i < |emails| => JStr(emails[i])))
  }

  // ---------------------------------------------------------------------------

  /** The long-form videos are exactly the videos flagged neither short nor live. */
  lemma {:induction false} LongFormIsOrderedFilter(videos: seq<Row>)
    ensures forall v :: v in LongForm(videos) <==> v in videos && IsLongForm(v)
  {
    if videos != [] {
      var init := videos[..|videos| - 1];
      LongFormIsOrderedFilter(init);
      assert videos == init + [videos[|videos| - 1]];
    }
  }

  /** The filter keeps order and multiplicity: it distributes over concatenation. */
  lemma {:induction false} LongFormAppend(a: seq<Row>, b: seq<Row>)
    ensures LongForm(a + b) == LongForm(a) + LongForm(b)
    decreases |b|
  {
    if b == [] {
      assert a + b == a;
    } else {
      var n := |b| - 1;
      var init := b[..n];
      LongFormAppend(a, init);
      assert (a + b)[..|a + b| - 1] == a + init;
      assert (a + b)[|a + b| - 1] == b[n];
      assert LongForm(b) == LongForm(init) + (if IsLongForm(b[n]) then [b[n]] else []);
      assert LongForm(a + b) == LongForm(a + init) + (if IsLongForm(b[n]) then [b[n]] else []);
    }
  }

  /** One video is kept exactly when it is long-form. */
  lemma LongFormSingle(v: Row)
    ensures LongForm([v]) == if IsLongForm(v) then [v] else []
  {
    assert [v][..0] == [];
  }

  /** Without a long-form video the filter keeps nothing. */
  lemma {:induction false} LongFormEmpty(videos: seq<Row>)
    requires forall i :: 0 <= i < |videos| ==> !IsLongForm(videos[i])
    ensures LongForm(videos) == []
  {
    if videos != [] {
      LongFormEmpty(videos[..|videos| - 1]);
    }
  }

  /**
   * The first long-form video, whose `published_at` becomes the snapshot's
   * last upload, is the earliest video in the list that is long-form.
   */
  lemma {:induction false} LongFormFirst(videos: seq<Row>, j: nat)
    requires j < |videos| && IsLongForm(videos[j])
    requires forall k :: 0 <= k < j ==> !IsLongForm(videos[k])
    ensures LongForm(videos) != [] && LongForm(videos)[0] == videos[j]
    decreases |videos|
  {
    var n := |videos| - 1;
    var init := videos[..n];
    if j < n {
      LongFormFirst(init, j);
    } else {
      forall k | 0 <= k < |init|
        ensures !IsLongForm(init[k])
      {
        assert init[k] == videos[k];
      }
      LongFormEmpty(init);
    }
  }

  /** The codes passed on are those of the first five long-form videos that have a non-empty one, in order. */
  lemma {:induction false} LanguageCodesMembers(videos: seq<Row>, code: string)
    ensures code in LanguageCodes(videos)
      <==> code != "" && exists i :: 0 <= i < |videos| && OptionalText(videos[i], "language_code") == Some(code)
  {
    if videos != [] {
      var init := videos[..|videos| - 1];
      LanguageCodesMembers(init, code);
      if exists i :: 0 <= i < |init| && OptionalText(init[i], "language_code") == Some(code) {
        var i :| 0 <= i < |init| && OptionalText(init[i], "language_code") == Some(code);
        assert videos[i] == init[i];
      }
      if exists i :: 0 <= i < |videos| && OptionalText(videos[i], "language_code") == Some(code) {
        var i :| 0 <= i < |videos| && OptionalText(videos[i], "language_code") == Some(code);
        if i < |init| {
          assert init[i] == videos[i];
        }
      }
    }
  }
}
