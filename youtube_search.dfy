/**
 * The pure parts of the backend's YouTube search (backend/scraper/youtube_search.py):
 * `_walk_for_channels`, which collects `(channelId, title, url)` from every
 * dict of the decoded `ytInitialData`, and the continuation-token lookup at the
 * end of `search_channels`. Fetching the page and cutting the JSON out of the
 * HTML are not part of this model; `data` is the decoded value (JNull for
 * Python's None).
 */
module YoutubeSearch {
  import opened Wrappers
  import opened Text
  import opened Json

  const ChannelUrlPrefix := "https://www.youtube.com/channel/"

  /** One collected tuple: the `channelId` and `title` values as found, and the url. */
  datatype Channel = Channel(id: Json, title: Json, url: Option<string>)

  /** `str(v)` inside the f-string, for the scalar values a `channelId` holds. */
  function Render(v: Json): string {
    match v
    case JStr(s) => s
    case JNum(n) => IntToString(n)
    case JBool(b) => if b then "True" else "False"
    case JNull => "None"
    case _ => ""
  }

  /** The url of a tuple: only a truthy id gets one. */
  function ChannelUrl(id: Json): (r: Option<string>)
    ensures r.Some? <==> Truthy(id)
    ensures id.JStr? && r.Some? ==> r.value == ChannelUrlPrefix + id.s
  {
    if Truthy(id) then Some(ChannelUrlPrefix + Render(id)) else None
  }

  /** What one dict contributes itself: a tuple when it holds both keys. */
  function Emit(ms: seq<Member>): (r: seq<Channel>)
    ensures |r| <= 1
    ensures r != [] <==> HasKey(ms, "channelId") && HasKey(ms, "title")
  {
    if HasKey(ms, "channelId") && HasKey(ms, "title") then
      var id := Lookup(ms, "channelId").value;
      [Channel(id, Lookup(ms, "title").value, ChannelUrl(id))]
    else []
  }

  // ---------------------------------------------------------------------------
  // The traversal order the worklist produces, as a recursive definition.

  /** The tuples of a value: a dict's own first, then its values from the last to the first. */
  function Visit(j: Json): seq<Channel>
    decreases j
  {
    match j
    case JObject(ms) => Emit(ms) + VisitMembers(ms)
    case JList(items) => VisitStack(items)
    case _ => []
  }

  /** A worklist is worked from its end: the last entry is visited first. */
  function VisitStack(items: seq<Json>): seq<Channel>
    decreases items
  {
    if items == [] then []
    else Visit(items[|items| - 1]) + VisitStack(items[..|items| - 1])
  }

  /** The values of a dict, pushed in order and so visited from the last to the first. */
  function VisitMembers(ms: seq<Member>): seq<Channel>
    decreases ms
  {
    if ms == [] then []
    else Visit(ms[|ms| - 1].value) + VisitMembers(ms[..|ms| - 1])
  }

  // ---------------------------------------------------------------------------
  // Sizes, for the termination of the worklist loop.

  function Size(j: Json): nat
    decreases j
  {
    match j
    case JObject(ms) => 1 + SizeMembers(ms)
    case JList(items) => 1 + SizeStack(items)
    case _ => 1
  }

  function SizeStack(items: seq<Json>): nat
    decreases items
  {
    if items == [] then 0 else Size(items[|items| - 1]) + SizeStack(items[..|items| - 1])
  }

  function SizeMembers(ms: seq<Member>): nat
    decreases ms
  {
    if ms == [] then 0 else Size(ms[|ms| - 1].value) + SizeMembers(ms[..|ms| - 1])
  }

  lemma StackAppend(a: seq<Json>, b: seq<Json>)
    ensures VisitStack(a + b) == VisitStack(b) + VisitStack(a)
    ensures SizeStack(a + b) == SizeStack(a) + SizeStack(b)
  {
    VisitStackAppend(a, b);
    SizeStackAppend(a, b);
  }

  lemma {:induction false} VisitStackAppend(a: seq<Json>, b: seq<Json>)
    ensures VisitStack(a + b) == VisitStack(b) + VisitStack(a)
    decreases |b|
  {
    if b == [] {
      assert a + b == a;
    } else {
      var init := b[..|b| - 1];
      VisitStackAppend(a, init);
      assert (a + b)[..|a + b| - 1] == a + init;
      assert (a + b)[|a + b| - 1] == b[|b| - 1];
    }
  }

  lemma {:induction false} SizeStackAppend(a: seq<Json>, b: seq<Json>)
    ensures SizeStack(a + b) == SizeStack(a) + SizeStack(b)
    decreases |b|
  {
    if b == [] {
      assert a + b == a;
    } else {
      var init := b[..|b| - 1];
      SizeStackAppend(a, init);
      assert (a + b)[..|a + b| - 1] == a + init;
      assert (a + b)[|a + b| - 1] == b[|b| - 1];
    }
  }

  lemma {:induction false} StackOfValues(ms: seq<Member>)
    ensures VisitStack(Values(ms)) == VisitMembers(ms)
    ensures SizeStack(Values(ms)) == SizeMembers(ms)
    decreases |ms|
  {
    if ms != [] {
      var init := ms[..|ms| - 1];
      StackOfValues(init);
      assert Values(ms)[..|ms| - 1] == Values(init);
    }
  }

  /** `_walk_for_channels`. */
  method WalkForChannels(data: Json) returns (channels: seq<Channel>)
    ensures channels == Visit(data)
  {
    channels := [];
    if !Truthy(data) {
      FalsyDataHoldsNothing(data);
      return;
    }
    var queue := [data];
    while queue != []
      invariant channels + VisitStack(queue) == Visit(data)
      decreases SizeStack(queue)
    {
      queue, channels := Step(queue, channels);
    }
  }

  /** One turn of the worklist loop: pop the last entry, collect from a dict, push what it holds. */
  method Step(queue0: seq<Json>, channels0: seq<Channel>) returns (queue: seq<Json>, channels: seq<Channel>)
    requires queue0 != []
    ensures channels + VisitStack(queue) == channels0 + VisitStack(queue0)
    ensures SizeStack(queue) < SizeStack(queue0)
  {
    channels := channels0;
    var current := queue0[|queue0| - 1];
    queue := queue0[..|queue0| - 1];
    ghost var rest := queue;
    assert SizeStack(queue0) == Size(current) + SizeStack(rest);
    assert VisitStack(queue0) == Visit(current) + VisitStack(rest);
    match current {
      case JObject(ms) =>
        if HasKey(ms, "channelId") && HasKey(ms, "title") {
          var name := Lookup(ms, "title").value;
          var channelId := Lookup(ms, "channelId").value;
          channels := channels + [Channel(channelId, name, ChannelUrl(channelId))];
        }
        queue := PushValues(queue, ms);
        StackAppend(rest, Values(ms));
        StackOfValues(ms);
        assert channels == channels0 + Emit(ms);
        assert VisitStack(queue) == VisitMembers(ms) + VisitStack(rest);
        assert VisitStack(queue0) == Emit(ms) + VisitMembers(ms) + VisitStack(rest);
        Regroup(channels0, Emit(ms), VisitMembers(ms), VisitStack(rest));
      case JList(items) =>
        StackAppend(queue, items);
        queue := queue + items;
        assert VisitStack(queue) == VisitStack(queue0);
      case _ =>
        assert VisitStack(queue) == VisitStack(queue0);
    }
  }

  lemma Regroup(a: seq<Channel>, b: seq<Channel>, c: seq<Channel>, d: seq<Channel>)
    ensures (a + b) + (c + d) == a + (b + c + d)
  {
  }

  /** `for value in current.values(): queue.append(value)`. */
  method PushValues(queue0: seq<Json>, ms: seq<Member>) returns (queue: seq<Json>)
    ensures queue == queue0 + Values(ms)
  {
    queue := queue0;
    for i := 0 to |ms|
      invariant queue == queue0 + Values(ms)[..i]
    {
      assert Values(ms)[..i + 1] == Values(ms)[..i] + [ms[i].value];
      queue := queue + [ms[i].value];
    }
    assert Values(ms)[..|ms|] == Values(ms);
  }

  /** The early return for falsy data loses nothing: such a value holds no tuple. */
  lemma FalsyDataHoldsNothing(data: Json)
    requires !Truthy(data)
    ensures Visit(data) == []
  {
    match data
    case JObject(ms) =>
    case JList(items) =>
    case _ =>
  }

  // ---------------------------------------------------------------------------
  // Independently of the order: exactly the dicts inside the value contribute.

  /** `n` is `j` or sits inside it, under list elements and dict values. */
  predicate Within(n: Json, j: Json)
    decreases j
  {
    || n == j
    || (j.JList? && exists i :: 0 <= i < |j.items| && Within(n, j.items[i]))
    || (j.JObject? && exists i :: 0 <= i < |j.members| && Within(n, j.members[i].value))
  }

  /** The tuple a dict contributes itself. */
  predicate Emits(n: Json, c: Channel) {
    n.JObject? && c in Emit(n.members)
  }

  /** A tuple is collected exactly when some dict inside the value emits it. */
  lemma {:induction false} VisitComplete(j: Json, c: Channel)
    ensures c in Visit(j) <==> exists n :: Within(n, j) && Emits(n, c)
    decreases j, 2
  {
    match j {
      case JObject(ms) => ObjectComplete(j, c);
      case JList(items) => ListComplete(j, c);
      case _ =>
    }
  }

  lemma {:induction false} ObjectComplete(j: Json, c: Channel)
    requires j.JObject?
    ensures c in Visit(j) <==> exists n :: Within(n, j) && Emits(n, c)
    decreases j, 1
  {
    var ms := j.members;
    assert Visit(j) == Emit(ms) + VisitMembers(ms);
    MembersComplete(ms, c);
    if c in VisitMembers(ms) {
      var i, n :| 0 <= i < |ms| && Within(n, ms[i].value) && Emits(n, c);
      assert Within(n, j);
    }
    if exists n :: Within(n, j) && Emits(n, c) {
      var n :| Within(n, j) && Emits(n, c);
      if n != j {
        var i := InsideObject(n, j);
        assert 0 <= i < |ms| && Within(n, ms[i].value) && Emits(n, c);
      }
    }
    if c in Emit(ms) {
      assert Within(j, j) && Emits(j, c);
    }
  }

  lemma {:induction false} ListComplete(j: Json, c: Channel)
    requires j.JList?
    ensures c in Visit(j) <==> exists n :: Within(n, j) && Emits(n, c)
    decreases j, 1
  {
    var items := j.items;
    assert Visit(j) == VisitStack(items);
    StackComplete(items, c);
    if c in VisitStack(items) {
      var i, n :| 0 <= i < |items| && Within(n, items[i]) && Emits(n, c);
      assert Within(n, j);
    }
    if exists n :: Within(n, j) && Emits(n, c) {
      var n :| Within(n, j) && Emits(n, c);
      var i := InsideList(n, j);
      assert 0 <= i < |items| && Within(n, items[i]) && Emits(n, c);
    }
  }

  /** A dict strictly inside a list sits inside one of its elements. */
  lemma InsideList(n: Json, j: Json) returns (i: nat)
    requires j.JList? && Within(n, j) && n.JObject?
    ensures i < |j.items| && Within(n, j.items[i])
  {
    i :| 0 <= i < |j.items| && Within(n, j.items[i]);
  }

  /** A value strictly inside a dict sits inside one of its values. */
  lemma InsideObject(n: Json, j: Json) returns (i: nat)
    requires j.JObject? && Within(n, j) && n != j
    ensures i < |j.members| && Within(n, j.members[i].value)
  {
    i :| 0 <= i < |j.members| && Within(n, j.members[i].value);
  }

  lemma {:induction false} StackComplete(items: seq<Json>, c: Channel)
    ensures c in VisitStack(items) <==>
              exists i, n :: 0 <= i < |items| && Within(n, items[i]) && Emits(n, c)
    decreases items, 0
  {
    if items != [] {
      var last := items[|items| - 1];
      var init := items[..|items| - 1];
      assert VisitStack(items) == Visit(last) + VisitStack(init);
      VisitComplete(last, c);
      StackComplete(init, c);
      if exists i, n :: 0 <= i < |items| && Within(n, items[i]) && Emits(n, c) {
        var i, n :| 0 <= i < |items| && Within(n, items[i]) && Emits(n, c);
        if i < |init| {
          assert init[i] == items[i];
        }
      }
      if c in VisitStack(init) {
        var i, n :| 0 <= i < |init| && Within(n, init[i]) && Emits(n, c);
        assert items[i] == init[i];
      }
    }
  }

  lemma {:induction false} MembersComplete(ms: seq<Member>, c: Channel)
    ensures c in VisitMembers(ms) <==>
              exists i, n :: 0 <= i < |ms| && Within(n, ms[i].value) && Emits(n, c)
    decreases ms, 0
  {
    if ms != [] {
      var last := ms[|ms| - 1];
      var init := ms[..|ms| - 1];
      VisitComplete(last.value, c);
      MembersComplete(init, c);
      if exists i, n :: 0 <= i < |ms| && Within(n, ms[i].value) && Emits(n, c) {
        var i, n :| 0 <= i < |ms| && Within(n, ms[i].value) && Emits(n, c);
        if i < |init| {
          assert init[i] == ms[i];
        }
      }
      if c in VisitMembers(init) {
        var i, n :| 0 <= i < |init| && Within(n, init[i].value) && Emits(n, c);
        assert ms[i] == init[i];
      }
    }
  }

  // ---------------------------------------------------------------------------
  // The continuation token at the end of `search_channels`. Any missing key,
  // an index into an empty list, or an operation on a value of the wrong type
  // raises inside the `try`, and the token is then None (JNull).

  const ContinuationKey := "continuationItemRenderer"

  /** `j[k1][k2]...`: each step needs a dict holding the key. */
  function Path(j: Json, keys: seq<string>): (r: Option<Json>)
    ensures keys == [] ==> r == Some(j)
    decreases |keys|
  {
    if keys == [] then Some(j)
    else
      match Get(j, keys[0])
      case None => None
      case Some(v) => Path(v, keys[1..])
  }

  /** `[0]`: only a non-empty list answers (a dict has no key 0, a string's first character has no keys). */
  function First(j: Json): Option<Json> {
    if j.JList? && j.items != [] then Some(j.items[0]) else None
  }

  /**
   * The list of blocks the loop runs over. Iterating anything else ends with
   * no token: a dict yields its keys, on which the subscript raises; a string
   * yields single characters, which never contain the key; scalars raise.
   */
  function Blocks(data: Json): Option<seq<Json>> {
    match Path(data, ["contents", "twoColumnSearchResultsRenderer", "primaryContents", "sectionListRenderer", "contents"])
    case None => None
    case Some(section) =>
      match First(section)
      case None => None
      case Some(item) =>
        match Path(item, ["itemSectionRenderer", "contents"])
        case Some(JList(blocks)) => Some(blocks)
        case _ => None
  }

  /**
   * Whether the loop stops at this block: `"continuationItemRenderer" in block`
   * holds (a dict key, a substring of a string, an element of a list), or the
   * test raises (numbers, booleans, None).
   */
  predicate Decisive(b: Json) {
    match b
    case JObject(ms) => HasKey(ms, ContinuationKey)
    case JStr(s) => Contains(s, ContinuationKey)
    case JList(items) => JStr(ContinuationKey) in items
    case _ => true
  }

  /** The token read from the deciding block: the four-key path, or None when it cannot be followed. */
  function BlockToken(b: Json): Json {
    Path(b, [ContinuationKey, "continuationEndpoint", "continuationCommand", "token"]).GetOr(JNull)
  }

  /** The continuation lookup of `search_channels`. */
  method FindContinuation(data: Json) returns (continuation: Json)
    ensures Blocks(data).None? ==> continuation == JNull
    // no block decides: no token
    ensures Blocks(data).Some? && (forall i :: 0 <= i < |Blocks(data).value| ==> !Decisive(Blocks(data).value[i]))
            ==> continuation == JNull
    // otherwise the first deciding block gives the token
    ensures Blocks(data).Some? ==>
              forall i :: 0 <= i < |Blocks(data).value| && Decisive(Blocks(data).value[i])
                          && (forall k :: 0 <= k < i ==> !Decisive(Blocks(data).value[k]))
                          ==> continuation == BlockToken(Blocks(data).value[i])
  {
    var blocks := Blocks(data);
    if blocks.None? {
      return JNull;
    }
    continuation := ScanBlocks(blocks.value);
  }

  /** The loop over the blocks: the first deciding block gives the token, and no deciding block gives None. */
  method ScanBlocks(contents: seq<Json>) returns (continuation: Json)
    ensures (forall i :: 0 <= i < |contents| ==> !Decisive(contents[i])) ==> continuation == JNull
    ensures forall i :: 0 <= i < |contents| && Decisive(contents[i]) && (forall k :: 0 <= k < i ==> !Decisive(contents[k]))
                        ==> continuation == BlockToken(contents[i])
  {
    continuation := JNull;
    var i := 0;
    while i < |contents|
      invariant 0 <= i <= |contents|
      invariant forall k :: 0 <= k < i ==> !Decisive(contents[k])
      invariant continuation == JNull
    {
      var block := contents[i];
      match block {
        case JObject(ms) =>
          if HasKey(ms, ContinuationKey) {
            continuation := BlockToken(block);
            break;
          }
        case JStr(s) =>
          if Contains(s, ContinuationKey) {
            // a string cannot be subscripted with a string: TypeError
            break;
          }
        case JList(items) =>
          if JStr(ContinuationKey) in items {
            // a list cannot be subscripted with a string: TypeError
            break;
          }
        case _ =>
          // `in` on a number, a boolean or None: TypeError
          break;
      }
      i := i + 1;
    }
  }

  /** Only a dict block holding the whole path yields a token. */
  lemma TokenNeedsFullPath(b: Json)
    requires BlockToken(b) != JNull
    ensures b.JObject? && HasKey(b.members, ContinuationKey)
  {
    assert Get(b, ContinuationKey).Some?;
  }
}
