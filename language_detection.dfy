/**
 * The weighted language detector (scraper/language_detection.py).
 *
 * Scores live in a Counter: a dict from language code to count that keeps
 * first-insertion order, which decides `most_common(1)` between equal counts.
 * The four candidate codes come from a Python set, whose iteration order
 * depends on string hashing; `order` stands for that order and the results
 * below hold for every order.
 */
module LanguageDetection {
  import opened Wrappers
  import opened Text

  /** The candidate languages, as a set in the source. */
  const Candidates: set<string> := {"HI", "EN", "DE", "TR"}

  /** `LANGUAGE_HINTS[lang]`, or no hint for an unknown code. */
  function Hints(lang: string): seq<string> {
    if lang == "HI" then ["hindi", "india", "हिंदी"]
    else if lang == "EN" then ["english", "uk", "us", "international"]
    else if lang == "DE" then ["german", "deutsch"]
    else if lang == "TR" then ["turkish", "türkçe"]
    else []
  }

  predicate Distinct(xs: seq<string>) {
    forall i, j :: 0 <= i < j < |xs| ==> xs[i] != xs[j]
  }

  /** How many of `keywords` occur in `hay`. */
  function CountFound(keywords: seq<string>, hay: string): nat {
    if keywords == [] then 0
    else (if Contains(hay, keywords[0]) then 1 else 0) + CountFound(keywords[1..], hay)
  }

  /** `_score_hint`: how many hint words of `lang` occur in the lower-cased haystack. */
  function ScoreHint(haystack: string, lang: string): nat {
    CountFound(Hints(lang), Lower(haystack))
  }

  /** The keywords that occur in `hay`, as a set. */
  function FoundSet(keywords: seq<string>, hay: string): set<string> {
    set k | k in keywords && Contains(hay, k)
  }

  lemma {:induction false} CountFoundIsCardinality(keywords: seq<string>, hay: string)
    requires Distinct(keywords)
    ensures CountFound(keywords, hay) == |FoundSet(keywords, hay)|
  {
    if keywords == [] {
      assert FoundSet(keywords, hay) == {};
    } else {
      var rest := keywords[1..];
      assert Distinct(rest);
      CountFoundIsCardinality(rest, hay);
      FoundSetCons(keywords, hay);
    }
  }

  lemma FoundSetCons(keywords: seq<string>, hay: string)
    requires keywords != [] && Distinct(keywords)
    ensures keywords[0] !in FoundSet(keywords[1..], hay)
    ensures FoundSet(keywords, hay)
            == FoundSet(keywords[1..], hay) + (if Contains(hay, keywords[0]) then {keywords[0]} else {})
  {
  }

  /** The score counts the distinct hint words found; an unknown language scores 0. */
  lemma ScoreHintCountsDistinctHints(haystack: string, lang: string)
    ensures ScoreHint(haystack, lang) == |FoundSet(Hints(lang), Lower(haystack))|
    ensures lang !in Candidates ==> ScoreHint(haystack, lang) == 0
    ensures ScoreHint(haystack, lang) <= |Hints(lang)|
  {
    CountFoundIsCardinality(Hints(lang), Lower(haystack));
    CountFoundBounded(Hints(lang), Lower(haystack));
  }

  lemma {:induction false} CountFoundBounded(keywords: seq<string>, hay: string)
    ensures CountFound(keywords, hay) <= |keywords|
  {
    if keywords != [] {
      CountFoundBounded(keywords[1..], hay);
    }
  }

  /** A code other than the four candidates has no hints and so no keyword score. */
  lemma HintScoreOutsideCandidates(sig: Signals, lang: string)
    requires lang !in Candidates
    ensures HintScore(sig, lang) == 0
  {
    TagScoreOutsideCandidates(sig.tags, lang);
  }

  lemma {:induction false} TagScoreOutsideCandidates(tags: seq<string>, lang: string)
    requires lang !in Candidates
    ensures TagScore(tags, lang) == 0
  {
    if tags != [] {
      TagScoreOutsideCandidates(tags[1..], lang);
    }
  }

  /** `sum(_score_hint(tag, lang) for tag in tags)`. */
  function TagScore(tags: seq<string>, lang: string): nat {
    if tags == [] then 0 else ScoreHint(tags[0], lang) + TagScore(tags[1..], lang)
  }

  /** The arguments of `detect_language`; an absent optional text is None. */
  datatype Signals = Signals(
    title: string,
    description: string,
    tags: seq<string>,
    channelRegion: Option<string>,
    audioLanguage: Option<string>,
    captionsLanguage: Option<string>,
    videoLanguages: Option<seq<string>>,
    mode: string)

  /** The keyword score of a candidate language: title, description and every tag. */
  function HintScore(sig: Signals, lang: string): nat {
    ScoreHint(sig.title, lang) + ScoreHint(sig.description, lang) + TagScore(sig.tags, lang)
  }

  /** Bonus per metadata signal: 2 in mode "precise", 1 in any other mode. */
  function Weight(mode: string): nat {
    if mode == "precise" then 2 else 1
  }

  /** The codes that receive a bonus, upper-cased, in the order the source adds them. */
  function BonusCodes(sig: Signals): seq<string> {
    (if Present(sig.channelRegion) then [Upper(sig.channelRegion.value)] else [])
    + (if Present(sig.audioLanguage) then [Upper(sig.audioLanguage.value)] else [])
    + (if Present(sig.captionsLanguage) then [Upper(sig.captionsLanguage.value)] else [])
    + UpperAll(sig.videoLanguages.GetOr([]))
  }

  function UpperAll(codes: seq<string>): (r: seq<string>)
    ensures |r| == |codes|
    ensures forall i :: 0 <= i < |codes| ==> r[i] == Upper(codes[i])
  {
    if codes == [] then [] else [Upper(codes[0])] + UpperAll(codes[1..])
  }

  /** `w` for every code in `codes` equal to `k`: the bonus `k` collects from those signals. */
  function Bonus(k: string, codes: seq<string>, w: nat): nat {
    if codes == [] then 0 else (if codes[0] == k then w else 0) + Bonus(k, codes[1..], w)
  }

  // ---------------------------------------------------------------------------
  // Reference definition, in closed form.

  /**
   * The final score of a code: its keyword hits (none for a code without
   * hints), plus one bonus per signal naming it.
   */
  function Score(sig: Signals, k: string): nat {
    HintScore(sig, k) + Bonus(k, BonusCodes(sig), Weight(sig.mode))
  }

  /** `keys` followed by every code of `codes` not seen before, in first-seen order. */
  function AddNew(keys: seq<string>, codes: seq<string>): seq<string>
    decreases |codes|
  {
    if codes == [] then keys
    else if codes[0] in keys then AddNew(keys, codes[1..])
    else AddNew(keys + [codes[0]], codes[1..])
  }

  /** The Counter's keys in insertion order: the candidates, then the new bonus codes. */
  function ScoreKeys(sig: Signals, order: seq<string>): seq<string> {
    AddNew(order, BonusCodes(sig))
  }

  /** A valid stand-in for the set's iteration order: the four candidates, each once. */
  predicate IsCandidateOrder(order: seq<string>) {
    && Distinct(order)
    && (forall c :: c in order ==> c in Candidates)
    && "HI" in order && "EN" in order && "DE" in order && "TR" in order
  }

  /** The Counter the source builds, in closed form: every key with its reference score. */
  function Expected(sig: Signals, order: seq<string>): (c: Counter)
    ensures c.keys == ScoreKeys(sig, order)
    ensures forall k :: k in c.counts <==> k in c.keys
    ensures forall k :: k in c.counts ==> c.counts[k] == Score(sig, k)
  {
    var keys := ScoreKeys(sig, order);
    Counter(keys, map k | k in keys :: Score(sig, k))
  }

  /** The detected language: the first key with the largest score, or None when that score is 0. */
  function Detect(sig: Signals, order: seq<string>): Option<string>
    requires IsCandidateOrder(order)
  {
    AddNewMembers(order, BonusCodes(sig), "HI");
    TopLanguage(Expected(sig, order))
  }

  /** Scores are never negative, so "no positive score anywhere" is the same as "all scores are 0". */
  lemma DetectNoneIffAllZero(sig: Signals, order: seq<string>)
    requires IsCandidateOrder(order)
    ensures Detect(sig, order).None? <==> forall k :: Score(sig, k) == 0
  {
    AddNewMembers(order, BonusCodes(sig), "HI");
    var c := Expected(sig, order);
    var top := MostCommon(c);
    if c.counts[top] == 0 {
      forall k
        ensures Score(sig, k) == 0
      {
        ScoreOutsideKeys(sig, order, k);
      }
    }
  }

  /** A detected language has a positive score that no other code exceeds. */
  lemma DetectIsMaximal(sig: Signals, order: seq<string>)
    requires IsCandidateOrder(order)
    ensures Detect(sig, order).Some? ==>
              && Score(sig, Detect(sig, order).value) > 0
              && forall k :: Score(sig, k) <= Score(sig, Detect(sig, order).value)
  {
    AddNewMembers(order, BonusCodes(sig), "HI");
    var top := MostCommon(Expected(sig, order));
    forall k
      ensures Score(sig, k) <= Score(sig, top)
    {
      ScoreOutsideKeys(sig, order, k);
    }
  }

  /** The winner is one of the candidates or a code some metadata signal named. */
  lemma DetectWinnerSource(sig: Signals, order: seq<string>)
    requires IsCandidateOrder(order)
    ensures Detect(sig, order).Some? ==>
              Detect(sig, order).value in Candidates || Detect(sig, order).value in BonusCodes(sig)
  {
    AddNewMembers(order, BonusCodes(sig), "HI");
    var top := MostCommon(Expected(sig, order));
    AddNewMembers(order, BonusCodes(sig), top);
  }

  /** A code outside the four candidates wins only with a score strictly above every candidate's. */
  lemma DetectNonCandidateBeatsCandidates(sig: Signals, order: seq<string>)
    requires IsCandidateOrder(order)
    ensures Detect(sig, order).Some? && Detect(sig, order).value !in Candidates ==>
              forall c :: c in Candidates ==> Score(sig, c) < Score(sig, Detect(sig, order).value)
  {
    var e := Expected(sig, order);
    AddNewMembers(order, BonusCodes(sig), "HI");
    var top := MostCommon(e);
    if top !in Candidates {
      AddNewPrefix(order, BonusCodes(sig));
      CandidatesInOrder(order);
      forall c | c in Candidates
        ensures Score(sig, c) < Score(sig, top)
      {
        var i :| 0 <= i < |order| && order[i] == c;
        KeyBeforeOutsider(e, order, i);
      }
    }
  }

  lemma CandidatesInOrder(order: seq<string>)
    requires IsCandidateOrder(order)
    ensures forall c :: c in Candidates ==> exists i :: 0 <= i < |order| && order[i] == c
  {
    forall c | c in Candidates
      ensures exists i :: 0 <= i < |order| && order[i] == c
    {
      assert c in order;
    }
  }

  /** A key among the first ones counts less than a most common key that comes later. */
  lemma KeyBeforeOutsider(c: Counter, prefix: seq<string>, i: nat)
    requires c.keys != [] && forall k :: k in c.keys ==> k in c.counts
    requires |prefix| <= |c.keys| && c.keys[..|prefix|] == prefix && i < |prefix|
    requires MostCommon(c) !in prefix
    ensures c.counts[prefix[i]] < c.counts[MostCommon(c)]
  {
    assert c.keys[i] == prefix[i];
    assert c.keys[..i + 1] == prefix[..i + 1];
    if c.counts[c.keys[i]] >= c.counts[MostCommon(c)] {
      MostCommonIsFirst(c, i);
    }
  }

  /** With no text, no tags and no metadata, nothing is detected. */
  lemma DetectNothingFromNothing(order: seq<string>, mode: string)
    requires IsCandidateOrder(order)
    ensures Detect(Signals("", "", [], None, None, None, None, mode), order) == None
  {
    var sig := Signals("", "", [], None, None, None, None, mode);
    assert BonusCodes(sig) == [];
    forall k
      ensures Score(sig, k) == 0
    {
      EmptyHaystackScoresZero(k);
    }
    DetectNoneIffAllZero(sig, order);
  }

  /** A region code alone decides, upper-cased, even though it is not a candidate. */
  lemma DetectRegionOnly(order: seq<string>, mode: string)
    requires IsCandidateOrder(order)
    ensures Detect(Signals("", "", [], Some("fr"), None, None, None, mode), order) == Some("FR")
  {
    var sig := Signals("", "", [], Some("fr"), None, None, None, mode);
    assert Upper("fr") == "FR";
    assert BonusCodes(sig) == ["FR"];
    forall k | k != "FR"
      ensures Score(sig, k) == 0
    {
      EmptyHaystackScoresZero(k);
      BonusAbsent(k, BonusCodes(sig), Weight(mode));
    }
    EmptyHaystackScoresZero("FR");
    assert Score(sig, "FR") > 0;
    DetectNoneIffAllZero(sig, order);
    DetectIsMaximal(sig, order);
  }

  lemma EmptyHaystackScoresZero(lang: string)
    ensures ScoreHint("", lang) == 0
  {
    assert Lower("") == "";
    NothingFoundInEmpty(Hints(lang));
  }

  lemma {:induction false} NothingFoundInEmpty(keywords: seq<string>)
    requires forall i :: 0 <= i < |keywords| ==> keywords[i] != ""
    ensures CountFound(keywords, "") == 0
  {
    if keywords != [] {
      NothingFoundInEmpty(keywords[1..]);
    }
  }

  /** A code that is neither a candidate nor a bonus code scores 0. */
  lemma ScoreOutsideKeys(sig: Signals, order: seq<string>, k: string)
    requires IsCandidateOrder(order)
    ensures k !in ScoreKeys(sig, order) ==> Score(sig, k) == 0
  {
    AddNewMembers(order, BonusCodes(sig), k);
    if k !in ScoreKeys(sig, order) {
      BonusAbsent(k, BonusCodes(sig), Weight(sig.mode));
      CandidatesInOrder(order);
      HintScoreOutsideCandidates(sig, k);
    }
  }

  /** The keys keep their order and only grow at the end. */
  lemma {:induction false} AddNewPrefix(keys: seq<string>, codes: seq<string>)
    ensures |keys| <= |AddNew(keys, codes)| && AddNew(keys, codes)[..|keys|] == keys
    decreases |codes|
  {
    if codes != [] {
      if codes[0] in keys {
        AddNewPrefix(keys, codes[1..]);
      } else {
        AddNewPrefix(keys + [codes[0]], codes[1..]);
        assert (keys + [codes[0]])[..|keys|] == keys;
      }
    }
  }

  /** The most common key occurs no later than any key with a count at least as large. */
  lemma {:induction false} MostCommonIsFirst(c: Counter, i: nat)
    requires c.keys != [] && forall k :: k in c.keys ==> k in c.counts
    requires i < |c.keys| && c.counts[c.keys[i]] >= c.counts[MostCommon(c)]
    ensures MostCommon(c) in c.keys[..i + 1]
    decreases |c.keys|
  {
    if |c.keys| > 1 && i > 0 {
      var rest := Counter(c.keys[1..], c.counts);
      var m := MostCommon(rest);
      if c.counts[c.keys[0]] < c.counts[m] {
        assert c.keys[i] == rest.keys[i - 1];
        MostCommonIsFirst(rest, i - 1);
        assert rest.keys[..i] == c.keys[1..i + 1];
      }
    }
  }

  // ---------------------------------------------------------------------------
  // The Counter and the method.

  datatype Counter = Counter(keys: seq<string>, counts: map<string, int>)

  /** `counter[key] += amount`: a missing key counts as 0 and is appended. */
  function Bump(c: Counter, key: string, amount: int): Counter {
    if key in c.counts then Counter(c.keys, c.counts[key := c.counts[key] + amount])
    else Counter(c.keys + [key], c.counts[key := amount])
  }

  /** `counter.most_common(1)[0][0]`: the first key, in insertion order, with the largest count. */
  function MostCommon(c: Counter): (top: string)
    requires c.keys != [] && forall k :: k in c.keys ==> k in c.counts
    ensures top in c.keys
    ensures forall k :: k in c.keys ==> c.counts[k] <= c.counts[top]
    decreases |c.keys|
  {
    if |c.keys| == 1 then c.keys[0]
    else
      var m := MostCommon(Counter(c.keys[1..], c.counts));
      if c.counts[c.keys[0]] >= c.counts[m] then c.keys[0] else m
  }

  /** `detect_language`. */
  method DetectLanguage(sig: Signals, order: seq<string>) returns (lang: Option<string>)
    requires IsCandidateOrder(order)
    ensures lang == Detect(sig, order)
  {
    var scores := KeywordScores(sig, order);
    scores := InferredBonuses(scores, sig, order);
    BonusPrefixThree(sig);
    if sig.videoLanguages.Some? && sig.videoLanguages.value != [] {
      scores := VideoBonuses(scores, sig, order, BonusPrefix(sig, 3), sig.videoLanguages.value);
    } else {
      assert BonusPrefix(sig, 3) + UpperAll([]) == BonusPrefix(sig, 3);
    }
    TalliedFinal(scores, sig, order);
    lang := TopLanguage(scores);
  }

  /** The second loop of `detect_language`: one bonus per present region, audio and captions code. */
  method InferredBonuses(scores0: Counter, sig: Signals, order: seq<string>) returns (scores: Counter)
    requires Tallied(scores0, sig, order, [])
    ensures Tallied(scores, sig, order, BonusPrefix(sig, 3))
  {
    scores := scores0;
    var weight := Weight(sig.mode);
    ghost var done: seq<string> := [];
    var inferred := [sig.channelRegion, sig.audioLanguage, sig.captionsLanguage];
    for i := 0 to 3
      invariant done == BonusPrefix(sig, i)
      invariant Tallied(scores, sig, order, done)
    {
      if inferred[i].Some? && inferred[i].value != "" {
        var code := Upper(inferred[i].value);
        BumpKeepsTally(scores, sig, order, done, code);
        scores := Bump(scores, code, weight);
        done := done + [code];
      }
    }
  }

  /** The third loop of `detect_language`: one bonus per language of the latest videos. */
  method VideoBonuses(scores0: Counter, sig: Signals, order: seq<string>, ghost done0: seq<string>, codes: seq<string>)
    returns (scores: Counter)
    requires Tallied(scores0, sig, order, done0)
    ensures Tallied(scores, sig, order, done0 + UpperAll(codes))
  {
    scores := scores0;
    var weight := Weight(sig.mode);
    ghost var done := done0;
    for i := 0 to |codes|
      invariant done == done0 + UpperAll(codes[..i])
      invariant Tallied(scores, sig, order, done)
    {
      var code := Upper(codes[i]);
      BumpKeepsTally(scores, sig, order, done, code);
      scores := Bump(scores, code, weight);
      UpperAllSnoc(codes, i);
      done := done + [code];
    }
    assert codes[..|codes|] == codes;
  }

  /** The first loop of `detect_language`: keyword hits of every candidate, in set order. */
  method KeywordScores(sig: Signals, order: seq<string>) returns (scores: Counter)
    requires IsCandidateOrder(order)
    ensures Tallied(scores, sig, order, [])
  {
    scores := Counter([], map[]);
    for i := 0 to |order|
      invariant KeywordTallied(scores, sig, order, i)
    {
      var lang := order[i];
      KeywordStep(scores, sig, order, i);
      scores := Bump(scores, lang, ScoreHint(sig.title, lang));
      scores := Bump(scores, lang, ScoreHint(sig.description, lang));
      scores := Bump(scores, lang, TagScore(sig.tags, lang));
    }
    KeywordPhaseTallied(scores, sig, order);
  }

  /** The bonus codes contributed by the first `n` of region, audio and captions. */
  function BonusPrefix(sig: Signals, n: nat): seq<string>
    requires n <= 3
  {
    var inferred := [sig.channelRegion, sig.audioLanguage, sig.captionsLanguage];
    if n == 0 then []
    else BonusPrefix(sig, n - 1) + (if Present(inferred[n - 1]) then [Upper(inferred[n - 1].value)] else [])
  }

  lemma BonusPrefixThree(sig: Signals)
    ensures BonusPrefix(sig, 3) + UpperAll(sig.videoLanguages.GetOr([])) == BonusCodes(sig)
  {
    assert BonusPrefix(sig, 1) == if Present(sig.channelRegion) then [Upper(sig.channelRegion.value)] else [];
    assert BonusPrefix(sig, 2) == BonusPrefix(sig, 1) + if Present(sig.audioLanguage) then [Upper(sig.audioLanguage.value)] else [];
    assert BonusPrefix(sig, 3) == BonusPrefix(sig, 2) + if Present(sig.captionsLanguage) then [Upper(sig.captionsLanguage.value)] else [];
  }

  lemma UpperAllSnoc(codes: seq<string>, i: nat)
    requires i < |codes|
    ensures UpperAll(codes[..i + 1]) == UpperAll(codes[..i]) + [Upper(codes[i])]
  {
  }

  /** The Counter after the keyword scores of the first `i` candidates. */
  ghost predicate KeywordTallied(c: Counter, sig: Signals, order: seq<string>, i: nat)
  {
    && i <= |order|
    && c.keys == order[..i]
    && (forall k :: k in c.counts <==> k in c.keys)
    && forall j :: 0 <= j < i ==> c.counts[order[j]] == HintScore(sig, order[j])
  }

  /** The three keyword increments of one candidate keep the keyword tally. */
  lemma KeywordStep(c: Counter, sig: Signals, order: seq<string>, i: nat)
    requires Distinct(order) && i < |order|
    requires KeywordTallied(c, sig, order, i)
    ensures
      var lang := order[i];
      KeywordTallied(
        Bump(Bump(Bump(c, lang, ScoreHint(sig.title, lang)), lang, ScoreHint(sig.description, lang)),
             lang, TagScore(sig.tags, lang)),
        sig, order, i + 1)
  {
    var lang := order[i];
    assert lang !in c.counts by {
      assert forall j :: 0 <= j < i ==> order[..i][j] != lang;
    }
    TripleBumpFresh(c, lang, ScoreHint(sig.title, lang), ScoreHint(sig.description, lang), TagScore(sig.tags, lang));
    var c' := Counter(c.keys + [lang], c.counts[lang := HintScore(sig, lang)]);
    assert order[..i + 1] == order[..i] + [lang];
    forall j | 0 <= j < i + 1
      ensures c'.counts[order[j]] == HintScore(sig, order[j])
    {
      if j < i {
        assert order[j] != lang;
      }
    }
  }

  /** Three increments of a missing key: the key is appended once, with the sum. */
  lemma TripleBumpFresh(c: Counter, key: string, a: int, b: int, d: int)
    requires key !in c.counts
    ensures Bump(Bump(Bump(c, key, a), key, b), key, d) == Counter(c.keys + [key], c.counts[key := a + b + d])
  {
  }

  /** After the keyword phase the Counter holds the candidates with their keyword scores. */
  lemma KeywordPhaseTallied(c: Counter, sig: Signals, order: seq<string>)
    requires IsCandidateOrder(order)
    requires KeywordTallied(c, sig, order, |order|)
    ensures Tallied(c, sig, order, [])
  {
    assert order[..|order|] == order;
    assert c.keys == AddNew(order, []);
    KeywordCounts(c, sig, order);
  }

  lemma KeywordCounts(c: Counter, sig: Signals, order: seq<string>)
    requires KeywordTallied(c, sig, order, |order|)
    ensures forall k :: k in c.counts ==> c.counts[k] == HintScore(sig, k)
  {
    assert order[..|order|] == order;
    forall k | k in c.counts
      ensures c.counts[k] == HintScore(sig, k)
    {
      var j :| 0 <= j < |order| && order[j] == k;
    }
  }

  /** The Counter after the keyword phase and the bonus codes `done`. */
  ghost predicate Tallied(c: Counter, sig: Signals, order: seq<string>, done: seq<string>)
  {
    && IsCandidateOrder(order)
    && c.keys == AddNew(order, done)
    && (forall k :: k in c.counts <==> k in c.keys)
    && forall k :: k in c.counts ==>
         c.counts[k] == HintScore(sig, k) + Bonus(k, done, Weight(sig.mode))
  }

  /** Once every bonus code is tallied, the Counter holds exactly the reference scores. */
  lemma TalliedFinal(c: Counter, sig: Signals, order: seq<string>)
    requires Tallied(c, sig, order, BonusCodes(sig))
    ensures c == Expected(sig, order) && c.keys != []
  {
    AddNewMembers(order, BonusCodes(sig), "HI");
    TalliedCounts(c, sig, order);
  }

  lemma TalliedCounts(c: Counter, sig: Signals, order: seq<string>)
    requires Tallied(c, sig, order, BonusCodes(sig))
    ensures c.counts == Expected(sig, order).counts
  {
    var e := Expected(sig, order);
    forall k | k in c.counts
      ensures k in e.counts && c.counts[k] == e.counts[k]
    {
    }
    SameCounts(c.counts, e.counts);
  }

  /** Two maps with the same domain and the same values are equal. */
  lemma SameCounts(m1: map<string, int>, m2: map<string, int>)
    requires m1.Keys == m2.Keys && forall k :: k in m1 ==> m1[k] == m2[k]
    ensures m1 == m2
  {
  }

  lemma {:induction false} AddNewSnoc(keys: seq<string>, codes: seq<string>, code: string)
    ensures AddNew(keys, codes + [code])
            == if code in AddNew(keys, codes) then AddNew(keys, codes) else AddNew(keys, codes) + [code]
    decreases |codes|
  {
    if codes == [] {
      assert AddNew(keys, [code]) == AddNew(if code in keys then keys else keys + [code], []);
    } else {
      assert (codes + [code])[0] == codes[0] && (codes + [code])[1..] == codes[1..] + [code];
      if codes[0] in keys {
        AddNewSnoc(keys, codes[1..], code);
      } else {
        AddNewSnoc(keys + [codes[0]], codes[1..], code);
      }
    }
  }

  lemma {:induction false} AddNewMembers(keys: seq<string>, codes: seq<string>, k: string)
    ensures k in AddNew(keys, codes) <==> k in keys || k in codes
    decreases |codes|
  {
    if codes != [] {
      if codes[0] in keys {
        AddNewMembers(keys, codes[1..], k);
      } else {
        AddNewMembers(keys + [codes[0]], codes[1..], k);
      }
    }
  }

  lemma {:induction false} BonusSnoc(k: string, codes: seq<string>, code: string, w: nat)
    ensures Bonus(k, codes + [code], w) == Bonus(k, codes, w) + (if code == k then w else 0)
  {
    if codes != [] {
      assert (codes + [code])[1..] == codes[1..] + [code];
      BonusSnoc(k, codes[1..], code, w);
    }
  }

  lemma {:induction false} BonusAbsent(k: string, codes: seq<string>, w: nat)
    requires k !in codes
    ensures Bonus(k, codes, w) == 0
  {
    if codes != [] {
      BonusAbsent(k, codes[1..], w);
    }
  }

  /** One bonus increment keeps the tally, with the code appended to `done`. */
  lemma BumpKeepsTally(c: Counter, sig: Signals, order: seq<string>, done: seq<string>, code: string)
    requires Tallied(c, sig, order, done)
    ensures Tallied(Bump(c, code, Weight(sig.mode)), sig, order, done + [code])
  {
    var w := Weight(sig.mode);
    var c' := Bump(c, code, w);
    AddNewSnoc(order, done, code);
    assert c'.keys == AddNew(order, done + [code]);
    if code !in c.counts {
      AddNewMembers(order, done, code);
      BonusAbsent(code, done, w);
      CandidatesInOrder(order);
      HintScoreOutsideCandidates(sig, code);
    }
    forall k | k in c'.counts
      ensures c'.counts[k] == HintScore(sig, k) + Bonus(k, done + [code], w)
    {
      BonusSnoc(k, done, code, w);
    }
  }

  /**
   * The end of `detect_language`: the first most common key, or None when its
   * count is 0. A Counter that holds the four candidates is never empty, so
   * the source's emptiness test cannot fire and is not modelled.
   */
  function TopLanguage(c: Counter): Option<string>
    requires c.keys != [] && forall k :: k in c.keys ==> k in c.counts
  {
    var top := MostCommon(c);
    if c.counts[top] == 0 then None else Some(top)
  }
}
