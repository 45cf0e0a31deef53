/**
 * `detect_telegram` of the scraper (scraper/telegram_detection.py): the first
 * blob that yields a handle decides; within a blob a `t.me/` link beats a
 * bare `@mention`, and a bare mention counts only when the lower-cased blob
 * does not contain it, which happens exactly when the name has an ASCII
 * capital.
 */
module TelegramDetection {
  import opened Wrappers
  import opened Text
  import opened TelegramScan

  /** The scraper's link pattern takes one or more name characters. */
  const LinkMinLength: nat := 1

  /** What one non-empty blob yields: the first link, else the first guarded mention. */
  function BlobResult(blob: string): Option<string> {
    match FindLink(blob, 0, LinkMinLength)
    case Some(link) => Some("t.me/" + link.name)
    case None =>
      match FindHandle(blob, 0, true)
      case Some(handle) =>
        if !Contains(Lower(blob), "@" + handle.name) then Some("t.me/" + handle.name) else None
      case None => None
  }

  /** `detect_telegram`: falsy blobs are skipped and the first blob with a result decides. */
  function DetectTelegram(blobs: seq<Option<string>>): Option<string> {
    if blobs == [] then None
    else if Present(blobs[0]) && BlobResult(blobs[0].value).Some? then BlobResult(blobs[0].value)
    else DetectTelegram(blobs[1..])
  }

  predicate HasAsciiUpper(name: string) {
    exists k :: 0 <= k < |name| && IsAsciiUpper(name[k])
  }

  /** Whether a blob yields anything. */
  predicate Hit(blob: Option<string>) {
    Present(blob) && BlobResult(blob.value).Some?
  }

  /**
   * The guard on a bare mention holds exactly when the name has an ASCII
   * capital: an all-lower-case name is found again in the lower-cased blob
   * at the mention itself.
   */
  lemma GuardIffCapital(blob: string, p: nat)
    requires p <= |blob| && HandleAt(blob, p, true).Some?
    ensures var name := HandleAt(blob, p, true).value;
            !Contains(Lower(blob), "@" + name) <==> HasAsciiUpper(name)
  {
    var name := HandleAt(blob, p, true).value;
    if Contains(Lower(blob), "@" + name) {
      FoundInLowerHasNoCapital(blob, name);
    }
    if !HasAsciiUpper(name) {
      LowerNameFound(blob, p, name);
    }
  }

  /** A name whose `@name` occurs in the lower-cased blob has no ASCII capital. */
  lemma FoundInLowerHasNoCapital(blob: string, name: string)
    requires Contains(Lower(blob), "@" + name)
    ensures !HasAsciiUpper(name)
  {
    var needle := "@" + name;
    var i := ContainsWitness(Lower(blob), needle);
    OccurrenceInLowerHasNoCapital(blob, needle, i);
    assert forall k :: 0 <= k < |name| ==> name[k] == needle[1 + k];
  }

  /** An `@name` of name characters without a capital occurs unchanged in the lower-cased blob. */
  lemma LowerNameFound(blob: string, p: nat, name: string)
    requires p < |blob| && blob[p] == '@'
    requires p + 1 + |name| <= |blob| && blob[p + 1..p + 1 + |name|] == name
    requires ValidName(name, 0) && !HasAsciiUpper(name)
    ensures Contains(Lower(blob), "@" + name)
  {
    var needle := "@" + name;
    assert Lower(blob)[p..p + |needle|] == needle by {
      forall j | 0 <= j < |needle|
        ensures Lower(blob)[p + j] == needle[j]
      {
        if j > 0 {
          assert blob[p + j] == name[j - 1];
          assert !IsAsciiUpper(name[j - 1]);
        }
      }
    }
    ContainsAt(Lower(blob), needle, p);
  }

  /** Text found in a lower-cased blob holds no ASCII capital. */
  lemma OccurrenceInLowerHasNoCapital(blob: string, needle: string, i: nat)
    requires i + |needle| <= |Lower(blob)| && Lower(blob)[i..i + |needle|] == needle
    ensures forall j :: 0 <= j < |needle| ==> !IsAsciiUpper(needle[j])
  {
    forall j | 0 <= j < |needle|
      ensures !IsAsciiUpper(needle[j])
    {
      assert needle[j] == Lower(blob)[i + j];
      LowerHasNoAsciiUpper(blob, i + j);
    }
  }

  /** A blob's result, stated through the patterns and the capital-letter rule. */
  lemma BlobResultCases(blob: string)
    ensures FindLink(blob, 0, LinkMinLength).Some? ==>
              BlobResult(blob) == Some("t.me/" + FindLink(blob, 0, LinkMinLength).value.name)
    ensures FindLink(blob, 0, LinkMinLength).None? ==>
              BlobResult(blob) ==
                if FindHandle(blob, 0, true).Some? && HasAsciiUpper(FindHandle(blob, 0, true).value.name)
                then Some("t.me/" + FindHandle(blob, 0, true).value.name)
                else None
  {
    var h := FindHandle(blob, 0, true);
    if h.Some? {
      GuardIffCapital(blob, h.value.pos);
    }
  }

  /** The result is the first hit's, and no earlier blob hits; no hit at all gives None. */
  lemma {:induction false} DetectIsFirstHit(blobs: seq<Option<string>>)
    ensures DetectTelegram(blobs).None? <==> forall j :: 0 <= j < |blobs| ==> !Hit(blobs[j])
    ensures DetectTelegram(blobs).Some? ==>
              exists i :: 0 <= i < |blobs| && Hit(blobs[i]) && BlobResult(blobs[i].value) == DetectTelegram(blobs)
                          && forall j :: 0 <= j < i ==> !Hit(blobs[j])
  {
    if blobs != [] {
      DetectIsFirstHit(blobs[1..]);
      if !Hit(blobs[0]) {
        assert forall j :: 1 <= j < |blobs| ==> blobs[j] == blobs[1..][j - 1];
        if DetectTelegram(blobs).Some? {
          var i :| 0 <= i < |blobs[1..]| && Hit(blobs[1..][i]) && BlobResult(blobs[1..][i].value) == DetectTelegram(blobs)
                   && forall j :: 0 <= j < i ==> !Hit(blobs[1..][j]);
          assert Hit(blobs[i + 1]);
        }
      }
    }
  }

  /** Once a prefix of the blobs yields a result, later blobs are never consulted. */
  lemma {:induction false} LaterBlobsIgnored(blobs: seq<Option<string>>, more: seq<Option<string>>)
    requires DetectTelegram(blobs).Some?
    ensures DetectTelegram(blobs + more) == DetectTelegram(blobs)
  {
    assert (blobs + more)[0] == blobs[0];
    if !Hit(blobs[0]) {
      assert (blobs + more)[1..] == blobs[1..] + more;
      LaterBlobsIgnored(blobs[1..], more);
    }
  }

  /** A result always has the form `t.me/<name>` with a valid name. */
  lemma ResultShape(blob: string)
    ensures BlobResult(blob).Some? ==>
              exists name :: ValidName(name, 1) && BlobResult(blob) == Some("t.me/" + name)
  {
    var l := FindLink(blob, 0, LinkMinLength);
    if l.Some? {
      assert ValidName(l.value.name, 1);
    } else {
      var h := FindHandle(blob, 0, true);
      if h.Some? {
        assert ValidName(h.value.name, 1);
      }
    }
  }

  /** A blob that is just a mention: taken when the name has a capital ("@CryptoFam2024"). */
  lemma MentionWithCapitalIsTaken(name: string, rest: seq<Option<string>>)
    requires ValidName(name, 4) && HasAsciiUpper(name)
    ensures DetectTelegram([Some("@" + name)] + rest) == Some("t.me/" + name)
  {
    var blob := "@" + name;
    MentionOnlyBlob(name);
    BlobResultCases(blob);
    assert ([Some(blob)] + rest)[0] == Some(blob);
  }

  /** A blob that is just an all-lower-case mention yields nothing, so the scan moves on. */
  lemma LowerCaseMentionIsSkipped(name: string, rest: seq<Option<string>>)
    requires ValidName(name, 4) && !HasAsciiUpper(name)
    ensures DetectTelegram([Some("@" + name)] + rest) == DetectTelegram(rest)
  {
    var blob := "@" + name;
    MentionOnlyBlob(name);
    BlobResultCases(blob);
    assert ([Some(blob)] + rest)[0] == Some(blob);
    assert ([Some(blob)] + rest)[1..] == rest;
  }

  /** In `@name` there is no link and the first mention is the whole name. */
  lemma MentionOnlyBlob(name: string)
    requires ValidName(name, 4)
    ensures FindLink("@" + name, 0, LinkMinLength).None?
    ensures FindHandle("@" + name, 0, true) == Some(Found(0, name))
  {
    var blob := "@" + name;
    assert forall k :: 0 <= k < |name| ==> blob[k + 1] == name[k];
    NoSlashNoLink(blob, 0, LinkMinLength);
    RunToEnd(blob, 1);
    assert blob[1..1 + |name|] == name;
    assert HandleAt(blob, 0, true) == Some(name);
  }
}
