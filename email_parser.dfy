/**
 * `extract_emails` of the scraper (scraper/email_parser.py).
 *
 * The regular expression is not modelled: `matches` stands for
 * `EMAIL_PATTERN.finditer`, giving the `user`, `domain` and `tld` groups of
 * every match of a blob, left to right. What is modelled is what the loop
 * does with them: rebuild `user@domain.tld`, lower-case it, keep the first
 * occurrence of each address, in the order met.
 */
module EmailParser {
  import opened Wrappers
  import opened Text

  datatype EmailMatch = EmailMatch(user: string, domain: string, tld: string)

  /** The canonical address of one match: obfuscated `at`/`dot` forms come out as `@` and `.`. */
  function Rebuild(m: EmailMatch): string {
    Lower(m.user + "@" + m.domain + "." + m.tld)
  }

  /** The rebuilt addresses of a blob's matches, in match order. */
  function RebuildAll(ms: seq<EmailMatch>): (r: seq<string>)
    ensures |r| == |ms|
    ensures forall i :: 0 <= i < |ms| ==> r[i] == Rebuild(ms[i])
  {
    seq(|ms|, i requires 0 <= i < |ms| => Rebuild(ms[i]))
  }

  /** Every rebuilt address of every non-empty blob, blobs in order. */
  function Reconstructed(blobs: seq<Option<string>>, matches: string -> seq<EmailMatch>): seq<string> {
    if blobs == [] then []
    else
      var last := blobs[|blobs| - 1];
      Reconstructed(blobs[..|blobs| - 1], matches)
      + (if Present(last) then RebuildAll(matches(last.value)) else [])
  }

  /** The first occurrence of each element, in order of first occurrence. */
  function Dedupe(xs: seq<string>): seq<string> {
    if xs == [] then []
    else
      var prev := Dedupe(xs[..|xs| - 1]);
      if xs[|xs| - 1] in prev then prev else prev + [xs[|xs| - 1]]
  }

  predicate NoDuplicates(xs: seq<string>) {
    forall i, j :: 0 <= i < j < |xs| ==> xs[i] != xs[j]
  }

  /** `extract_emails`. */
  method ExtractEmails(blobs: seq<Option<string>>, matches: string -> seq<EmailMatch>) returns (results: seq<string>)
    ensures results == Dedupe(Reconstructed(blobs, matches))
  {
    var seen: set<string> := {};
    results := [];
    for i := 0 to |blobs|
      invariant results == Dedupe(Reconstructed(blobs[..i], matches))
      invariant forall x :: x in seen <==> x in results
    {
      ReconstructedSnoc(blobs, i, matches);
      if blobs[i].Some? && blobs[i].value != "" {
        ghost var before := Reconstructed(blobs[..i], matches);
        results, seen := AddMatches(results, seen, matches(blobs[i].value), before);
      } else {
        assert Reconstructed(blobs[..i + 1], matches) == Reconstructed(blobs[..i], matches) + [];
        assert Reconstructed(blobs[..i], matches) + [] == Reconstructed(blobs[..i], matches);
      }
    }
    assert blobs[..|blobs|] == blobs;
  }

  /** The inner loop of `extract_emails`: one blob's matches, in order, into `results` and `seen`. */
  method AddMatches(results0: seq<string>, seen0: set<string>, ms: seq<EmailMatch>, ghost before: seq<string>)
    returns (results: seq<string>, seen: set<string>)
    requires results0 == Dedupe(before)
    requires forall x :: x in seen0 <==> x in results0
    ensures results == Dedupe(before + RebuildAll(ms))
    ensures forall x :: x in seen <==> x in results
  {
    results, seen := results0, seen0;
    assert before + RebuildAll(ms[..0]) == before;
    for j := 0 to |ms|
      invariant results == Dedupe(before + RebuildAll(ms[..j]))
      invariant forall x :: x in seen <==> x in results
    {
      var email := ms[j].user + "@" + ms[j].domain + "." + ms[j].tld;
      var emailLower := Lower(email);
      assert before + RebuildAll(ms[..j + 1]) == (before + RebuildAll(ms[..j])) + [emailLower];
      if emailLower !in seen {
        seen := seen + {emailLower};
        results := results + [emailLower];
      }
    }
    assert ms[..|ms|] == ms;
  }

  lemma ReconstructedSnoc(blobs: seq<Option<string>>, i: nat, matches: string -> seq<EmailMatch>)
    requires i < |blobs|
    ensures Reconstructed(blobs[..i + 1], matches)
            == Reconstructed(blobs[..i], matches)
               + (if Present(blobs[i]) then RebuildAll(matches(blobs[i].value)) else [])
  {
    assert blobs[..i + 1][..i] == blobs[..i];
  }

  // ---------------------------------------------------------------------------
  // Properties of the reference definition.

  /** No address is reported twice. */
  lemma {:induction false} DedupeNoDuplicates(xs: seq<string>)
    ensures NoDuplicates(Dedupe(xs))
  {
    if xs != [] {
      DedupeNoDuplicates(xs[..|xs| - 1]);
    }
  }

  /** The reported addresses are exactly the reconstructed ones. */
  lemma {:induction false} DedupeSameElements(xs: seq<string>)
    ensures forall x :: x in Dedupe(xs) <==> x in xs
  {
    if xs != [] {
      var init := xs[..|xs| - 1];
      DedupeSameElements(init);
      assert xs == init + [xs[|xs| - 1]];
    }
  }

  /** First-seen order: more blobs only add addresses at the end, never reorder earlier ones. */
  lemma {:induction false} DedupePrefix(xs: seq<string>, ys: seq<string>)
    ensures Dedupe(xs) <= Dedupe(xs + ys)
    decreases |ys|
  {
    if ys == [] {
      assert xs + ys == xs;
    } else {
      var init := ys[..|ys| - 1];
      DedupePrefix(xs, init);
      assert (xs + ys)[..|xs + ys| - 1] == xs + init;
    }
  }

  /** An address is reconstructed from the blobs exactly when some non-empty blob has a match rebuilding to it. */
  lemma {:induction false} ReconstructedMembers(blobs: seq<Option<string>>, matches: string -> seq<EmailMatch>, x: string)
    ensures x in Reconstructed(blobs, matches) <==>
              exists i, k :: 0 <= i < |blobs| && Present(blobs[i]) && 0 <= k < |matches(blobs[i].value)|
                             && x == Rebuild(matches(blobs[i].value)[k])
  {
    if blobs != [] {
      var init := blobs[..|blobs| - 1];
      ReconstructedMembers(init, matches, x);
      assert forall i :: 0 <= i < |init| ==> init[i] == blobs[i];
    }
  }

  /** Output membership, stated directly on blobs and matches. */
  lemma OutputMembers(blobs: seq<Option<string>>, matches: string -> seq<EmailMatch>, x: string)
    ensures x in Dedupe(Reconstructed(blobs, matches)) <==>
              exists i, k :: 0 <= i < |blobs| && Present(blobs[i]) && 0 <= k < |matches(blobs[i].value)|
                             && x == Rebuild(matches(blobs[i].value)[k])
  {
    DedupeSameElements(Reconstructed(blobs, matches));
    ReconstructedMembers(blobs, matches, x);
  }

  /** The set of outputs depends only on the set of blobs, not on their order or repetition. */
  lemma OutputSetIgnoresOrder(blobs1: seq<Option<string>>, blobs2: seq<Option<string>>, matches: string -> seq<EmailMatch>)
    requires forall b :: b in blobs1 <==> b in blobs2
    ensures forall x :: x in Dedupe(Reconstructed(blobs1, matches)) <==> x in Dedupe(Reconstructed(blobs2, matches))
  {
    forall x
      ensures x in Dedupe(Reconstructed(blobs1, matches)) <==> x in Dedupe(Reconstructed(blobs2, matches))
    {
      OutputMembers(blobs1, matches, x);
      OutputMembers(blobs2, matches, x);
      if x in Dedupe(Reconstructed(blobs1, matches)) {
        var i, k :| 0 <= i < |blobs1| && Present(blobs1[i]) && 0 <= k < |matches(blobs1[i].value)|
                    && x == Rebuild(matches(blobs1[i].value)[k]);
        assert blobs1[i] in blobs2;
      }
      if x in Dedupe(Reconstructed(blobs2, matches)) {
        var i, k :| 0 <= i < |blobs2| && Present(blobs2[i]) && 0 <= k < |matches(blobs2[i].value)|
                    && x == Rebuild(matches(blobs2[i].value)[k]);
        assert blobs2[i] in blobs1;
      }
    }
  }

  /** A missing or empty blob contributes nothing, wherever it stands. */
  lemma FalsyBlobContributesNothing(blobs1: seq<Option<string>>, b: Option<string>, blobs2: seq<Option<string>>,
                                    matches: string -> seq<EmailMatch>)
    requires !Present(b)
    ensures Reconstructed(blobs1 + [b] + blobs2, matches) == Reconstructed(blobs1 + blobs2, matches)
  {
    ReconstructedAppend(blobs1 + [b], blobs2, matches);
    ReconstructedAppend(blobs1, blobs2, matches);
    assert (blobs1 + [b])[..|blobs1|] == blobs1;
  }

  lemma {:induction false} ReconstructedAppend(blobs1: seq<Option<string>>, blobs2: seq<Option<string>>,
                                               matches: string -> seq<EmailMatch>)
    ensures Reconstructed(blobs1 + blobs2, matches) == Reconstructed(blobs1, matches) + Reconstructed(blobs2, matches)
    decreases |blobs2|
  {
    if blobs2 == [] {
      assert blobs1 + blobs2 == blobs1;
    } else {
      var init := blobs2[..|blobs2| - 1];
      var last := blobs2[|blobs2| - 1];
      var extra := if Present(last) then RebuildAll(matches(last.value)) else [];
      ReconstructedAppend(blobs1, init, matches);
      var all := blobs1 + blobs2;
      assert all[..|all| - 1] == blobs1 + init && all[|all| - 1] == last;
      assert Reconstructed(all, matches) == Reconstructed(blobs1 + init, matches) + extra;
      assert Reconstructed(blobs2, matches) == Reconstructed(init, matches) + extra;
      assert Reconstructed(blobs1 + init, matches) + extra
          == Reconstructed(blobs1, matches) + (Reconstructed(init, matches) + extra);
    }
  }

  /** Addresses come out lower-cased: no ASCII capital survives. */
  lemma OutputIsLowerCase(m: EmailMatch, k: nat)
    requires k < |Rebuild(m)|
    ensures !IsAsciiUpper(Rebuild(m)[k])
  {
    LowerHasNoAsciiUpper(m.user + "@" + m.domain + "." + m.tld, k);
  }
}
