/**
 * `extract_emails_from_text` of the backend (backend/scraper/email_extract.py).
 *
 * The two regular expressions are not modelled: `plain` stands for the whole
 * matches of `EMAIL_REGEX.finditer` and `alt` for the three groups of every
 * `ALT_REGEX` match. What is modelled is what the function does with them:
 * the plain matches kept verbatim, every alternate match rebuilt as
 * `g1@g2.g3`, duplicates merged by the set, and the set listed in ascending
 * code-point order, as Python's `sorted` does on strings.
 */
module EmailExtract {
  import opened Wrappers

  datatype AltMatch = AltMatch(user: string, domain: string, tld: string)

  /** `text or ""`. */
  function TextOrEmpty(text: Option<string>): string {
    if text.Some? then text.value else ""
  }

  /** The address an alternate match stands for; its case is kept. */
  function AltAddress(m: AltMatch): string {
    m.user + "@" + m.domain + "." + m.tld
  }

  /** The set the function builds before sorting. */
  function Collected(text: Option<string>, plain: string -> seq<string>, alt: string -> seq<AltMatch>): set<string> {
    var t := TextOrEmpty(text);
    (set x | x in plain(t)) + (set m | m in alt(t) :: AltAddress(m))
  }

  // ---------------------------------------------------------------------------
  // Python's ordering of strings: lexicographic on code points.

  predicate LessStr(a: string, b: string) {
    if a == [] then b != []
    else if b == [] then false
    else a[0] < b[0] || (a[0] == b[0] && LessStr(a[1..], b[1..]))
  }

  lemma {:induction false} LessIrreflexive(a: string)
    ensures !LessStr(a, a)
  {
    if a != [] {
      LessIrreflexive(a[1..]);
    }
  }

  lemma {:induction false} LessAsymmetric(a: string, b: string)
    ensures LessStr(a, b) ==> !LessStr(b, a)
  {
    if a != [] && b != [] {
      LessAsymmetric(a[1..], b[1..]);
    }
  }

  lemma {:induction false} LessTransitive(a: string, b: string, c: string)
    requires LessStr(a, b) && LessStr(b, c)
    ensures LessStr(a, c)
  {
    if a != [] && a[0] == b[0] && b[0] == c[0] {
      LessTransitive(a[1..], b[1..], c[1..]);
    }
  }

  lemma {:induction false} LessTotal(a: string, b: string)
    ensures a == b || LessStr(a, b) || LessStr(b, a)
  {
    if a != [] && b != [] && a[0] == b[0] {
      LessTotal(a[1..], b[1..]);
      if a[1..] == b[1..] {
        assert a == [a[0]] + a[1..] && b == [b[0]] + b[1..];
      }
    }
  }

  /** Strictly ascending, hence also free of duplicates. */
  predicate StrictlySorted(r: seq<string>) {
    forall i, j :: 0 <= i < j < |r| ==> LessStr(r[i], r[j])
  }

  /** Inserting into an ascending list at its place; an element already there is not repeated. */
  function Insert(r: seq<string>, x: string): (res: seq<string>)
    ensures forall y :: y in res <==> y in r || y == x
    ensures StrictlySorted(r) ==> StrictlySorted(res)
  {
    if r == [] then [x]
    else if LessStr(x, r[0]) then
      InsertFrontSorted(r, x);
      [x] + r
    else if x == r[0] then r
    else
      var tail := Insert(r[1..], x);
      InsertBehindSorted(r, x, tail);
      [r[0]] + tail
  }

  lemma InsertBehindSorted(r: seq<string>, x: string, tail: seq<string>)
    requires r != [] && !LessStr(x, r[0]) && x != r[0]
    requires forall y :: y in tail <==> y in r[1..] || y == x
    requires StrictlySorted(r[1..]) ==> StrictlySorted(tail)
    ensures StrictlySorted(r) ==> StrictlySorted([r[0]] + tail)
  {
    if StrictlySorted(r) {
      LessTotal(x, r[0]);
      var rt := [r[0]] + tail;
      forall i, j | 0 <= i < j < |rt|
        ensures LessStr(rt[i], rt[j])
      {
        if i == 0 {
          assert tail[j - 1] in tail;
          if tail[j - 1] != x {
            var k :| 0 <= k < |r[1..]| && r[1..][k] == tail[j - 1];
            assert r[k + 1] == tail[j - 1];
          }
        } else {
          assert rt[i] == tail[i - 1] && rt[j] == tail[j - 1];
        }
      }
    }
  }

  lemma InsertFrontSorted(r: seq<string>, x: string)
    requires r != [] && LessStr(x, r[0])
    ensures StrictlySorted(r) ==> StrictlySorted([x] + r)
  {
    if StrictlySorted(r) {
      var xr := [x] + r;
      forall i, j | 0 <= i < j < |xr|
        ensures LessStr(xr[i], xr[j])
      {
        if i == 0 && j > 1 {
          LessTransitive(x, r[0], r[j - 1]);
        }
      }
    }
  }

  /** `sorted` of a set of strings: the ascending list of exactly its elements. */
  method SortStrings(s: set<string>) returns (r: seq<string>)
    ensures StrictlySorted(r)
    ensures forall x :: x in r <==> x in s
  {
    r := [];
    var rest := s;
    while rest != {}
      invariant rest <= s
      invariant StrictlySorted(r)
      invariant forall x :: x in r <==> x in s && x !in rest
      decreases |rest|
    {
      var x :| x in rest;
      r := Insert(r, x);
      rest := rest - {x};
    }
  }

  /** Two ascending lists of the same elements are the same list: the sorted order is unique. */
  lemma {:induction false} SortedUnique(a: seq<string>, b: seq<string>)
    requires StrictlySorted(a) && StrictlySorted(b)
    requires forall x :: x in a <==> x in b
    ensures a == b
  {
    if a != [] && b != [] {
      assert a[0] in b && b[0] in a;
      if a[0] != b[0] {
        var i :| 0 <= i < |a| && a[i] == b[0];
        var j :| 0 <= j < |b| && b[j] == a[0];
        LessAsymmetric(a[0], b[0]);
        assert false;
      }
      forall x
        ensures x in a[1..] <==> x in b[1..]
      {
        LessIrreflexive(a[0]);
        if x in a[1..] {
          var i :| 1 <= i < |a| && a[i] == x;
          assert x != b[0] && x in b;
          var j :| 0 <= j < |b| && b[j] == x;
          assert b[1..][j - 1] == x;
        }
        if x in b[1..] {
          var j :| 1 <= j < |b| && b[j] == x;
          assert x != a[0] && x in a;
          var i :| 0 <= i < |a| && a[i] == x;
          assert a[1..][i - 1] == x;
        }
      }
      SortedUnique(a[1..], b[1..]);
      assert a == [a[0]] + a[1..] && b == [b[0]] + b[1..];
    } else if a != [] {
      HeadIsMember(a);
      assert false;
    } else if b != [] {
      HeadIsMember(b);
      assert false;
    }
  }

  lemma HeadIsMember(a: seq<string>)
    requires a != []
    ensures a[0] in a
  {
  }

  /** `extract_emails_from_text`. */
  method ExtractEmailsFromText(text: Option<string>, plain: string -> seq<string>, alt: string -> seq<AltMatch>)
    returns (r: seq<string>)
    ensures StrictlySorted(r)
    ensures forall x :: x in r <==> x in Collected(text, plain, alt)
    // plain matches verbatim, with their case
    ensures forall k :: 0 <= k < |plain(TextOrEmpty(text))| ==> plain(TextOrEmpty(text))[k] in r
    // alternate matches rebuilt as g1@g2.g3
    ensures forall k :: 0 <= k < |alt(TextOrEmpty(text))| ==> AltAddress(alt(TextOrEmpty(text))[k]) in r
  {
    var t := TextOrEmpty(text);
    var emails := set x | x in plain(t);
    var alts := alt(t);
    for i := 0 to |alts|
      invariant emails == (set x | x in plain(t)) + (set m | m in alts[..i] :: AltAddress(m))
    {
      assert alts[..i + 1] == alts[..i] + [alts[i]];
      emails := emails + {AltAddress(alts[i])};
    }
    assert alts[..|alts|] == alts;
    r := SortStrings(emails);
  }

  /** None or empty text gives no addresses, given that neither pattern matches the empty string. */
  lemma NoTextNoEmails(text: Option<string>, plain: string -> seq<string>, alt: string -> seq<AltMatch>)
    requires text.None? || text.value == ""
    requires plain("") == [] && alt("") == []
    ensures Collected(text, plain, alt) == {}
  {
  }
}
