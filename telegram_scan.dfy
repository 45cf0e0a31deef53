/**
 * Hand-written scanners for the Telegram patterns of both pipelines
 * (scraper/telegram_detection.py and backend/scraper/telegram_extract.py).
 *
 * A link is `t.me/`, `http://t.me/` or `https://t.me/`, matched without
 * regard to ASCII case, followed by a run of `[A-Za-z0-9_]`. A handle is `@`
 * followed by at least four such characters. The regex quantifiers are
 * greedy and nothing follows them, so a match takes the whole run. At a
 * given position the link prefixes exclude each other (one starts with `t`,
 * the others with `h`), so the order of the alternatives does not matter.
 * `search` returns the leftmost position where the pattern matches.
 */
module TelegramScan {
  import opened Wrappers
  import opened Text

  /** `[A-Za-z0-9_]`. */
  predicate IsNameChar(c: char) {
    IsAsciiUpper(c) || IsAsciiLower(c) || IsAsciiDigit(c) || c == '_'
  }

  /**
   * Python's `\w` on the Latin-1 range: the name characters, the Latin-1
   * letters and the Latin-1 characters Python counts as alphanumeric.
   */
  predicate IsWordChar(c: char) {
    IsNameChar(c) || IsLatin1Upper(c) || IsLatin1Lower(c) || c in "ª²³µ¹º¼½¾ßÿ"
  }

  /** The length of the run of name characters that starts at `i`. */
  function RunLength(s: string, i: nat): (n: nat)
    requires i <= |s|
    ensures i + n <= |s|
    ensures forall k :: i <= k < i + n ==> IsNameChar(s[k])
    ensures i + n == |s| || !IsNameChar(s[i + n])
    decreases |s| - i
  {
    if i < |s| && IsNameChar(s[i]) then 1 + RunLength(s, i + 1) else 0
  }

  /** The `n` characters from `i` on exist and are all name characters. */
  predicate NameRunAt(s: string, i: nat, n: nat) {
    i + n <= |s| && forall k :: i <= k < i + n ==> IsNameChar(s[k])
  }

  /** The look-behind `(?<![\w@])`: the `@` at `p` follows neither a word character nor another `@`. */
  predicate FreeBefore(s: string, p: nat)
    requires p <= |s|
  {
    p == 0 || !(IsWordChar(s[p - 1]) || s[p - 1] == '@')
  }

  /** `lit`, an ASCII lower-case literal, occurs at `p` when case is ignored. */
  predicate AtIgnoringCase(s: string, p: nat, lit: string) {
    p + |lit| <= |s| && Lower(s[p..p + |lit|]) == lit
  }

  /** Where the name starts when a link prefix occurs at `p`. */
  function LinkNameStart(s: string, p: nat): Option<nat> {
    if AtIgnoringCase(s, p, "t.me/") then Some(p + 5)
    else if AtIgnoringCase(s, p, "http://t.me/") then Some(p + 12)
    else if AtIgnoringCase(s, p, "https://t.me/") then Some(p + 13)
    else None
  }

  /** The name of a link matching at `p`, when its run has at least `minLen` characters. */
  function LinkAt(s: string, p: nat, minLen: nat): (r: Option<string>)
    requires p <= |s| && minLen >= 1
    // a link matches exactly when a prefix is followed by at least `minLen` name characters
    ensures r.Some? <==> LinkNameStart(s, p).Some? && NameRunAt(s, LinkNameStart(s, p).value, minLen)
    ensures r.Some? ==> ValidName(r.value, minLen)
    // the name is the text after the prefix, case kept, and the whole run of name characters
    ensures r.Some? ==>
              && LinkNameStart(s, p).Some?
              && var start := LinkNameStart(s, p).value;
              && start + |r.value| <= |s| && s[start..start + |r.value|] == r.value
              && (start + |r.value| == |s| || !IsNameChar(s[start + |r.value|]))
  {
    match LinkNameStart(s, p)
    case None => None
    case Some(start) =>
      var n := RunLength(s, start);
      if n >= minLen then Some(s[start..start + n]) else None
  }

  /**
   * The name of a handle matching at `p`. With `lookBehind`, the `@` must not
   * follow a word character or another `@`.
   */
  function HandleAt(s: string, p: nat, lookBehind: bool): (r: Option<string>)
    requires p <= |s|
    // a handle matches exactly at a free `@` followed by at least four name characters
    ensures r.Some? <==> p < |s| && s[p] == '@' && (lookBehind ==> FreeBefore(s, p)) && NameRunAt(s, p + 1, 4)
    ensures r.Some? ==> ValidName(r.value, 4)
    ensures r.Some? ==> p + 1 + |r.value| <= |s| && s[p + 1..p + 1 + |r.value|] == r.value
    ensures r.Some? ==> p + 1 + |r.value| == |s| || !IsNameChar(s[p + 1 + |r.value|])
  {
    if p < |s| && s[p] == '@' && (!lookBehind || FreeBefore(s, p)) then
      var n := RunLength(s, p + 1);
      if n >= 4 then Some(s[p + 1..p + 1 + n]) else None
    else None
  }

  /** A captured name: at least `minLen` characters, all from `[A-Za-z0-9_]`. */
  predicate ValidName(name: string, minLen: nat) {
    |name| >= minLen && forall k :: 0 <= k < |name| ==> IsNameChar(name[k])
  }

  datatype Found = Found(pos: nat, name: string)

  /** `search` for a link from `from` on: the leftmost matching position and its name. */
  function FindLink(s: string, from: nat, minLen: nat): (r: Option<Found>)
    requires from <= |s| && minLen >= 1
    ensures r.Some? ==> from <= r.value.pos <= |s| && LinkAt(s, r.value.pos, minLen) == Some(r.value.name)
    ensures forall q :: from <= q <= |s| && (r.None? || q < r.value.pos) ==> LinkAt(s, q, minLen).None?
    decreases |s| - from
  {
    match LinkAt(s, from, minLen)
    case Some(name) => Some(Found(from, name))
    case None => if from == |s| then None else FindLink(s, from + 1, minLen)
  }

  /** `search` for a handle from `from` on: the leftmost matching position and its name. */
  function FindHandle(s: string, from: nat, lookBehind: bool): (r: Option<Found>)
    requires from <= |s|
    ensures r.Some? ==> from <= r.value.pos <= |s| && HandleAt(s, r.value.pos, lookBehind) == Some(r.value.name)
    ensures forall q :: from <= q <= |s| && (r.None? || q < r.value.pos) ==> HandleAt(s, q, lookBehind).None?
    decreases |s| - from
  {
    match HandleAt(s, from, lookBehind)
    case Some(name) => Some(Found(from, name))
    case None => if from == |s| then None else FindHandle(s, from + 1, lookBehind)
  }

  /** Every link prefix ends in `/`, so a text without `/` holds no link. */
  lemma {:induction false} NoSlashNoLink(s: string, from: nat, minLen: nat)
    requires from <= |s| && minLen >= 1 && forall k :: 0 <= k < |s| ==> s[k] != '/'
    ensures FindLink(s, from, minLen).None?
    decreases |s| - from
  {
    NoSlashNoPrefix(s, from, "t.me/", 4);
    NoSlashNoPrefix(s, from, "http://t.me/", 5);
    NoSlashNoPrefix(s, from, "https://t.me/", 6);
    assert LinkAt(s, from, minLen).None?;
    if from < |s| {
      NoSlashNoLink(s, from + 1, minLen);
    }
  }

  lemma NoSlashNoPrefix(s: string, q: nat, lit: string, i: nat)
    requires forall k :: 0 <= k < |s| ==> s[k] != '/'
    requires i < |lit| && lit[i] == '/'
    ensures !AtIgnoringCase(s, q, lit)
  {
  }

  /** A suffix made only of name characters is one run. */
  lemma {:induction false} RunToEnd(s: string, i: nat)
    requires i <= |s| && forall k :: i <= k < |s| ==> IsNameChar(s[k])
    ensures RunLength(s, i) == |s| - i
    decreases |s| - i
  {
    if i < |s| {
      RunToEnd(s, i + 1);
    }
  }

  /** The run from `i` ends exactly `n` characters later when they are all name characters and a non-name character follows. */
  lemma {:induction false} RunStops(s: string, i: nat, n: nat)
    requires i + n < |s| && !IsNameChar(s[i + n])
    requires forall k :: i <= k < i + n ==> IsNameChar(s[k])
    ensures RunLength(s, i) == n
    decreases n
  {
    if n > 0 {
      RunStops(s, i + 1, n - 1);
    }
  }
}
