/**
 * `extract_telegram` of the backend (backend/scraper/telegram_extract.py):
 * the first `t.me/` link with a name of at least four characters, else the
 * first `@name` with at least four, returned as `@name`.
 *
 * The handle loop tests a condition that is always false (the text always
 * contains the `@name` it was matched in), and both of its branches return
 * the same value, so the loop amounts to "the first handle match".
 */
module TelegramExtract {
  import opened Wrappers
  import opened Text
  import opened TelegramScan

  const MinNameLength: nat := 4

  function ExtractTelegram(text: Option<string>): (r: Option<string>)
    ensures !Present(text) ==> r.None?
    ensures r.Some? ==> |r.value| >= 1 + MinNameLength && r.value[0] == '@'
  {
    if !Present(text) then None
    else
      match FindLink(text.value, 0, MinNameLength)
      case Some(link) => Some("@" + link.name)
      case None =>
        match FindHandle(text.value, 0, false)
        case Some(handle) => Some("@" + handle.name)
        case None => None
  }

  /** The loop's guard: `@name` is missing from the text it was matched in. It never holds. */
  lemma HandleGuardNeverHolds(text: string, p: nat)
    requires p <= |text| && HandleAt(text, p, false).Some?
    ensures Contains(text, "@" + HandleAt(text, p, false).value)
  {
    var name := HandleAt(text, p, false).value;
    AtThenName(text, p, name);
    ContainsAt(text, "@" + name, p);
  }

  lemma AtThenName(s: string, p: nat, name: string)
    requires p < |s| && s[p] == '@'
    requires p + 1 + |name| <= |s| && s[p + 1..p + 1 + |name|] == name
    ensures s[p..p + 1 + |name|] == "@" + name
  {
    assert s[p..p + 1 + |name|] == [s[p]] + s[p + 1..p + 1 + |name|];
  }

  /** A link wins over any handle; without one, the leftmost handle is taken. */
  lemma ExtractCases(text: string)
    requires text != ""
    ensures FindLink(text, 0, MinNameLength).Some? ==>
              ExtractTelegram(Some(text)) == Some("@" + FindLink(text, 0, MinNameLength).value.name)
    ensures FindLink(text, 0, MinNameLength).None? ==>
              ExtractTelegram(Some(text)) ==
                if FindHandle(text, 0, false).Some? then Some("@" + FindHandle(text, 0, false).value.name) else None
  {
  }

  /**
   * With no look-behind, the domain of an e-mail address reads as a handle:
   * `<user>@<name>.<rest>` gives `@<name>` when there is no link.
   */
  lemma EmailDomainReadsAsHandle(user: string, name: string, rest: string)
    requires ValidName(name, MinNameLength)
    requires forall k :: 0 <= k < |user| ==> user[k] != '@' && user[k] != '/'
    requires forall k :: 0 <= k < |rest| ==> rest[k] != '/'
    ensures ExtractTelegram(Some(user + "@" + name + "." + rest)) == Some("@" + name)
  {
    var text := user + "@" + name + "." + rest;
    var p := |user|;
    EmailTextLayout(user, name, rest);
    NoSlashNoLink(text, 0, MinNameLength);
    HandleAtName(text, p, name);
    NoAtNoHandle(text, p);
    FirstHandleAt(text, 0, p);
  }

  /** Where the parts of `<user>@<name>.<rest>` sit. */
  lemma EmailTextLayout(user: string, name: string, rest: string)
    requires forall k :: 0 <= k < |user| ==> user[k] != '@' && user[k] != '/'
    requires forall k :: 0 <= k < |rest| ==> rest[k] != '/'
    requires forall k :: 0 <= k < |name| ==> IsNameChar(name[k])
    ensures var text := user + "@" + name + "." + rest;
      && |text| == |user| + |name| + 2 + |rest|
      && text[|user|] == '@'
      && text[|user| + 1..|user| + 1 + |name|] == name
      && text[|user| + 1 + |name|] == '.'
      && (forall k :: 0 <= k < |user| ==> text[k] != '@')
      && (forall k :: 0 <= k < |text| ==> text[k] != '/')
  {
    var text := user + "@" + name + "." + rest;
    assert text == user + ("@" + name + "." + rest);
    assert text[|user| + 1..|user| + 1 + |name|] == name;
  }

  /** `@` followed by a whole run `name` of at least four name characters is a handle. */
  lemma HandleAtName(s: string, p: nat, name: string)
    requires p < |s| && s[p] == '@' && ValidName(name, 4)
    requires p + 1 + |name| < |s| && s[p + 1..p + 1 + |name|] == name
    requires !IsNameChar(s[p + 1 + |name|])
    ensures HandleAt(s, p, false) == Some(name)
  {
    assert forall k :: p + 1 <= k < p + 1 + |name| ==> s[k] == name[k - p - 1];
    RunStops(s, p + 1, |name|);
  }

  /** No handle starts before `p` when no `@` does. */
  lemma NoAtNoHandle(s: string, p: nat)
    requires p <= |s| && forall k :: 0 <= k < p ==> s[k] != '@'
    ensures forall q :: 0 <= q < p ==> HandleAt(s, q, false).None?
  {
  }

  /** When no position from `from` up to `p` holds a handle and `p` does, the search from `from` returns `p`. */
  lemma {:induction false} FirstHandleAt(s: string, from: nat, p: nat)
    requires from <= p <= |s| && HandleAt(s, p, false).Some?
    requires forall q :: from <= q < p ==> HandleAt(s, q, false).None?
    ensures FindHandle(s, from, false) == Some(Found(p, HandleAt(s, p, false).value))
    decreases p - from
  {
    if from < p {
      assert HandleAt(s, from, false).None?;
      FirstHandleAt(s, from + 1, p);
    }
  }
}
