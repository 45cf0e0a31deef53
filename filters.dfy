/**
 * The filter/decision engine (scraper/filters.py): five gates over a channel
 * snapshot, run in a fixed order; the first gate that fails decides the
 * rejection and its reason text.
 *
 * The clock and `datetime.fromisoformat` are parameters: `now` is the current
 * instant and `parse` maps an ISO-8601 text to an instant, both in microseconds
 * since a fixed epoch, or to None where Python raises ValueError.
 */
module Filters {
  import opened Wrappers
  import opened Text
  import opened Settings

  datatype FilterResult = FilterResult(accepted: bool, reason: Option<string>)

  datatype ChannelSnapshot = ChannelSnapshot(
    subscriberCount: Option<int>,
    longFormVideos: int,
    lastLongformUpload: Option<string>,
    languageCode: Option<string>,
    emails: seq<string>)

  const MicrosPerDay: int := 86_400_000_000

  /** `(now - published).days`: whole days elapsed, rounded down as timedelta does. */
  function AgeDays(now: int, published: int): int {
    (now - published) / MicrosPerDay
  }

  /** The upper-cased normalized deny list, as a set. */
  function DenySet(filters: DiscoveryFilters): set<string> {
    set code | code in filters.languageGate.Normalized() :: Upper(code)
  }

  /** The language gate's condition: a non-empty code whose upper-cased form is denied. */
  predicate LanguageDenied(filters: DiscoveryFilters, code: Option<string>) {
    code.Some? && code.value != "" && Upper(code.value) in DenySet(filters)
  }

  function LanguageReason(code: string): string { "Language " + code + " denied" }

  function SubscribersReason(n: int, min: int): string {
    "Subscribers below threshold: " + IntToString(n) + " < " + IntToString(min)
  }

  function LongFormReason(n: int, min: int): string {
    "Insufficient long-form videos: " + IntToString(n) + " < " + IntToString(min)
  }

  const NoUploadReason: string := "No long-form upload date"
  const InvalidTimestampReason: string := "Invalid long-form upload timestamp"

  function TooOldReason(days: int, max: int): string {
    "Last upload too old: " + IntToString(days) + "d > " + IntToString(max) + "d"
  }

  const EmailGateReason: string := "Email gate enabled but no emails present"

  /** `apply_filters`: the chain of guarded early returns. */
  function ApplyFilters(filters: DiscoveryFilters, snapshot: ChannelSnapshot, now: int,
                        parse: string -> Option<int>): (r: FilterResult)
    ensures r.accepted <==> r.reason.None?
  {
    var code := snapshot.languageCode;
    if LanguageDenied(filters, code) then
      FilterResult(false, Some(LanguageReason(code.value)))
    else if snapshot.subscriberCount.Some? && snapshot.subscriberCount.value < filters.minSubscribers then
      FilterResult(false, Some(SubscribersReason(snapshot.subscriberCount.value, filters.minSubscribers)))
    else if snapshot.longFormVideos < filters.minLongformVideos then
      FilterResult(false, Some(LongFormReason(snapshot.longFormVideos, filters.minLongformVideos)))
    else if filters.maxLastUploadAgeDays.Some? && (snapshot.lastLongformUpload.None? || snapshot.lastLongformUpload.value == "") then
      FilterResult(false, Some(NoUploadReason))
    else if filters.maxLastUploadAgeDays.Some? && parse(snapshot.lastLongformUpload.value).None? then
      FilterResult(false, Some(InvalidTimestampReason))
    else if filters.maxLastUploadAgeDays.Some?
         && AgeDays(now, parse(snapshot.lastLongformUpload.value).value) > filters.maxLastUploadAgeDays.value then
      FilterResult(false, Some(TooOldReason(AgeDays(now, parse(snapshot.lastLongformUpload.value).value),
                                            filters.maxLastUploadAgeDays.value)))
    else if filters.emailGateOnly && snapshot.emails == [] then
      FilterResult(false, Some(EmailGateReason))
    else
      FilterResult(true, None)
  }

  // ---------------------------------------------------------------------------
  // Reference definition: each gate on its own, and the first failure in order.

  datatype Gate = LanguageDeny | MinSubscribers | MinLongForm | Recency | EmailRequired

  const GateOrder: seq<Gate> := [LanguageDeny, MinSubscribers, MinLongForm, Recency, EmailRequired]

  /** The verdict of one gate considered alone: None passes, Some(reason) rejects. */
  function GateVerdict(g: Gate, filters: DiscoveryFilters, snapshot: ChannelSnapshot, now: int,
                       parse: string -> Option<int>): Option<string>
  {
    match g
    case LanguageDeny =>
      var code := snapshot.languageCode;
      if LanguageDenied(filters, code) then Some(LanguageReason(code.value)) else None
    case MinSubscribers =>
      var n := snapshot.subscriberCount;
      if n.Some? && n.value < filters.minSubscribers
      then Some(SubscribersReason(n.value, filters.minSubscribers)) else None
    case MinLongForm =>
      if snapshot.longFormVideos < filters.minLongformVideos
      then Some(LongFormReason(snapshot.longFormVideos, filters.minLongformVideos)) else None
    case Recency =>
      (match filters.maxLastUploadAgeDays
       case None => None
       case Some(max) =>
         (match snapshot.lastLongformUpload
          case None => Some(NoUploadReason)
          case Some(stamp) =>
            if stamp == "" then Some(NoUploadReason)
            else (match parse(stamp)
              case None => Some(InvalidTimestampReason)
              case Some(published) =>
                if AgeDays(now, published) > max then Some(TooOldReason(AgeDays(now, published), max)) else None)))
    case EmailRequired =>
      if filters.emailGateOnly && snapshot.emails == [] then Some(EmailGateReason) else None
  }

  /** Run `gates` in order and stop at the first that rejects. */
  function FirstFailure(gates: seq<Gate>, filters: DiscoveryFilters, snapshot: ChannelSnapshot, now: int,
                        parse: string -> Option<int>): FilterResult
  {
    if gates == [] then FilterResult(true, None)
    else match GateVerdict(gates[0], filters, snapshot, now, parse)
      case Some(reason) => FilterResult(false, Some(reason))
      case None => FirstFailure(gates[1..], filters, snapshot, now, parse)
  }

  /** The source's chain is exactly the five gates run in the documented order. */
  lemma ApplyFiltersIsOrderedGates(filters: DiscoveryFilters, snapshot: ChannelSnapshot, now: int,
                                   parse: string -> Option<int>)
    ensures ApplyFilters(filters, snapshot, now, parse) == FirstFailure(GateOrder, filters, snapshot, now, parse)
  {
    var r := ApplyFilters(filters, snapshot, now, parse);
    if GateVerdict(LanguageDeny, filters, snapshot, now, parse).Some? {
      FirstFailingGateDecides(GateOrder, 0, filters, snapshot, now, parse);
    } else if GateVerdict(MinSubscribers, filters, snapshot, now, parse).Some? {
      FirstFailingGateDecides(GateOrder, 1, filters, snapshot, now, parse);
    } else if GateVerdict(MinLongForm, filters, snapshot, now, parse).Some? {
      FirstFailingGateDecides(GateOrder, 2, filters, snapshot, now, parse);
    } else if GateVerdict(Recency, filters, snapshot, now, parse).Some? {
      FirstFailingGateDecides(GateOrder, 3, filters, snapshot, now, parse);
    } else if GateVerdict(EmailRequired, filters, snapshot, now, parse).Some? {
      FirstFailingGateDecides(GateOrder, 4, filters, snapshot, now, parse);
    } else {
      AcceptedIffNoGateFails(GateOrder, filters, snapshot, now, parse);
    }
  }

  /** Running gates in order: the first gate that fails decides, whatever the later ones say. */
  lemma {:induction false} FirstFailingGateDecides(gates: seq<Gate>, i: nat, filters: DiscoveryFilters,
                                                   snapshot: ChannelSnapshot, now: int, parse: string -> Option<int>)
    requires i < |gates|
    requires GateVerdict(gates[i], filters, snapshot, now, parse).Some?
    requires forall j :: 0 <= j < i ==> GateVerdict(gates[j], filters, snapshot, now, parse).None?
    ensures FirstFailure(gates, filters, snapshot, now, parse)
            == FilterResult(false, GateVerdict(gates[i], filters, snapshot, now, parse))
  {
    if i > 0 {
      assert GateVerdict(gates[0], filters, snapshot, now, parse).None?;
      FirstFailingGateDecides(gates[1..], i - 1, filters, snapshot, now, parse);
    }
  }

  /** Running gates in order accepts exactly when no gate fails, and then gives no reason. */
  lemma {:induction false} AcceptedIffNoGateFails(gates: seq<Gate>, filters: DiscoveryFilters,
                                                  snapshot: ChannelSnapshot, now: int, parse: string -> Option<int>)
    ensures FirstFailure(gates, filters, snapshot, now, parse).accepted
            <==> forall j :: 0 <= j < |gates| ==> GateVerdict(gates[j], filters, snapshot, now, parse).None?
    ensures FirstFailure(gates, filters, snapshot, now, parse).accepted
            ==> FirstFailure(gates, filters, snapshot, now, parse).reason.None?
  {
    if gates != [] {
      AcceptedIffNoGateFails(gates[1..], filters, snapshot, now, parse);
      if GateVerdict(gates[0], filters, snapshot, now, parse).None? {
        forall j | 1 <= j < |gates|
          ensures GateVerdict(gates[j], filters, snapshot, now, parse) == GateVerdict(gates[1..][j - 1], filters, snapshot, now, parse)
        {
        }
      }
    }
  }

  /** The decision of `apply_filters`: rejected with the reason of the first failing gate, else accepted. */
  lemma ApplyFiltersFirstFailure(filters: DiscoveryFilters, snapshot: ChannelSnapshot, now: int,
                                 parse: string -> Option<int>, i: nat)
    requires i < |GateOrder|
    requires GateVerdict(GateOrder[i], filters, snapshot, now, parse).Some?
    requires forall j :: 0 <= j < i ==> GateVerdict(GateOrder[j], filters, snapshot, now, parse).None?
    ensures ApplyFilters(filters, snapshot, now, parse)
            == FilterResult(false, GateVerdict(GateOrder[i], filters, snapshot, now, parse))
  {
    ApplyFiltersIsOrderedGates(filters, snapshot, now, parse);
    FirstFailingGateDecides(GateOrder, i, filters, snapshot, now, parse);
  }

  lemma ApplyFiltersAcceptsIffAllPass(filters: DiscoveryFilters, snapshot: ChannelSnapshot, now: int,
                                      parse: string -> Option<int>)
    ensures ApplyFilters(filters, snapshot, now, parse).accepted
            <==> forall g :: g in GateOrder ==> GateVerdict(g, filters, snapshot, now, parse).None?
  {
    ApplyFiltersIsOrderedGates(filters, snapshot, now, parse);
    AcceptedIffNoGateFails(GateOrder, filters, snapshot, now, parse);
    assert forall g :: g in GateOrder <==> exists j :: 0 <= j < |GateOrder| && GateOrder[j] == g;
  }

  // ---------------------------------------------------------------------------
  // Facts about the individual gates.

  /** The language gate fires only for a non-empty code whose upper-cased form is denied; the reason quotes the code as given. */
  lemma LanguageGateCondition(filters: DiscoveryFilters, snapshot: ChannelSnapshot, now: int, parse: string -> Option<int>)
    ensures GateVerdict(LanguageDeny, filters, snapshot, now, parse).Some?
            <==> (snapshot.languageCode.Some? && snapshot.languageCode.value != ""
                  && exists d :: d in filters.languageGate.denyLanguages && Upper(d) == Upper(snapshot.languageCode.value))
    ensures GateVerdict(LanguageDeny, filters, snapshot, now, parse).Some?
            ==> GateVerdict(LanguageDeny, filters, snapshot, now, parse).value == "Language " + snapshot.languageCode.value + " denied"
  {
    var normalized := filters.languageGate.Normalized();
    var deny := filters.languageGate.denyLanguages;
    forall d | d in deny
      ensures Upper(d) in DenySet(filters)
    {
      var k :| 0 <= k < |deny| && deny[k] == d;
      UpperIdempotent(d);
      assert normalized[k] == Upper(d);
    }
    forall c | c in DenySet(filters)
      ensures exists d :: d in deny && Upper(d) == c
    {
      var n :| n in normalized && c == Upper(n);
      var k :| 0 <= k < |normalized| && normalized[k] == n;
      UpperIdempotent(deny[k]);
      assert deny[k] in deny && Upper(deny[k]) == c;
    }
  }

  /** The subscriber gate is skipped for an unknown count, and otherwise fires iff the count is below the minimum. */
  lemma SubscriberGateCondition(filters: DiscoveryFilters, snapshot: ChannelSnapshot, now: int, parse: string -> Option<int>)
    ensures snapshot.subscriberCount.None? ==> GateVerdict(MinSubscribers, filters, snapshot, now, parse).None?
    ensures snapshot.subscriberCount.Some? ==>
      GateVerdict(MinSubscribers, filters, snapshot, now, parse)
      == if snapshot.subscriberCount.value < filters.minSubscribers
         then Some("Subscribers below threshold: " + IntToString(snapshot.subscriberCount.value) + " < " + IntToString(filters.minSubscribers))
         else None
  {
  }

  /** The long-form gate fires iff fewer long-form videos than the minimum were counted, and says how many. */
  lemma LongFormGateCondition(filters: DiscoveryFilters, snapshot: ChannelSnapshot, now: int, parse: string -> Option<int>)
    ensures GateVerdict(MinLongForm, filters, snapshot, now, parse).Some? <==> snapshot.longFormVideos < filters.minLongformVideos
    ensures GateVerdict(MinLongForm, filters, snapshot, now, parse).Some? ==>
      GateVerdict(MinLongForm, filters, snapshot, now, parse).value
      == "Insufficient long-form videos: " + IntToString(snapshot.longFormVideos) + " < " + IntToString(filters.minLongformVideos)
  {
  }

  /** Without a maximum age the recency gate never fires, whatever the timestamp. */
  lemma RecencyUnsetNeverRejects(filters: DiscoveryFilters, snapshot: ChannelSnapshot, now: int, parse: string -> Option<int>)
    requires filters.maxLastUploadAgeDays.None?
    ensures GateVerdict(Recency, filters, snapshot, now, parse).None?
  {
  }

  /** With a maximum age the recency gate fires for a missing, unparsable or strictly too old timestamp, and only then. */
  lemma RecencyGateCondition(filters: DiscoveryFilters, snapshot: ChannelSnapshot, now: int, parse: string -> Option<int>)
    requires filters.maxLastUploadAgeDays.Some?
    ensures var v := GateVerdict(Recency, filters, snapshot, now, parse);
            var stamp := snapshot.lastLongformUpload;
            var max := filters.maxLastUploadAgeDays.value;
            if stamp.None? || stamp.value == "" then v == Some("No long-form upload date")
            else if parse(stamp.value).None? then v == Some("Invalid long-form upload timestamp")
            else if AgeDays(now, parse(stamp.value).value) > max
            then v == Some("Last upload too old: " + IntToString(AgeDays(now, parse(stamp.value).value)) + "d > " + IntToString(max) + "d")
            else v.None?
  {
  }

  /** An upload exactly the maximum number of days old still passes. */
  lemma RecencyBoundaryPasses(filters: DiscoveryFilters, snapshot: ChannelSnapshot, now: int, parse: string -> Option<int>)
    requires filters.maxLastUploadAgeDays.Some?
    requires snapshot.lastLongformUpload.Some? && snapshot.lastLongformUpload.value != ""
    requires parse(snapshot.lastLongformUpload.value).Some?
    requires now - parse(snapshot.lastLongformUpload.value).value == filters.maxLastUploadAgeDays.value * MicrosPerDay
    ensures GateVerdict(Recency, filters, snapshot, now, parse).None?
  {
    var max := filters.maxLastUploadAgeDays.value;
    assert AgeDays(now, parse(snapshot.lastLongformUpload.value).value) == max;
  }

  /** The email gate fires iff it is enabled and no email was extracted. */
  lemma EmailGateCondition(filters: DiscoveryFilters, snapshot: ChannelSnapshot, now: int, parse: string -> Option<int>)
    ensures GateVerdict(EmailRequired, filters, snapshot, now, parse).Some? <==> filters.emailGateOnly && snapshot.emails == []
  {
  }

  // ---------------------------------------------------------------------------
  // Worked examples.

  /** 500 subscribers against a minimum of 1000 are rejected with that reason, whatever later gates would say. */
  lemma SubscriberExample(filters: DiscoveryFilters, snapshot: ChannelSnapshot, now: int, parse: string -> Option<int>)
    requires filters.minSubscribers == 1000 && snapshot.subscriberCount == Some(500)
    requires snapshot.languageCode == None
    ensures ApplyFilters(filters, snapshot, now, parse) == FilterResult(false, Some("Subscribers below threshold: 500 < 1000"))
  {
    assert NatToString(500) == "500" by {
      assert NatToString(5) == "5";
      assert NatToString(50) == "50";
    }
    assert NatToString(1000) == "1000" by {
      assert NatToString(1) == "1";
      assert NatToString(10) == "10";
      assert NatToString(100) == "100";
    }
    assert SubscribersReason(500, 1000) == "Subscribers below threshold: 500 < 1000";
  }

  /** A last long-form upload 200 days ago against a maximum of 120 days is rejected naming both counts. */
  lemma RecencyExample(filters: DiscoveryFilters, snapshot: ChannelSnapshot, now: int, parse: string -> Option<int>)
    requires filters.maxLastUploadAgeDays == Some(120)
    requires snapshot.lastLongformUpload.Some? && snapshot.lastLongformUpload.value != ""
    requires parse(snapshot.lastLongformUpload.value) == Some(now - 200 * MicrosPerDay)
    ensures GateVerdict(Recency, filters, snapshot, now, parse) == Some("Last upload too old: 200d > 120d")
  {
    assert AgeDays(now, now - 200 * MicrosPerDay) == 200;
    assert NatToString(200) == "200" by {
      assert NatToString(2) == "2";
      assert NatToString(20) == "20";
    }
    assert NatToString(120) == "120" by {
      assert NatToString(1) == "1";
      assert NatToString(12) == "12";
    }
    assert TooOldReason(200, 120) == "Last upload too old: 200d > 120d";
  }

  /** The default filters deny Hindi in any letter case, quoting the code as given. */
  lemma DefaultFiltersDenyHindi(snapshot: ChannelSnapshot, now: int, parse: string -> Option<int>)
    requires snapshot.languageCode.Some? && Upper(snapshot.languageCode.value) == "HI"
    ensures ApplyFilters(DefaultDiscoveryFilters(), snapshot, now, parse)
            == FilterResult(false, Some("Language " + snapshot.languageCode.value + " denied"))
  {
    var filters := DefaultDiscoveryFilters();
    assert filters.languageGate.Normalized() == ["HI"] by {
      assert Upper("HI") == "HI";
    }
    assert Upper("HI") == "HI";
    assert DenySet(filters) == {"HI"};
  }
}
