/**
 * Configuration records of the discovery and enrichment pipeline, with the
 * defaults the dataclasses declare (scraper/settings.py).
 *
 * Dafny values are immutable, so every `LanguageGate` holds its own deny list:
 * the per-instance copy of the default list needs no modelling.
 */
module Settings {
  import opened Wrappers
  import opened Text

  const DefaultDenyLanguages: seq<string> := ["HI"]
  const DefaultMinSubscribers: int := 1000
  const DefaultMinLongform: int := 5
  const DefaultMaxLastUploadAgeDays: int := 120

  datatype LanguageGate = LanguageGate(denyLanguages: seq<string>)
  {
    /** The deny list upper-cased, element by element. */
    function Normalized(): (r: seq<string>)
      ensures |r| == |denyLanguages|
      ensures forall i :: 0 <= i < |r| ==> r[i] == Upper(denyLanguages[i])
    {
      seq(|denyLanguages|, i requires 0 <= i < |denyLanguages| => Upper(denyLanguages[i]))
    }
  }

  /** Normalizing an already normalized gate changes nothing. */
  lemma NormalizedIdempotent(gate: LanguageGate)
    ensures LanguageGate(gate.Normalized()).Normalized() == gate.Normalized()
  {
    var once := gate.Normalized();
    var twice := LanguageGate(once).Normalized();
    forall i | 0 <= i < |once|
      ensures twice[i] == once[i]
    {
      UpperIdempotent(gate.denyLanguages[i]);
    }
  }

  /**
   * `max_last_upload_age_days` is declared `int`, but the recency gate treats
   * `None` as "no recency requirement", so the model keeps it optional.
   */
  datatype DiscoveryFilters = DiscoveryFilters(
    languageGate: LanguageGate,
    minSubscribers: int,
    minLongformVideos: int,
    maxLastUploadAgeDays: Option<int>,
    emailGateOnly: bool)

  /** Modes are free text: "description" / "longform" / "full" and "fast" / "precise". */
  datatype EnrichmentSettings = EnrichmentSettings(
    emailMode: string,
    languageMode: string,
    telegramDetection: bool,
    persist: bool)

  datatype DiscoverySettings = DiscoverySettings(
    queries: seq<string>,
    filters: DiscoveryFilters,
    enrichment: EnrichmentSettings,
    maxConcurrency: int,
    maxResultsPerQuery: Option<int>)

  function DefaultLanguageGate(): LanguageGate {
    LanguageGate(DefaultDenyLanguages)
  }

  function DefaultDiscoveryFilters(): DiscoveryFilters {
    DiscoveryFilters(DefaultLanguageGate(), DefaultMinSubscribers, DefaultMinLongform,
                     Some(DefaultMaxLastUploadAgeDays), false)
  }

  function DefaultEnrichmentSettings(): EnrichmentSettings {
    EnrichmentSettings("full", "precise", true, true)
  }

  function DefaultDiscoverySettings(): DiscoverySettings {
    DiscoverySettings([], DefaultDiscoveryFilters(), DefaultEnrichmentSettings(), 10, None)
  }
}
