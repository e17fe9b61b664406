/**
 * The application settings: the account balance and risk percentage shared by
 * all panels, one indicator snapshot per pair, the defaults, and the check a
 * loaded settings document must pass.
 */
module Settings {
  import opened Wrappers
  import opened Signals

  datatype GlobalSettings = GlobalSettings(accountBalance: real, riskPercentage: real)

  datatype AppSettings = AppSettings(global: GlobalSettings, pairs: map<string, Snapshot>)

  /**
   * A settings document as parsed from disk, each of its two top-level
   * sections present or absent.
   */
  datatype ConfigDocument = ConfigDocument(
    globalSettings: Option<GlobalSettings>,
    pairSettings: Option<map<string, Snapshot>>)

  /** The pairs the dashboard shows, one tab each. */
  const PAIRS_TO_ANALYZE: seq<string> := ["EUR/USD", "GBP/USD", "USD/JPY", "AUD/USD"]

  /** The balance a fresh installation starts from; the journal reconciles against it. */
  const DEFAULT_BALANCE: real := 1000.0
  const DEFAULT_RISK_PERCENTAGE: real := 1.0

  /** The built-in settings: 1000 dollars at 1% risk, and a snapshot for each listed pair. */
  function DefaultSettings(): (s: AppSettings)
    ensures s.global == GlobalSettings(DEFAULT_BALANCE, DEFAULT_RISK_PERCENTAGE)
    ensures s.pairs.Keys == set p | p in PAIRS_TO_ANALYZE
  {
    AppSettings(
      GlobalSettings(DEFAULT_BALANCE, DEFAULT_RISK_PERCENTAGE),
      map[
        "EUR/USD" := Snapshot(1.08550, 1.08200, 40.0, 0.00150, false, false),
        "GBP/USD" := Snapshot(1.27000, 1.26800, 50.0, 0.00200, false, false),
        "USD/JPY" := Snapshot(157.100, 156.800, 60.0, 0.15000, false, false),
        "AUD/USD" := Snapshot(0.66500, 0.66300, 50.0, 0.00120, false, false)])
  }

  /**
   * Loading the settings: a document with both top-level sections is taken
   * as it is; a missing file, an unreadable document (`None`) or a document
   * lacking either section gives the defaults.
   */
  function LoadConfig(file: Option<ConfigDocument>): (s: AppSettings)
    ensures file.Some? && file.value.globalSettings.Some? && file.value.pairSettings.Some? ==>
      s.global == file.value.globalSettings.value && s.pairs == file.value.pairSettings.value
    ensures file.None? || file.value.globalSettings.None? || file.value.pairSettings.None? ==>
      s == DefaultSettings()
  {
    match file
    case Some(ConfigDocument(Some(global), Some(pairs))) => AppSettings(global, pairs)
    case _ => DefaultSettings()
  }

  /** The document the settings are saved as: both sections present. */
  function SaveConfig(s: AppSettings): (doc: ConfigDocument)
    ensures doc.globalSettings.Some? && doc.pairSettings.Some?
  {
    ConfigDocument(Some(s.global), Some(s.pairs))
  }

  /** Saved settings load back unchanged. */
  lemma SaveLoadRoundTrip(s: AppSettings)
    ensures LoadConfig(Some(SaveConfig(s))) == s
  {
  }

  /**
   * None of the default snapshots is a trade: every pair is above its EMA
   * with no candle flagged, EUR/USD with RSI inside the buy window (missing
   * only the candle), the others outside it.
   */
  lemma DefaultPairsWait()
    ensures Evaluate(DefaultSettings().pairs["EUR/USD"]) == Wait(Some(MissingBullishCandle))
    ensures Evaluate(DefaultSettings().pairs["GBP/USD"]) == Wait(Some(RsiNotInBuyZone))
    ensures Evaluate(DefaultSettings().pairs["USD/JPY"]) == Wait(Some(RsiNotInBuyZone))
    ensures Evaluate(DefaultSettings().pairs["AUD/USD"]) == Wait(Some(RsiNotInBuyZone))
  {
  }
}
