/**
 * `CaptureSettings`, its `Default`, and `load_capture_settings` of
 * src-tauri/src/auto_perception/mod.rs: the per-cycle snapshot of the
 * configuration, with the documented defaults for absent fields.
 */
module CaptureSettingsModel {
  import opened Wrappers
  import opened Storage

  const OpenAiBaseUrl := "https://api.openai.com/v1"
  const DefaultModelName := "gpt-4o"
  const DefaultScreenshotInterval: nat := 5
  /** A screen change below 3% counts as unchanged. */
  const DefaultChangeThreshold: real := 3.0
  /** A capture is forced after 30 minutes without one. */
  const DefaultMaxSilentMinutes: nat := 30

  /**
   * The settings row as the capture pipeline reads it: every field optional.
   * The three capture-only fields are integers as the loader's defaults are.
   */
  datatype StoredCaptureSettings = StoredCaptureSettings(
    apiBaseUrl: Option<string>,
    apiKey: Option<string>,
    modelName: Option<string>,
    screenshotInterval: Option<I32>,
    analysisPrompt: Option<string>,
    changeThreshold: Option<I32>,
    maxSilentMinutes: Option<I32>)

  /** `CaptureSettings`; the two `u64` fields are naturals below 2^64. */
  datatype CaptureSettings = CaptureSettings(
    apiBaseUrl: string,
    apiKey: string,
    modelName: string,
    screenshotInterval: nat,
    analysisPrompt: Option<string>,
    changeThreshold: real,
    maxSilentMinutes: nat)

  /** `CaptureSettings::default`. */
  function DefaultCaptureSettings(): (d: CaptureSettings)
    ensures d.apiKey == [] && d.analysisPrompt.None?
  {
    CaptureSettings(OpenAiBaseUrl, "", DefaultModelName, DefaultScreenshotInterval, None,
                    DefaultChangeThreshold, DefaultMaxSilentMinutes)
  }

  /**
   * `load_capture_settings`: a store that cannot be read gives the defaults;
   * a row that was read gives its fields with per-field defaults, where an
   * absent base URL becomes the empty string, not the default endpoint.
   */
  function LoadCaptureSettings(stored: Result<StoredCaptureSettings, string>): (c: CaptureSettings)
    ensures stored.Failure? ==> c == DefaultCaptureSettings()
    ensures stored.Success? ==> c.analysisPrompt == stored.value.analysisPrompt
    ensures stored.Success? ==> (c.apiKey == [] <==> stored.value.apiKey.GetOr("") == "")
  {
    match stored
    case Success(s) =>
      CaptureSettings(
        s.apiBaseUrl.GetOr(""),
        s.apiKey.GetOr(""),
        s.modelName.GetOr(DefaultModelName),
        AsU64(s.screenshotInterval.GetOr(5)),
        s.analysisPrompt,
        s.changeThreshold.GetOr(3) as real,
        AsU64(s.maxSilentMinutes.GetOr(30)))
    case Failure(_) => DefaultCaptureSettings()
  }

  /** A row with every field absent. */
  const EmptyRow := StoredCaptureSettings(None, None, None, None, None, None, None)

  /**
   * An empty row loads as the defaults except for the base URL, which is ""
   * instead of the OpenAI endpoint that an unreadable store falls back to.
   */
  lemma {:induction false} EmptyRowDiffersOnlyInBaseUrl()
    ensures LoadCaptureSettings(Success(EmptyRow)) == DefaultCaptureSettings().(apiBaseUrl := "")
    ensures LoadCaptureSettings(Failure("unreadable")).apiBaseUrl == OpenAiBaseUrl
    ensures LoadCaptureSettings(Success(EmptyRow)).apiBaseUrl != LoadCaptureSettings(Failure("unreadable")).apiBaseUrl
  {
  }

  /** Settings whose numbers fit the row's `i32` columns, the threshold being a whole number. */
  predicate Storable(c: CaptureSettings) {
    && c.screenshotInterval < 0x8000_0000
    && c.maxSilentMinutes < 0x8000_0000
    && c.changeThreshold == c.changeThreshold.Floor as real
    && -0x8000_0000 <= c.changeThreshold.Floor < 0x8000_0000
  }

  /** The row that stores `c` with every field present. */
  function Stored(c: CaptureSettings): StoredCaptureSettings
    requires Storable(c)
  {
    StoredCaptureSettings(Some(c.apiBaseUrl), Some(c.apiKey), Some(c.modelName),
                          Some(c.screenshotInterval as I32), c.analysisPrompt,
                          Some(c.changeThreshold.Floor as I32), Some(c.maxSilentMinutes as I32))
  }

  /** Present fields are taken as they are: loading a fully stored row gives back what was stored. */
  lemma {:induction false} LoadStoredRoundTrip(c: CaptureSettings)
    requires Storable(c)
    ensures LoadCaptureSettings(Success(Stored(c))) == c
  {
  }

  /** A negative interval in the row wraps around in the `as u64` cast instead of failing. */
  lemma {:induction false} NegativeIntervalWraps()
    ensures LoadCaptureSettings(Success(EmptyRow.(screenshotInterval := Some(-1)))).screenshotInterval == U64Modulus - 1
  {
  }
}
