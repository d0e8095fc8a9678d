/**
 * The shapes the core exchanges with the record store and the settings store
 * (src-tauri/src/memory_storage/mod.rs). The SQL behind them is not part of
 * this model: the record log is an append-only sequence, and a store call that
 * fails is an input carrying the store's own message.
 */
module Storage {
  import opened Wrappers

  /** Rust's `i32`. */
  type I32 = x: int | -0x8000_0000 <= x < 0x8000_0000

  const U64Modulus: nat := 0x1_0000_0000_0000_0000

  /** `x as u64` on an `i32`: sign extension, so a negative value wraps to 2^64 + x. */
  function AsU64(x: I32): (r: nat)
    ensures r < U64Modulus
    ensures x >= 0 ==> r == x
    ensures x < 0 ==> r == U64Modulus + x
  {
    if x >= 0 then x else U64Modulus + x
  }

  /** The `Settings` row. */
  datatype Settings = Settings(
    apiBaseUrl: Option<string>,
    apiKey: Option<string>,
    modelName: Option<string>,
    screenshotInterval: Option<I32>,
    summaryTime: Option<string>,
    obsidianPath: Option<string>,
    autoCaptureEnabled: Option<bool>,
    lastSummaryPath: Option<string>)

  /** A stored `Record`, as read back for the daily summary. */
  datatype Record = Record(
    id: int,
    timestamp: string,
    sourceType: string,
    content: string,
    screenshotPath: Option<string>)

  /** The arguments of one `add_record` call; the id and timestamp are the store's. */
  datatype NewRecord = NewRecord(sourceType: string, content: string, screenshotPath: Option<string>)

  const AutoSource := "auto"
  const ManualSource := "manual"

  datatype Appended = Appended(result: Result<(), string>, log: seq<NewRecord>)

  /**
   * `add_record` on the log `log`: appends `rec`, or, when the store reports
   * `failure`, returns that message and leaves the log as it was.
   */
  function AddRecord(log: seq<NewRecord>, rec: NewRecord, failure: Option<string>): (a: Appended)
    ensures a.result.Success? <==> failure.None?
    ensures a.log == if failure.None? then log + [rec] else log
  {
    match failure
    case None => Appended(Success(()), log + [rec])
    case Some(e) => Appended(Failure(e), log)
  }
}
