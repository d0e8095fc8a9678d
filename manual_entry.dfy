/**
 * The manual entry commands of src-tauri/src/manual_entry/mod.rs: the quick
 * note, which becomes a "manual" record, and the tail of the application's log
 * file. The record store and the log file are inputs.
 */
module ManualEntry {
  import opened Wrappers
  import opened Text
  import opened Storage
  import opened ApiKey

  const EmptyContentMessage := "Content cannot be empty"

  function SaveFailureMessage(cause: string): string {
    "Failed to save note: " + cause
  }

  /** The log line after a saved note previews its first 50 bytes. */
  const PreviewBytes: nat := 50

  /**
   * Cutting a note at `min(len, 50)` bytes for the log preview panics exactly
   * when the note is longer than 50 bytes and byte 50 continues a character.
   */
  predicate PreviewPanics(content: string) {
    |Utf8(content)| > PreviewBytes && IsContinuation(Utf8(content)[PreviewBytes])
  }

  /** A quick note's end and the record log after it. */
  datatype Noted = Noted(outcome: Outcome<Result<(), string>>, log: seq<NewRecord>)

  /**
   * `add_quick_note`: refuses a note that is only white space; otherwise stores
   * it, untrimmed and without a screenshot, as a "manual" record, and then cuts
   * the byte preview of the log line, which panics after the record is stored
   * when the cut falls inside a character. `failure` is the store's error, if it fails.
   */
  function AddQuickNote(content: string, log: seq<NewRecord>, failure: Option<string>): (n: Noted)
    ensures n.log == if !AllWhitespace(content) && failure.None? then log + [NewRecord(ManualSource, content, None)] else log
    ensures n.outcome.Panicked? <==> !AllWhitespace(content) && failure.None? && PreviewPanics(content)
    ensures n.outcome == Returned(Success(())) <==> !AllWhitespace(content) && failure.None? && !PreviewPanics(content)
    ensures AllWhitespace(content) ==> n.outcome == Returned(Failure(EmptyContentMessage))
    ensures !AllWhitespace(content) && failure.Some? ==> n.outcome == Returned(Failure(SaveFailureMessage(failure.value)))
  {
    TrimEmptyIff(content);
    if Trim(content) == [] then Noted(Returned(Failure(EmptyContentMessage)), log)
    else
      var stored := AddRecord(log, NewRecord(ManualSource, content, None), failure);
      match stored.result
      case Failure(e) => Noted(Returned(Failure(SaveFailureMessage(e))), stored.log)
      case Success(_) =>
        if PreviewPanics(content) then Noted(Panicked, stored.log) else Noted(Returned(Success(())), stored.log)
  }

  /**
   * `add_quick_note` with the preview taken as the first 50 characters, which
   * never panics: the note succeeds iff it is not all white space and the store
   * does not fail, and the log gains exactly the note in that case.
   */
  function AddQuickNoteCharPreview(content: string, log: seq<NewRecord>, failure: Option<string>): (a: Appended)
    ensures a.result.Success? <==> !AllWhitespace(content) && failure.None?
    ensures a.log == if a.result.Success? then log + [NewRecord(ManualSource, content, None)] else log
    ensures AllWhitespace(content) ==> a.result == Failure(EmptyContentMessage)
    ensures !AllWhitespace(content) && failure.Some? ==> a.result == Failure(SaveFailureMessage(failure.value))
  {
    TrimEmptyIff(content);
    if Trim(content) == [] then Appended(Failure(EmptyContentMessage), log)
    else
      var stored := AddRecord(log, NewRecord(ManualSource, content, None), failure);
      match stored.result
      case Failure(e) => Appended(Failure(SaveFailureMessage(e)), stored.log)
      case Success(_) => stored
  }

  /**
   * Both versions store the same records; they differ only where the byte
   * preview panics, which no ASCII note can make it do.
   */
  lemma {:induction false} NotePreviewAgrees(content: string, log: seq<NewRecord>, failure: Option<string>)
    ensures AddQuickNote(content, log, failure).log == AddQuickNoteCharPreview(content, log, failure).log
    ensures !PreviewPanics(content) ==>
              AddQuickNote(content, log, failure).outcome == Returned(AddQuickNoteCharPreview(content, log, failure).result)
    ensures (forall i :: 0 <= i < |content| ==> content[i] as int < 128) ==> !PreviewPanics(content)
  {
    if forall i :: 0 <= i < |content| ==> content[i] as int < 128 {
      Utf8OfAscii(content);
    }
  }

  /** A note of 17 or more three-byte characters (most Chinese text) panics once stored. */
  lemma {:induction false} ThreeByteNotePanics(content: string, log: seq<NewRecord>)
    requires forall i :: 0 <= i < |content| ==> 0x800 <= content[i] as int < 0x10000
    requires |content| >= 17 && !AllWhitespace(content)
    ensures PreviewPanics(content)
    ensures AddQuickNote(content, log, None) == Noted(Panicked, log + [NewRecord(ManualSource, content, None)])
  {
    Utf8OfThreeByteChars(content, PreviewBytes);
  }

  /** "今天完成了日报模块的设计与实现工作": seventeen characters, 51 bytes, byte 50 inside the last one. */
  const ChineseNote := "今天完成了日报模块的" + "设计与实现工作"

  lemma {:induction false} ChineseNotePanics(log: seq<NewRecord>)
    ensures AddQuickNote(ChineseNote, log, None) == Noted(Panicked, log + [NewRecord(ManualSource, ChineseNote, None)])
  {
    assert |ChineseNote| == 17;
    assert !IsWhitespace(ChineseNote[0]);
    ThreeByteNotePanics(ChineseNote, log);
  }

  /** A note padded with white space is stored as written, padding included. */
  lemma {:induction false} NoteStoredUntrimmed(p: string, m: string, q: string, log: seq<NewRecord>)
    requires AllWhitespace(p) && AllWhitespace(q) && !AllWhitespace(m)
    ensures AddQuickNote(p + m + q, log, None).log == log + [NewRecord(ManualSource, p + m + q, None)]
    ensures AddQuickNoteCharPreview(p + m + q, log, None).log == log + [NewRecord(ManualSource, p + m + q, None)]
  {
    var s := p + m + q;
    var k :| 0 <= k < |m| && !IsWhitespace(m[k]);
    assert s[|p| + k] == m[k];
  }

  /** `Iterator::rev`. */
  function Reverse<T>(s: seq<T>): (r: seq<T>)
    ensures |r| == |s|
    ensures forall i :: 0 <= i < |s| ==> r[i] == s[|s| - 1 - i]
  {
    if s == [] then [] else Reverse(s[1..]) + [s[0]]
  }

  /** `Iterator::take`. */
  function Take<T>(s: seq<T>, n: nat): (r: seq<T>)
    ensures |r| == if n < |s| then n else |s|
    ensures r == s[..|r|]
  {
    if n < |s| then s[..n] else s
  }

  function Min(a: nat, b: nat): nat {
    if a < b then a else b
  }

  /** The lines of a file reversed, cut to `n`, reversed back: its last `n` lines, in file order. */
  function RecentLines(ls: seq<string>, n: nat): (r: seq<string>)
    ensures r == ls[|ls| - Min(n, |ls|)..]
  {
    var r := Reverse(Take(Reverse(ls), n));
    assert r == ls[|ls| - Min(n, |ls|)..] by {
      var m := Min(n, |ls|);
      forall i | 0 <= i < m
        ensures r[i] == ls[|ls| - m + i]
      {
      }
    }
    r
  }

  const DefaultLogLines: nat := 300
  const NoDataDirMessage := "Cannot determine data directory"

  function ReadFailureMessage(cause: string): string {
    "Failed to read log file: " + cause
  }

  /** What the file system says about `DailyLogger/logs/daily-logger.log` under the data directory. */
  datatype LogFile = NoDataDir | Missing | Unreadable(cause: string) | Present(text: string)

  /** `get_recent_logs`: the last `lines` (default 300) lines of the log, joined by "\n". */
  function GetRecentLogs(lines: Option<nat>, file: LogFile): (r: Result<string, string>)
    ensures file.NoDataDir? ==> r == Failure(NoDataDirMessage)
    ensures file.Missing? ==> r == Success([])
    ensures file.Unreadable? ==> r == Failure(ReadFailureMessage(file.cause))
    ensures file.Present? ==>
              var ls := Lines(file.text);
              r == Success(Join(ls[|ls| - Min(lines.GetOr(DefaultLogLines), |ls|)..], "\n"))
  {
    match file
    case NoDataDir => Failure(NoDataDirMessage)
    case Missing => Success([])
    case Unreadable(e) => Failure(ReadFailureMessage(e))
    case Present(text) =>
      var ls := Lines(text);
      var n := lines.GetOr(DefaultLogLines);
      var tail := RecentLines(ls, n);
      assert tail == ls[|ls| - Min(n, |ls|)..];
      Success(Join(tail, "\n"))
  }

  /** Asking for no count is asking for 300 lines. */
  lemma {:induction false} RecentLogsDefault(file: LogFile)
    ensures GetRecentLogs(None, file) == GetRecentLogs(Some(300), file)
  {
  }

  /** Asking for zero lines gives the empty text. */
  lemma {:induction false} RecentLogsZero(text: string)
    ensures GetRecentLogs(Some(0), Present(text)) == Success([])
  {
  }

  /**
   * When every line of the log is a plain line, the answer splits into exactly
   * the last `n` lines of the log, in order.
   */
  lemma {:induction false} RecentLogsAreLastLines(n: nat, text: string)
    requires forall k :: 0 <= k < |Lines(text)| ==> IsPlainLine(Lines(text)[k])
    ensures var ls := Lines(text);
            Lines(GetRecentLogs(Some(n), Present(text)).value) == ls[|ls| - Min(n, |ls|)..]
  {
    var ls := Lines(text);
    var start := |ls| - Min(n, |ls|);
    var tail := RecentLines(ls, n);
    assert tail == ls[start..];
    assert GetRecentLogs(Some(n), Present(text)) == Success(Join(tail, "\n"));
    forall k | 0 <= k < |tail|
      ensures IsPlainLine(tail[k])
    {
      assert tail[k] == ls[start + k];
    }
    LinesOfJoin(tail);
  }

  /**
   * A log with "\n" line ends and no final one comes back whole when at least
   * as many lines are asked for as it has.
   */
  lemma {:induction false} RecentLogsWholeFile(n: nat, text: string)
    requires forall j :: 0 <= j < |text| ==> text[j] != '\r'
    requires text == [] || text[|text| - 1] != '\n'
    requires n >= |Lines(text)|
    ensures GetRecentLogs(Some(n), Present(text)) == Success(text)
  {
    JoinOfLines(text);
  }
}
