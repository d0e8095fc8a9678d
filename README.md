# DailyLogger capture pipeline, modelled in Dafny

DailyLogger is a desktop work-journal. In the background it takes
screenshots at an interval, keeps only those that differ enough from the
last kept one (or that end a long silence), sends each to a vision model and
stores the model's structured reply as an "auto" record. The user can add
"manual" quick notes. Once a day, all of the day's records go to a chat model,
and the Markdown report it returns is written into an Obsidian folder.

This project models that logic and proves properties about it:

- **Fingerprint engine** (`fingerprint.dfy`). This is the change rate of two 64x64
  grayscale thumbnails: the percentage of positions whose intensities differ by
  more than 10. The rate is 100 when the lengths differ.
- **Capture gate** (`gate.dfy`). This is the `ScreenState` object: the last kept
  fingerprint and the time of the last kept capture. `ShouldCapture` updates the
  state in place. It proceeds on the first sample, on a change at or above the
  threshold, or once the silence window is over.
- **Capture settings** (`capture_settings.dfy`). These are the per-cycle settings,
  with their defaults and the two fallback paths of the loader.
- **Screen analysis** (`analysis.dfy`, `chat_api.dfy`). This covers the choice of
  prompt, the vision request, the classification of a rejected request, the
  stripping of Markdown code fences, and the error messages of the analysis.
- **Scheduler** (`scheduler.dfy`). One capture cycle is a pure function. It maps
  the screen state, plus the outcomes of the collaborators, to a result, a new
  screen state, the trace of steps taken, and the record stored. The
  `AutoCapture` class holds the running flag, the spawned background loops, the
  screen state and the record log. Its methods are `start`, `stop`, `trigger`
  and one wake-up (`Tick`) of a loop.
- **API-key masking** (`api_key.dfy`), on the key's UTF-8 bytes. `Text.Utf8`
  gives those bytes for a string.
- **Manual entry** (`manual_entry.dfy`). This covers the quick-note check and the
  "last n lines" view of the log.
- **Daily summary** (`synthesis.dfy`). This covers the validation chain, the
  one-line-per-record text, the request, the output path, and the settings
  written back.
- **Shared pieces.** `text.dfy` holds the `str` operations the code relies on:
  Unicode `trim`, `trim_end_matches`, `lines` and `join`. `storage.dfy` holds
  the settings and record types of the store and the append of a record.
  `wrappers.dfy` holds `Option`, `Result`, and `Outcome`, which records whether
  a call returns or panics.

Rust's `f64` is modelled as an exact `real`. The monotonic clock is a parameter `now` in
seconds. The screen grab, image decoding, HTTP, JSON, `chrono` formatting,
the SQLite store and the file system are inputs of the functions that use
them, each given as the outcome the code can observe.

Where the scheduler's intended behaviour and the code differ, the model
follows the code:

- The first cycle of a spawned loop runs without looking at the running flag.
- A `stop` followed by a `start` before the old loop next wakes leaves two live
  loops. Both run cycles, because the flag cannot tell them apart.
  `Scheduler.StopThenRestart` shows this.
- When the settings row was read, an absent base URL becomes the empty
  string. The OpenAI endpoint is used only when the row cannot be read.
- Before the vision request, `analyze_screen` logs the key through
  `mask_api_key`, which can panic. The panic comes after the gate has moved
  and the screenshot is saved. It ends the spawned loop but leaves the flag
  set, so later starts do nothing until a stop. `Scheduler.UnmaskableKeyKillsLoop`
  shows this.

Two log lines cut strings by bytes: the key mask and the preview of a quick
note. Both are modelled as panics on the UTF-8 bytes; see "## Findings".
The key mask is computed on every cycle that reaches the request, before
the log call and whatever the log level. The note preview is cut inside the
log call, so it runs only when info-level events are enabled, and the
application enables them (src-tauri/src/main.rs:25).

## Model

| member | source | states |
|---|---|---|
| Fingerprint.CountChanged | src-tauri/src/auto_perception/mod.rs:59-63 | the number of changed positions is at most the length |
| Fingerprint.ChangeRate | src-tauri/src/auto_perception/mod.rs:53-65 | the rate lies in [0, 100]; digests of different lengths give 100 whatever their contents |
| Fingerprint.CountIsChangedPositions | src-tauri/src/auto_perception/mod.rs:59-63 | the count is the size of the set of positions whose difference exceeds the tolerance of 10 |
| Fingerprint.CountZeroIff | src-tauri/src/auto_perception/mod.rs:59-63 | no position counts as changed iff every difference is within the tolerance |
| Fingerprint.CountFullIff | src-tauri/src/auto_perception/mod.rs:59-63 | every position counts as changed iff every difference exceeds the tolerance |
| Fingerprint.CountAppend | src-tauri/src/auto_perception/mod.rs:59-63 | the count of concatenated digests is the sum of the counts of the parts |
| Fingerprint.ChangeRateIsShareOfChangedPositions | src-tauri/src/auto_perception/mod.rs:58-64 | for equal non-empty lengths, the rate is 100 times the number of changed positions over the length |
| Fingerprint.ChangeRateZeroIff | src-tauri/src/auto_perception/mod.rs:58-64 | the rate is 0 iff no difference exceeds the tolerance |
| Fingerprint.ChangeRateFullIff | src-tauri/src/auto_perception/mod.rs:58-64 | the rate is 100 iff every difference exceeds the tolerance |
| Fingerprint.ChangeRateSelf | src-tauri/src/auto_perception/mod.rs:619-624 | a digest compared with itself has rate 0 |
| Fingerprint.ChangeRateAtLeast | src-tauri/src/auto_perception/mod.rs:78-84 | the gate's test `rate >= threshold` is the cross-multiplied test `changed * 100 >= threshold * length` |
| Fingerprint.Uniform | src-tauri/src/auto_perception/mod.rs:615-617 | a uniform test fingerprint has 64*64 bytes |
| Fingerprint.UniformChangeRates | src-tauri/src/auto_perception/mod.rs:619-647 | identical images give 0; a uniform difference of 10 gives 0; 11 gives 100; black against white gives 100 |
| Fingerprint.PrefixChangeRate | src-tauri/src/auto_perception/mod.rs:649-662 | when exactly the first k positions differ beyond the tolerance, the count is k and the rate is k/length*100 |
| Fingerprint.QuarterChangeRate | src-tauri/src/auto_perception/mod.rs:649-662 | changing the first quarter of the thumbnail gives a rate of exactly 25 |
| CaptureGate.After | src-tauri/src/auto_perception/mod.rs:88-101 | the state after an evaluation is well formed |
| CaptureGate.ScreenState.constructor | src-tauri/src/auto_perception/mod.rs:26-31 | the state starts with no fingerprint and the current time |
| CaptureGate.ScreenState.ShouldCapture | src-tauri/src/auto_perception/mod.rs:69-102 | returns the gate decision for the old state; on true the fields become the new fingerprint and `now`; on false both fields are unchanged |
| CaptureGate.GateDecision | src-tauri/src/auto_perception/mod.rs:72-88 | the decision of `Proceeds`, stated on the digests: proceed iff there is no prior fingerprint, or the lengths differ and the threshold is at most 100, or at least threshold percent of the positions changed (changed * 100 >= threshold * length), or the elapsed time is at least max_silent_minutes*60 seconds |
| CaptureGate.FirstEvaluationProceeds | src-tauri/src/auto_perception/mod.rs:75-76 | with no prior fingerprint the gate proceeds for any threshold and window and stores (fingerprint, now) |
| CaptureGate.RejectionKeepsBaseline | src-tauri/src/auto_perception/mod.rs:98-101 | a rejection leaves the state unchanged, so the next sample is compared with the same baseline at the same time |
| CaptureGate.SilenceForcesCapture | src-tauri/src/auto_perception/mod.rs:72-73 | once the silence window is over, the gate proceeds whatever the sample |
| CaptureGate.HeartbeatOncePerWindow | src-tauri/src/auto_perception/mod.rs:88-97 | after a kept capture, an unchanged screen is rejected until the window has passed and accepted when it ends |
| CaptureGate.StaticScreenRejected | src-tauri/src/auto_perception/mod.rs:75-101 | an unchanged screen inside the window is rejected for any positive threshold |
| CaptureGate.FullChangeProceeds | src-tauri/src/auto_perception/mod.rs:84-97 | a completely changed screen proceeds for any threshold up to 100 |
| Storage.AsU64 | src-tauri/src/auto_perception/mod.rs:428-431 | `i32 as u64` keeps non-negative values and wraps negative ones to 2^64 + x |
| Storage.AddRecord | src-tauri/src/memory_storage/mod.rs:92-110 | the append succeeds iff the store does not fail; the log then gains exactly the new record, otherwise it is unchanged |
| CaptureSettingsModel.DefaultCaptureSettings | src-tauri/src/auto_perception/mod.rs:122-134 | the default settings have an empty key and no custom prompt |
| CaptureSettingsModel.LoadCaptureSettings | src-tauri/src/auto_perception/mod.rs:422-435 | an unreadable store gives the defaults; a read row keeps its prompt, and the key is empty iff the row's key is absent or empty |
| CaptureSettingsModel.EmptyRowDiffersOnlyInBaseUrl | src-tauri/src/auto_perception/mod.rs:424-433 | an all-absent row loads as the defaults except that the base URL is "", where an unreadable store gives the OpenAI endpoint |
| CaptureSettingsModel.LoadStoredRoundTrip | src-tauri/src/auto_perception/mod.rs:424-432 | a row that stores every field of some settings loads back as exactly those settings |
| CaptureSettingsModel.NegativeIntervalWraps | src-tauri/src/auto_perception/mod.rs:428 | an interval of -1 in the row loads as 2^64 - 1 minutes |
| Analysis.PromptFor | src-tauri/src/auto_perception/mod.rs:299-303 | the custom prompt is used iff it is present and non-empty; otherwise the default prompt; never empty |
| Analysis.VisionRequestFor | src-tauri/src/auto_perception/mod.rs:305-339 | the request goes to `<base>/chat/completions` with a Bearer key, the configured model, the chosen prompt, 500 tokens and the image as a PNG data URI |
| Analysis.ClassifyRejection | src-tauri/src/auto_perception/mod.rs:359-379 | a body mentioning both "image_url" and "unknown variant" gives the vision-unsupported message; any other gives "API error (status): body" |
| Analysis.RejectionKindsAreDistinct | src-tauri/src/auto_perception/mod.rs:373-378 | the message starts with "API error (" iff the body is not a vision rejection |
| Analysis.VisionRejectionExample | src-tauri/src/auto_perception/mod.rs:373-377 | a typical unknown-variant body about `image_url` is classified as vision-unsupported |
| Analysis.StripCodeFence | src-tauri/src/auto_perception/mod.rs:406-414 | the result is trimmed; content without a leading fence comes back only trimmed |
| Analysis.StripFencedRoundTrip | src-tauri/src/auto_perception/mod.rs:404-414 | a trimmed text wrapped in a "```json" or "```" fence is recovered exactly |
| Analysis.OpeningFence | src-tauri/src/auto_perception/mod.rs:407-409 | a tagged fence strips "```json" and a bare fence strips "```" |
| Analysis.FencedIsTrimmed | src-tauri/src/auto_perception/mod.rs:406 | a fenced text has nothing for the first trim to remove |
| Analysis.TrimEndMatchesClosingFence | src-tauri/src/auto_perception/mod.rs:411 | removing trailing fences removes exactly the closing fence |
| Analysis.StripUnfencedUnchanged | src-tauri/src/auto_perception/mod.rs:412-413 | a trimmed text without a leading fence is returned unchanged |
| Analysis.StripCodeFenceExamples | src-tauri/src/auto_perception/mod.rs:595-611 | both fenced forms of `{"a":1}` give `{"a":1}`, and the bare JSON is left as it is |
| Analysis.TaggedExampleIsFenced | src-tauri/src/auto_perception/mod.rs:597 | the test's "```json" input is the tagged fencing of `{"a":1}` |
| Analysis.BareExampleIsFenced | src-tauri/src/auto_perception/mod.rs:603 | the test's "```" input is the bare fencing of `{"a":1}` |
| Analysis.ParseFailureMessage | src-tauri/src/auto_perception/mod.rs:416-417 | the parse-failure message ends with the content that failed |
| Analysis.AnalyzeScreen | src-tauri/src/auto_perception/mod.rs:336-419 | succeeds iff the reply is a success with content whose fence-stripped form parses, and the result is that parse; a send failure, a rejection (classified), an unparsable body and missing content each give their own message |
| Analysis.MalformedReplyKeepsText | src-tauri/src/auto_perception/mod.rs:416-417 | content that does not parse fails with a message ending in the stripped content |
| Analysis.NotJsonExample | src-tauri/src/auto_perception/mod.rs:416-417 | the reply "not json" fails with a message ending in "not json" |
| Scheduler.Cycle | src-tauri/src/auto_perception/mod.rs:437-472 | the screen state after a cycle is well formed |
| Scheduler.Analyzed | src-tauri/src/auto_perception/mod.rs:456-471 | the end of a cycle always returns, leaves the screen state given, stores at most one record, and starts with the five steps up to the vision request |
| Scheduler.AsciiKeyNeverPanics | src-tauri/src/auto_perception/mod.rs:319 | an ASCII key never makes the request log panic |
| Scheduler.CyclePanicsOnUnmaskableKey | src-tauri/src/auto_perception/mod.rs:319 | once the gate proceeds, a key that the mask cannot cut panics the cycle: the gate has moved and the screenshot is saved, but no request is made and nothing is stored |
| Scheduler.CycleMissingKeyDoesNothing | src-tauri/src/auto_perception/mod.rs:440-442 | an empty key fails the cycle before any capture, with no step, no state change and no record |
| Scheduler.CycleGateRejection | src-tauri/src/auto_perception/mod.rs:447-454 | a gate rejection ends the cycle with Ok after capture, fingerprint and gate only: no screenshot, no request, no record |
| Scheduler.CycleGateAdvancesBeforeAnalysis | src-tauri/src/auto_perception/mod.rs:448-458 | the screenshot is saved iff the key is set, capture and fingerprint succeed and the gate proceeds; then the analysis is requested iff the key masking does not panic, the cycle panics iff it does, and either way the screen state is already (fingerprint, now) |
| Scheduler.CycleRecordOnlyAfterAnalysis | src-tauri/src/auto_perception/mod.rs:456-468 | at most one record is stored, only after a successful analysis; it is the "auto" record of the rendered analysis and the screenshot path, appended as the step after the request |
| Scheduler.CycleSucceedsIff | src-tauri/src/auto_perception/mod.rs:437-472 | a cycle returns Ok iff the gate rejected the sample or a record was stored |
| Scheduler.CycleAnalysisFailure | src-tauri/src/auto_perception/mod.rs:458 | a failed analysis is the cycle's error, nothing is stored and the gate has still moved to the new sample |
| Scheduler.AutoCapture.constructor | src-tauri/src/auto_perception/mod.rs:9 | the pipeline starts stopped, with no loops, no records and a fresh screen state |
| Scheduler.AutoCapture.CaptureAndStore | src-tauri/src/auto_perception/mod.rs:437-472 | the result or panic, the new screen state and the records are those of the cycle; the flag and the loops are unchanged |
| Scheduler.AutoCapture.Start | src-tauri/src/auto_perception/mod.rs:475-518 | while running: Ok, nothing changes; with an empty key: the key error and the flag stays false; otherwise the flag is set and one loop with the configured interval is spawned |
| Scheduler.AutoCapture.Stop | src-tauri/src/auto_perception/mod.rs:521-525 | the flag is false afterwards and nothing else changes |
| Scheduler.AutoCapture.Trigger | src-tauri/src/auto_perception/mod.rs:528-535 | one cycle whatever the flag, whose error or panic reaches the caller; the flag and the loops are unchanged |
| Scheduler.AutoCapture.Tick | src-tauri/src/auto_perception/mod.rs:490-510 | a loop's first wake-up always runs a cycle; a later one runs a cycle iff the flag is set and otherwise ends the loop with nothing else changed; a cycle that panics ends the loop and leaves the flag as it was |
| Scheduler.StartTwiceThenStop | src-tauri/src/auto_perception/mod.rs:475-525 | starting twice spawns one loop; after a stop, its next wake-up ends it |
| Scheduler.StartWithoutKey | src-tauri/src/auto_perception/mod.rs:482-484 | without a key, start fails, the flag stays false and no loop is spawned |
| Scheduler.StopThenRestart | src-tauri/src/auto_perception/mod.rs:475-525 | stop then start before the first loop wakes leaves two loops that both keep running |
| Scheduler.UnmaskableKeyKillsLoop | src-tauri/src/auto_perception/mod.rs:319 | with the key "€€", the first cycle panics: the loop ends, the flag stays set, and a second start is an Ok no-op |
| ApiKey.MaskApiKey | src-tauri/src/lib.rs:17-22 | slicing panics exactly when a key of more than four bytes has a continuation byte four from the end; otherwise the mask starts with "****" |
| ApiKey.MaskRevealsOnlyTail | src-tauri/src/lib.rs:18-21 | a key of at most four bytes masks to exactly "****"; a longer one to "****" and its last four bytes; so the mask has length 4 or 8 |
| ApiKey.MaskHidesPrefix | src-tauri/src/lib.rs:21 | changing any byte before the last four does not change the mask |
| ApiKey.AsciiKeyIsMasked | src-tauri/src/lib.rs:17-22 | an ASCII key never makes the mask panic |
| ApiKey.MaskByChars | src-tauri/src/lib.rs:16-22 | the character masking has length 4 or 8 and starts with "****" |
| ApiKey.MaskByCharsHidesPrefix | src-tauri/src/lib.rs:16-21 | the character masking hides every character before the last four |
| ApiKey.AsciiMaskAgrees | src-tauri/src/lib.rs:17-22 | on ASCII keys the byte masking is the character masking |
| ApiKey.NonAsciiKeyPanics | src-tauri/src/lib.rs:21 | the key "€€" makes the byte masking panic, where the character masking gives "****" |
| ApiKey.Utf8OfAscii | src-tauri/src/lib.rs:18-21 | the UTF-8 bytes of an ASCII string are its character codes |
| ApiKey.EuroEuroBytes | src-tauri/src/lib.rs:21 | "€€" is the six bytes E2 82 AC E2 82 AC |
| ApiKey.MaskByCharsExamples | src-tauri/src/lib.rs:35-53 | "sk-abc123xyz9999" masks to "****9999" and "12345" to "****2345" |
| ApiKey.MaskLongKeyExample | src-tauri/src/lib.rs:35-37 | the long test key is ASCII; its byte mask is the bytes of "****9999" (four 42s, four 57s), and its character mask is "****9999" |
| ApiKey.NinesTailMask | src-tauri/src/lib.rs:18-21 | any ASCII key longer than four characters that ends in "9999" byte-masks to the bytes of "****9999" |
| ApiKey.MaskFiveByteKeyExample | src-tauri/src/lib.rs:51-53 | "12345" masks to "****2345" on its bytes |
| ApiKey.MaskShortKeyExamples | src-tauri/src/lib.rs:40-48 | "ab", "abcd" and "" mask to "****" |
| ManualEntry.AddQuickNote | src-tauri/src/manual_entry/mod.rs:5-15 | the log gains exactly the untrimmed "manual" record without a screenshot iff the note is not all white space and the store does not fail; the note then panics iff the 50-byte preview ends inside a character, and otherwise returns Ok; with the empty-content and save-failure messages |
| ManualEntry.AddQuickNoteCharPreview | src-tauri/src/manual_entry/mod.rs:5-15 | with a 50-character preview, a note succeeds iff it is not all white space and the store does not fail, and the log gains exactly the note then |
| ManualEntry.NotePreviewAgrees | src-tauri/src/manual_entry/mod.rs:10-14 | both versions store the same records and differ only where the byte preview panics, which no ASCII note does |
| ManualEntry.ThreeByteNotePanics | src-tauri/src/manual_entry/mod.rs:13 | a note of 17 or more three-byte characters is stored and then panics |
| ManualEntry.ChineseNotePanics | src-tauri/src/manual_entry/mod.rs:13 | the 17-character note "今天完成了日报模块的设计与实现工作" (51 bytes) is stored and then panics |
| ManualEntry.NoteStoredUntrimmed | src-tauri/src/manual_entry/mod.rs:10 | a note padded with white space is stored with its padding |
| ManualEntry.RecentLines | src-tauri/src/manual_entry/mod.rs:48-55 | reversing, taking n and reversing back gives the last min(n, count) lines in their order |
| ManualEntry.GetRecentLogs | src-tauri/src/manual_entry/mod.rs:33-58 | no data directory and an unreadable file are errors; a missing file gives ""; a present file gives its last min(n, count) lines joined by "\n", with n defaulting to 300 |
| ManualEntry.RecentLogsDefault | src-tauri/src/manual_entry/mod.rs:47 | no count means 300 lines |
| ManualEntry.RecentLogsZero | src-tauri/src/manual_entry/mod.rs:48-57 | a count of 0 gives "" |
| ManualEntry.RecentLogsAreLastLines | src-tauri/src/manual_entry/mod.rs:48-57 | the answer splits into exactly the last min(n, count) lines of the log, in order |
| ManualEntry.RecentLogsWholeFile | src-tauri/src/manual_entry/mod.rs:48-57 | asking for at least as many lines as the log has gives the log back unchanged |
| Synthesis.ValidateSettings | src-tauri/src/synthesis/mod.rs:11-32 | validation passes iff the path is present and non-empty, the base URL is present and the key is present and non-empty; the model defaults to "gpt-4o" |
| Synthesis.ValidationReportsFirstFailure | src-tauri/src/synthesis/mod.rs:11-32 | validation fails exactly with the message of the first failing check, in the order path missing, path empty, URL missing, key missing, key empty |
| Synthesis.ModelNameDefault | src-tauri/src/synthesis/mod.rs:25-28 | an absent model name becomes "gpt-4o"; a present one is kept |
| Synthesis.SourceLabel | src-tauri/src/synthesis/mod.rs:48-52 | the label is the auto label iff the source type is "auto", and the manual label otherwise |
| Synthesis.RecordLine | src-tauri/src/synthesis/mod.rs:44-54 | a record's line starts with "- [time] label", the time being "unknown" when the timestamp does not parse, and ends with ": " and the content |
| Synthesis.RecordLines | src-tauri/src/synthesis/mod.rs:41-56 | one line per record, in order |
| Synthesis.RecordsText | src-tauri/src/synthesis/mod.rs:41-57 | the text is empty iff there are no records; one record gives its line; several start with the first line and a "\n" |
| Synthesis.RecordsTextOneLinePerRecord | src-tauri/src/synthesis/mod.rs:41-57 | when no record spans several lines, the records text has exactly one line per record, in order, each "- [time] label: content" |
| Synthesis.UnparsableTimeIsUnknown | src-tauri/src/synthesis/mod.rs:44-46 | a timestamp that does not parse is shown as "unknown" |
| Synthesis.SummaryPrompt | src-tauri/src/synthesis/mod.rs:59-73 | the prompt is the instructions, then exactly the records text, then the closing request |
| Synthesis.SummaryRequestFor | src-tauri/src/synthesis/mod.rs:59-95 | the request goes to `<base>/chat/completions` with "Bearer <key>", the configured model, the summary prompt (which contains the records text) and 2000 tokens |
| Synthesis.SummaryText | src-tauri/src/synthesis/mod.rs:88-110 | a summary is obtained iff the reply is a success carrying content, and it is that content |
| Synthesis.JoinPath | src-tauri/src/synthesis/mod.rs:119 | the file name is appended to the folder with at most one "/" between them |
| Synthesis.WithLastSummaryPath | src-tauri/src/synthesis/mod.rs:124-125 | the saved settings have the new path and agree with the loaded ones on every other field |
| Synthesis.GenerateDailySummary | src-tauri/src/synthesis/mod.rs:7-132 | nothing is written without a request, and nothing is saved without a write |
| Synthesis.ValidationPrecedesRequest | src-tauri/src/synthesis/mod.rs:11-95 | a request is made iff validation passes and there are records; each error comes before it; the request carries the records text |
| Synthesis.SummarySuccess | src-tauri/src/synthesis/mod.rs:112-131 | success iff all steps succeed; then the result is the dated file in the folder, the summary is written there, and the saved settings differ from the loaded ones only in last_summary_path, which is that path |
| Synthesis.SavedOnlyOnSuccess | src-tauri/src/synthesis/mod.rs:124-131 | settings are saved exactly when the run succeeds |
| Synthesis.OutputPath | src-tauri/src/synthesis/mod.rs:112-119 | the path starts with the folder, ends with "<date>.md" and has at most one character in between |
| Synthesis.OutputPathShape | src-tauri/src/synthesis/mod.rs:112-119 | the report is "<folder>/<date>.md" whether or not the folder ends in "/" |
| Text.Trim | src-tauri/src/manual_entry/mod.rs:6 | the result has no white space at either end and is no longer than the input |
| Text.TrimOfPadded | src-tauri/src/auto_perception/mod.rs:406 | trimming white-space padding gives back the trimmed text inside |
| Text.TrimEmptyIff | src-tauri/src/manual_entry/mod.rs:6 | a string trims to "" iff it is all white space |
| Text.TrimEndMatches | src-tauri/src/auto_perception/mod.rs:411 | the result is a prefix of the input that no longer ends with the pattern |
| Text.TrimEndMatchesRemovesCopies | src-tauri/src/auto_perception/mod.rs:411 | the input is the result followed by some number of copies of the pattern |
| Text.Utf8Char | src-tauri/src/lib.rs:21 | a character encodes as one to four bytes, a lead byte then continuation bytes, and as three bytes iff it lies in U+0800..U+FFFF |
| Text.Utf8 | src-tauri/src/manual_entry/mod.rs:13 | a string has at least as many bytes as characters |
| Text.Utf8OfThreeByteChars | src-tauri/src/manual_entry/mod.rs:13 | a string of three-byte characters has three bytes per character, and byte k continues a character iff k is not a multiple of 3 |
| Text.Lines | src-tauri/src/manual_entry/mod.rs:49 | no line holds a "\n"; a non-empty text has at least one line |
| Text.JoinOfLines | src-tauri/src/manual_entry/mod.rs:48-57 | a text with "\n" line ends and no final one is its lines joined by "\n" |
| Text.LinesOfJoin | src-tauri/src/synthesis/mod.rs:41-57 | splitting the "\n"-join of plain lines gives the lines back |

## Findings

| source | as written | input that shows it | evidently intended | confidence | as-written member | corrected member |
|---|---|---|---|---|---|---|
| src-tauri/src/lib.rs:21 | `&key[key.len() - 4..]` cuts the key four bytes from the end, which panics when that byte is inside a multi-byte character | the key "€€", six bytes, where byte 2 is a continuation byte | show the last four characters, as the doc comment on line 16 says | high; not executed | ApiKey.NonAsciiKeyPanics | ApiKey.MaskByChars |
| src-tauri/src/manual_entry/mod.rs:13 | `&content[..content.len().min(50)]` cuts the note preview at byte 50, which panics after the note is stored when that byte is inside a character | "今天完成了日报模块的设计与实现工作", 17 characters of 3 bytes, so byte 50 is inside the last one | a preview of the first 50 characters, which never panics | high; not executed | ManualEntry.ChineseNotePanics | ManualEntry.AddQuickNoteCharPreview |

## Left out

- Screen capture backends (`capture_screen` on each platform), `save_screenshot` and `take_screenshot`: these are OS and file-system calls. Their outcomes are inputs of a cycle.
- `compute_fingerprint`: base64, PNG decoding and resizing are library calls. Its outcome is an input. A successful one is assumed to be 64*64 bytes, as its test checks.
- HTTP (`reqwest`) and JSON (`serde_json`): the reply of the service is an input in the shapes the code tells apart. Decoding a `ScreenAnalysis` and encoding the record content are functions given as parameters.
- `tracing` log output: the text written has no effect on results. Only the two byte slices evaluated for log lines are modelled, as panics: the key mask reached from src-tauri/src/auto_perception/mod.rs:319 and the note preview at src-tauri/src/manual_entry/mod.rs:13.
- Scheduler.AutoCapture.Trigger: how Tauri reports a panicking command to the front end is not modelled. The result is only `Panicked`.
- `chrono`: the "%H:%M" formatting of a record time and today's "%Y-%m-%d" are inputs.
- tokio: spawning, the real sleep length (`interval * 60` seconds), the mutex and the atomic flag's memory ordering. A loop is a sequence of wake-ups, each an exclusive method call.
- Fingerprint.ChangeRate: the rate is an exact real, not f64, so rounding is not modelled. Two empty fingerprints are excluded by the precondition, because the source divides 0.0 by 0.0 there and gets NaN.
- CaptureGate.Proceeds: the window `max_silent_minutes * 60` is computed on unbounded integers, so a `u64` overflow of that product is not modelled.
- CaptureSettingsModel.LoadCaptureSettings: reading `change_threshold`, `max_silent_minutes` and `analysis_prompt` from the row assumes the row has them, although the store's `Settings` struct lacks those fields. The row is its own record type here.
- Scheduler.Cycle: the cycle takes a base64 image and an abstract fingerprint outcome. It does not tie the fingerprint to the image.
- Synthesis.JoinPath: joining paths follows Unix rules. Windows separators and `to_string_lossy` replacement are not modelled.
- The SQLite store (memory_storage): an append is a sequence append that may fail. The query for today's records and its order are an input.
- src-tauri/src/main.rs is not part of this model: it holds the logging setup, the Tauri builder and the UI.
- `get_screenshot`, `read_file`, `init_app` and `APP_STATE`: file reads, start-up and an unused global.
- Text.IsWhitespace: `trim` uses a fixed table of the Unicode White_Space characters. There is no other Unicode processing.
