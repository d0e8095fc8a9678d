/**
 * The capture scheduler of src-tauri/src/auto_perception/mod.rs:
 * `capture_and_store` (one cycle), `start_auto_capture`, `stop_auto_capture`,
 * `trigger_capture` and the background loop they spawn. The screen grab, the
 * fingerprint decoder, the screenshot file, the service reply, the JSON codec
 * and the record store are inputs of a cycle (a `CycleWorld`); the clock is its
 * `now`. A spawned loop is a task whose steps are its wake-ups; a cycle that
 * panics ends the task it runs in.
 */
module Scheduler {
  import opened Wrappers
  import opened Storage
  import opened Fingerprint
  import opened CaptureGate
  import opened CaptureSettingsModel
  import opened ChatApi
  import opened Analysis
  import opened Text
  import opened ApiKey

  const ApiKeyMissingMessage := "API 密钥未配置，请在设置中配置"

  function StoreFailureMessage(cause: string): string {
    "Failed to store capture: " + cause
  }

  /** What the collaborators of one cycle do, as seen by the cycle. */
  datatype CycleWorld = CycleWorld(
    stored: Result<StoredCaptureSettings, string>,    // reading the settings row
    screen: Result<string, string>,                   // `capture_screen`: a base64 PNG
    fingerprint: Result<Digest, string>,              // `compute_fingerprint` of that image
    now: nat,                                         // the monotonic clock, in seconds
    screenshotPath: Option<string>,                   // `save_screenshot`
    reply: Reply,                                     // the service's answer to the vision request
    parse: string -> Result<ScreenAnalysis, string>,  // decoding a `ScreenAnalysis`
    render: ScreenAnalysis -> string,                 // encoding the record content as JSON
    storeFailure: Option<string>)                     // `add_record` failing

  /** A decoded image always yields a 64x64 thumbnail. */
  predicate WorldWellformed(w: CycleWorld) {
    w.fingerprint.Success? ==> |w.fingerprint.value| == DigestLength
  }

  /** The steps of a cycle, in the order they happen. */
  datatype Effect =
    | CaptureScreen
    | ComputeFingerprint
    | CheckGate
    | SaveScreenshot
    | RequestAnalysis(request: VisionRequest)
    | AppendRecord(record: NewRecord)

  /**
   * Before sending the vision request, `analyze_screen` logs the key through
   * `mask_api_key`, which panics on a key whose fourth-last byte is not the
   * start of a character.
   */
  predicate KeyMaskPanics(key: string) {
    MaskApiKey(Utf8(key)).None?
  }

  /** An ASCII key never makes the cycle panic. */
  lemma {:induction false} AsciiKeyNeverPanics(key: string)
    requires forall i :: 0 <= i < |key| ==> key[i] as int < 128
    ensures !KeyMaskPanics(key)
  {
    Utf8OfAscii(key);
    AsciiKeyIsMasked(key);
  }

  datatype CycleOutcome = CycleOutcome(
    result: Outcome<Result<(), string>>,
    gate: GateSnapshot,          // the screen state afterwards
    effects: seq<Effect>,        // the steps taken
    appended: seq<NewRecord>)    // what reached the record log

  /** `capture_and_store`: one capture cycle from the screen state `g`. */
  function Cycle(g: GateSnapshot, w: CycleWorld): (c: CycleOutcome)
    requires Wellformed(g) && WorldWellformed(w)
    ensures Wellformed(c.gate)
  {
    var settings := LoadCaptureSettings(w.stored);
    if settings.apiKey == [] then CycleOutcome(Returned(Failure(ApiKeyMissingMessage)), g, [], [])
    else match w.screen
      case Failure(e) => CycleOutcome(Returned(Failure(e)), g, [CaptureScreen], [])
      case Success(image) =>
        match w.fingerprint
        case Failure(e) => CycleOutcome(Returned(Failure(e)), g, [CaptureScreen, ComputeFingerprint], [])
        case Success(fp) =>
          if !Proceeds(g, fp, settings.changeThreshold, settings.maxSilentMinutes, w.now) then
            CycleOutcome(Returned(Success(())), g, [CaptureScreen, ComputeFingerprint, CheckGate], [])
          else
            var g' := After(g, fp, settings.changeThreshold, settings.maxSilentMinutes, w.now);
            if KeyMaskPanics(settings.apiKey) then
              CycleOutcome(Panicked, g', [CaptureScreen, ComputeFingerprint, CheckGate, SaveScreenshot], [])
            else Analyzed(g', settings, image, w)
  }

  /**
   * The end of a cycle once the key is masked: the vision request, then, if
   * the analysis succeeds, the record built from it.
   */
  function Analyzed(g': GateSnapshot, settings: CaptureSettings, image: string, w: CycleWorld): (c: CycleOutcome)
    ensures c.result.Returned? && c.gate == g' && |c.appended| <= 1
    ensures |c.effects| >= 5 && c.effects[..5] == [CaptureScreen, ComputeFingerprint, CheckGate, SaveScreenshot,
                                                   RequestAnalysis(VisionRequestFor(settings, image))]
  {
    var steps := [CaptureScreen, ComputeFingerprint, CheckGate, SaveScreenshot,
                  RequestAnalysis(VisionRequestFor(settings, image))];
    match AnalyzeScreen(w.reply, w.parse)
    case Failure(e) => CycleOutcome(Returned(Failure(e)), g', steps, [])
    case Success(analysis) =>
      var rec := NewRecord(AutoSource, w.render(analysis), w.screenshotPath);
      match w.storeFailure
      case Some(e) => CycleOutcome(Returned(Failure(StoreFailureMessage(e))), g', steps + [AppendRecord(rec)], [])
      case None => CycleOutcome(Returned(Success(())), g', steps + [AppendRecord(rec)], [rec])
  }

  predicate Saved(effects: seq<Effect>) {
    exists k :: 0 <= k < |effects| && effects[k] == SaveScreenshot
  }

  predicate Requested(effects: seq<Effect>) {
    exists k :: 0 <= k < |effects| && effects[k].RequestAnalysis?
  }

  /** A missing key fails the cycle before anything is captured; nothing changes. */
  lemma {:induction false} CycleMissingKeyDoesNothing(g: GateSnapshot, w: CycleWorld)
    requires Wellformed(g) && WorldWellformed(w)
    requires LoadCaptureSettings(w.stored).apiKey == []
    ensures Cycle(g, w) == CycleOutcome(Returned(Failure(ApiKeyMissingMessage)), g, [], [])
  {
  }

  /** A rejection by the gate ends the cycle successfully with no screenshot, no request and no record. */
  lemma {:induction false} CycleGateRejection(g: GateSnapshot, w: CycleWorld)
    requires Wellformed(g) && WorldWellformed(w)
    requires LoadCaptureSettings(w.stored).apiKey != []
    requires w.screen.Success? && w.fingerprint.Success?
    requires var s := LoadCaptureSettings(w.stored);
             !Proceeds(g, w.fingerprint.value, s.changeThreshold, s.maxSilentMinutes, w.now)
    ensures Cycle(g, w) == CycleOutcome(Returned(Success(())), g, [CaptureScreen, ComputeFingerprint, CheckGate], [])
  {
  }

  /**
   * The screenshot is saved exactly when the gate proceeds, and the analysis is
   * requested after that unless masking the key panics; by then the screen state
   * already holds the new sample, whatever happens next.
   */
  lemma {:induction false} CycleGateAdvancesBeforeAnalysis(g: GateSnapshot, w: CycleWorld)
    requires Wellformed(g) && WorldWellformed(w)
    ensures var s := LoadCaptureSettings(w.stored);
            Saved(Cycle(g, w).effects) <==>
              s.apiKey != [] && w.screen.Success? && w.fingerprint.Success? &&
              Proceeds(g, w.fingerprint.value, s.changeThreshold, s.maxSilentMinutes, w.now)
    ensures var s := LoadCaptureSettings(w.stored);
            Requested(Cycle(g, w).effects) <==> Saved(Cycle(g, w).effects) && !KeyMaskPanics(s.apiKey)
    ensures var s := LoadCaptureSettings(w.stored);
            Cycle(g, w).result.Panicked? <==> Saved(Cycle(g, w).effects) && KeyMaskPanics(s.apiKey)
    ensures Cycle(g, w).gate == if Saved(Cycle(g, w).effects)
                               then GateSnapshot(Some(w.fingerprint.value), w.now) else g
  {
    var c := Cycle(g, w);
    var s := LoadCaptureSettings(w.stored);
    if s.apiKey != [] && w.screen.Success? && w.fingerprint.Success? &&
       Proceeds(g, w.fingerprint.value, s.changeThreshold, s.maxSilentMinutes, w.now) {
      var g' := GateSnapshot(Some(w.fingerprint.value), w.now);
      if KeyMaskPanics(s.apiKey) {
        CyclePanicsOnUnmaskableKey(g, w);
        assert c.effects[3] == SaveScreenshot;
      } else {
        assert c == Analyzed(g', s, w.screen.value, w);
        assert c.effects[3] == SaveScreenshot && c.effects[4].RequestAnalysis?;
      }
    } else {
      assert c.gate == g && c.result.Returned?;
      assert |c.effects| <= 3 && forall k :: 0 <= k < |c.effects| ==> c.effects[k] != SaveScreenshot && !c.effects[k].RequestAnalysis?;
    }
  }

  /**
   * A key that `mask_api_key` cannot cut panics the cycle once the gate has
   * proceeded: the sample is kept and the screenshot saved, but nothing is
   * requested and nothing stored.
   */
  lemma {:induction false} CyclePanicsOnUnmaskableKey(g: GateSnapshot, w: CycleWorld)
    requires Wellformed(g) && WorldWellformed(w)
    requires KeyMaskPanics(LoadCaptureSettings(w.stored).apiKey)
    requires LoadCaptureSettings(w.stored).apiKey != []
    requires w.screen.Success? && w.fingerprint.Success?
    requires var s := LoadCaptureSettings(w.stored);
             Proceeds(g, w.fingerprint.value, s.changeThreshold, s.maxSilentMinutes, w.now)
    ensures Cycle(g, w) == CycleOutcome(Panicked, GateSnapshot(Some(w.fingerprint.value), w.now),
                                        [CaptureScreen, ComputeFingerprint, CheckGate, SaveScreenshot], [])
  {
  }

  /**
   * A record reaches the log only after the analysis succeeded: it is the one
   * "auto" record of the rendered analysis and the saved screenshot, and it is
   * appended right after the request.
   */
  lemma {:induction false} CycleRecordOnlyAfterAnalysis(g: GateSnapshot, w: CycleWorld)
    requires Wellformed(g) && WorldWellformed(w)
    ensures var c := Cycle(g, w);
            |c.appended| <= 1 &&
            (c.appended != [] ==>
              && Requested(c.effects)
              && AnalyzeScreen(w.reply, w.parse).Success?
              && w.storeFailure.None?
              && c.appended == [NewRecord(AutoSource, w.render(AnalyzeScreen(w.reply, w.parse).value), w.screenshotPath)]
              && |c.effects| == 6 && c.effects[4].RequestAnalysis? && c.effects[5] == AppendRecord(c.appended[0]))
  {
    var c := Cycle(g, w);
    if c.appended != [] {
      assert c.effects[4].RequestAnalysis?;
    }
  }

  /** A cycle succeeds exactly when the gate rejected the sample or a record was stored. */
  lemma {:induction false} CycleSucceedsIff(g: GateSnapshot, w: CycleWorld)
    requires Wellformed(g) && WorldWellformed(w)
    ensures var c := Cycle(g, w);
            c.result == Returned(Success(())) <==> (c.effects == [CaptureScreen, ComputeFingerprint, CheckGate] || c.appended != [])
  {
  }

  /** A cycle whose analysis fails reports the analysis error and stores nothing, yet the gate has advanced. */
  lemma {:induction false} CycleAnalysisFailure(g: GateSnapshot, w: CycleWorld)
    requires Wellformed(g) && WorldWellformed(w)
    requires Requested(Cycle(g, w).effects)
    requires AnalyzeScreen(w.reply, w.parse).Failure?
    ensures Cycle(g, w).result == Returned(Failure(AnalyzeScreen(w.reply, w.parse).error))
    ensures Cycle(g, w).appended == []
    ensures Cycle(g, w).gate == GateSnapshot(Some(w.fingerprint.value), w.now)
  {
    CycleGateAdvancesBeforeAnalysis(g, w);
  }

  /** A spawned background loop: before its first cycle, between cycles, or finished. */
  datatype LoopPhase = Initial(intervalMinutes: nat) | Sleeping(intervalMinutes: nat) | Exited

  /**
   * The process-wide state of the pipeline: the running flag, the loops that
   * `start_auto_capture` has spawned, the screen state, and the record log.
   */
  class AutoCapture {
    var running: bool
    var loops: seq<LoopPhase>
    var records: seq<NewRecord>
    const gate: ScreenState

    ghost predicate Valid()
      reads this, gate
    {
      gate.Valid()
    }

    constructor (now: nat)
      ensures Valid() && fresh(gate)
      ensures !running && loops == [] && records == []
      ensures gate.Snapshot() == GateSnapshot(None, now)
    {
      running := false;
      loops := [];
      records := [];
      gate := new ScreenState(now);
    }

    /** `capture_and_store`. */
    method CaptureAndStore(w: CycleWorld) returns (r: Outcome<Result<(), string>>)
      requires Valid() && WorldWellformed(w)
      modifies this, gate
      ensures Valid()
      ensures var c := Cycle(old(gate.Snapshot()), w);
              r == c.result && gate.Snapshot() == c.gate && records == old(records) + c.appended
      ensures running == old(running) && loops == old(loops)
    {
      ghost var g := gate.Snapshot();
      var settings := LoadCaptureSettings(w.stored);
      if settings.apiKey == [] {
        CycleMissingKeyDoesNothing(g, w);
        return Returned(Failure(ApiKeyMissingMessage));
      }
      if w.screen.Failure? {
        return Returned(Failure(w.screen.error));
      }
      if w.fingerprint.Failure? {
        return Returned(Failure(w.fingerprint.error));
      }
      var fp := w.fingerprint.value;
      var proceed := gate.ShouldCapture(fp, settings.changeThreshold, settings.maxSilentMinutes, w.now);
      if !proceed {
        CycleGateRejection(g, w);
        return Returned(Success(()));
      }
      var screenshotPath := w.screenshotPath;
      ghost var g' := After(g, fp, settings.changeThreshold, settings.maxSilentMinutes, w.now);
      assert gate.Snapshot() == g';
      if KeyMaskPanics(settings.apiKey) {
        CyclePanicsOnUnmaskableKey(g, w);
        return Panicked;
      }
      assert Cycle(g, w) == Analyzed(g', settings, w.screen.value, w);
      var analysis := AnalyzeScreen(w.reply, w.parse);
      if analysis.Failure? {
        return Returned(Failure(analysis.error));
      }
      var added := AddRecord(records, NewRecord(AutoSource, w.render(analysis.value), screenshotPath), w.storeFailure);
      records := added.log;
      match added.result {
        case Failure(e) => r := Returned(Failure(StoreFailureMessage(e)));
        case Success(_) => r := Returned(Success(()));
      }
    }

    /**
     * `start_auto_capture`: a no-op while running; otherwise fails without a
     * key, or sets the flag and spawns a loop with the configured interval.
     */
    method Start(stored: Result<StoredCaptureSettings, string>) returns (r: Result<(), string>)
      requires Valid()
      modifies this
      ensures Valid() && records == old(records)
      ensures old(running) ==> r == Success(()) && running && loops == old(loops)
      ensures !old(running) && LoadCaptureSettings(stored).apiKey == [] ==>
                r == Failure(ApiKeyMissingMessage) && !running && loops == old(loops)
      ensures !old(running) && LoadCaptureSettings(stored).apiKey != [] ==>
                r == Success(()) && running &&
                loops == old(loops) + [Initial(LoadCaptureSettings(stored).screenshotInterval)]
    {
      if running {
        return Success(());
      }
      var settings := LoadCaptureSettings(stored);
      if settings.apiKey == [] {
        return Failure(ApiKeyMissingMessage);
      }
      running := true;
      loops := loops + [Initial(settings.screenshotInterval)];
      r := Success(());
    }

    /** `stop_auto_capture`: clears the flag; running loops notice at their next wake-up. */
    method Stop()
      requires Valid()
      modifies this
      ensures Valid()
      ensures !running && loops == old(loops) && records == old(records)
    {
      running := false;
    }

    /** `trigger_capture`: one cycle now, whatever the flag, whose error or panic reaches the caller. */
    method Trigger(w: CycleWorld) returns (r: Outcome<Result<(), string>>)
      requires Valid() && WorldWellformed(w)
      modifies this, gate
      ensures Valid()
      ensures var c := Cycle(old(gate.Snapshot()), w);
              r == c.result && gate.Snapshot() == c.gate && records == old(records) + c.appended
      ensures running == old(running) && loops == old(loops)
    {
      r := CaptureAndStore(w);
    }

    /**
     * One wake-up of loop `i`: the first cycle right after the spawn, which does
     * not look at the flag; later, the end of a sleep, then the flag check, and a
     * cycle only if the flag is still set. A failed cycle is only logged; a
     * cycle that panics ends the loop and leaves the flag set.
     */
    method Tick(i: nat, w: CycleWorld) returns (ranCycle: bool)
      requires Valid() && WorldWellformed(w)
      requires i < |loops| && !loops[i].Exited?
      modifies this, gate
      ensures Valid() && running == old(running)
      ensures ranCycle == (old(loops[i]).Initial? || old(running))
      ensures loops == old(loops)[i := if ranCycle && !Cycle(old(gate.Snapshot()), w).result.Panicked?
                                       then Sleeping(old(loops[i]).intervalMinutes) else Exited]
      ensures var c := Cycle(old(gate.Snapshot()), w);
              if ranCycle then gate.Snapshot() == c.gate && records == old(records) + c.appended
              else gate.Snapshot() == old(gate.Snapshot()) && records == old(records)
    {
      var interval := loops[i].intervalMinutes;
      if loops[i].Sleeping? && !running {
        loops := loops[i := Exited];
        return false;
      }
      var r := CaptureAndStore(w);
      loops := loops[i := if r.Panicked? then Exited else Sleeping(interval)];
      ranCycle := true;
    }
  }

  /** A settings row with only a key. */
  const KeyOnlyRow := EmptyRow.(apiKey := Some("sk-test"))

  /** A settings row whose key is "€€", six bytes. */
  const EuroKeyRow := EmptyRow.(apiKey := Some("€€"))

  /**
   * Starting twice spawns one loop; after a stop, that loop's next wake-up
   * ends it without another cycle.
   */
  method StartTwiceThenStop(w: CycleWorld) returns (a: AutoCapture)
    requires WorldWellformed(w) && !KeyMaskPanics(LoadCaptureSettings(w.stored).apiKey)
    ensures fresh(a) && !a.running && a.loops == [Exited]
  {
    a := new AutoCapture(0);
    var r := a.Start(Success(KeyOnlyRow));
    assert r == Success(()) && a.loops == [Initial(5)];
    r := a.Start(Success(KeyOnlyRow));
    assert r == Success(()) && a.loops == [Initial(5)];
    CycleGateAdvancesBeforeAnalysis(a.gate.Snapshot(), w);
    var ran := a.Tick(0, w);
    assert ran && a.loops == [Sleeping(5)];
    a.Stop();
    CycleGateAdvancesBeforeAnalysis(a.gate.Snapshot(), w);
    ran := a.Tick(0, w);
    assert !ran;
  }

  /** Without a key, start fails and spawns nothing. */
  method StartWithoutKey(w: CycleWorld) returns (a: AutoCapture)
    ensures fresh(a) && !a.running && a.loops == []
  {
    a := new AutoCapture(0);
    var r := a.Start(Success(EmptyRow));
    assert r == Failure(ApiKeyMissingMessage);
  }

  /**
   * A key such as "€€" panics the first cycle, once the fresh screen state lets
   * it through: the loop is gone while the flag stays set, so a later start
   * does nothing and no loop runs again until a stop.
   */
  method UnmaskableKeyKillsLoop(w: CycleWorld) returns (a: AutoCapture)
    requires WorldWellformed(w) && w.stored == Success(EuroKeyRow)
    requires w.screen.Success? && w.fingerprint.Success?
    ensures fresh(a) && a.running && a.loops == [Exited]
  {
    a := new AutoCapture(0);
    NonAsciiKeyPanics();
    var row := EuroKeyRow;
    var r := a.Start(Success(row));
    assert a.loops == [Initial(5)];
    var settings := LoadCaptureSettings(Success(row));
    assert settings.apiKey == "€€";
    FirstEvaluationProceeds(a.gate.Snapshot(), w.fingerprint.value, settings.changeThreshold, settings.maxSilentMinutes, w.now);
    var ran := a.Tick(0, w);
    assert a.loops == [Exited];
    r := a.Start(Success(row));
    assert r == Success(());
  }

  /**
   * A stop followed by a start before the first loop wakes leaves two loops,
   * and both keep running cycles: the flag does not tell them apart.
   */
  method StopThenRestart(w: CycleWorld) returns (a: AutoCapture)
    requires WorldWellformed(w) && !KeyMaskPanics(LoadCaptureSettings(w.stored).apiKey)
    ensures fresh(a) && a.running && a.loops == [Sleeping(5), Sleeping(5)]
  {
    a := new AutoCapture(0);
    var r := a.Start(Success(KeyOnlyRow));
    CycleGateAdvancesBeforeAnalysis(a.gate.Snapshot(), w);
    var ran := a.Tick(0, w);
    a.Stop();
    r := a.Start(Success(KeyOnlyRow));
    assert a.loops == [Sleeping(5), Initial(5)];
    CycleGateAdvancesBeforeAnalysis(a.gate.Snapshot(), w);
    ran := a.Tick(0, w);
    assert ran;
    CycleGateAdvancesBeforeAnalysis(a.gate.Snapshot(), w);
    ran := a.Tick(1, w);
    assert ran;
  }
}
