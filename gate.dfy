/**
 * The capture gate of src-tauri/src/auto_perception/mod.rs: the screen state
 * holds the last fingerprint and the instant of the last capture, and
 * `should_capture` decides from a new fingerprint whether the full pipeline
 * runs. The monotonic clock is a parameter `now`, in whole seconds.
 */
module CaptureGate {
  import opened Wrappers
  import opened Fingerprint

  /** The value of the screen state. */
  datatype GateSnapshot = GateSnapshot(lastFingerprint: Option<Digest>, lastCaptureTime: nat)

  /** A stored fingerprint is never empty, so it can always be compared with a non-empty one. */
  predicate Wellformed(s: GateSnapshot) {
    s.lastFingerprint.Some? ==> |s.lastFingerprint.value| > 0
  }

  /** `Instant::elapsed`: saturates at zero if the clock reads earlier than `since`. */
  function Elapsed(since: nat, now: nat): nat {
    if now >= since then now - since else 0
  }

  /** The decision of `should_capture`: a first fingerprint, enough change, or a silence window used up. */
  predicate Proceeds(s: GateSnapshot, fp: Digest, threshold: real, maxSilentMinutes: nat, now: nat)
    requires Wellformed(s) && |fp| > 0
  {
    var silentExceeded := Elapsed(s.lastCaptureTime, now) >= maxSilentMinutes * 60;
    var changed := match s.lastFingerprint
      case None => true
      case Some(prev) => ChangeRate(prev, fp) >= threshold;
    changed || silentExceeded
  }

  /** The screen state after `should_capture`: the new sample on proceeding, the old state otherwise. */
  function After(s: GateSnapshot, fp: Digest, threshold: real, maxSilentMinutes: nat, now: nat): (t: GateSnapshot)
    requires Wellformed(s) && |fp| > 0
    ensures Wellformed(t)
  {
    if Proceeds(s, fp, threshold, maxSilentMinutes, now) then GateSnapshot(Some(fp), now) else s
  }

  /** `ScreenState`, the process-wide state the gate mutates under its lock. */
  class ScreenState {
    var lastFingerprint: Option<Digest>
    var lastCaptureTime: nat

    function Snapshot(): GateSnapshot
      reads this
    {
      GateSnapshot(lastFingerprint, lastCaptureTime)
    }

    ghost predicate Valid()
      reads this
    {
      Wellformed(Snapshot())
    }

    /** The initial state: no fingerprint yet, the clock read at creation. */
    constructor (now: nat)
      ensures Valid()
      ensures lastFingerprint == None && lastCaptureTime == now
    {
      lastFingerprint := None;
      lastCaptureTime := now;
    }

    /** `should_capture`. */
    method ShouldCapture(fp: Digest, changeThreshold: real, maxSilentMinutes: nat, now: nat) returns (proceed: bool)
      requires Valid() && |fp| > 0
      modifies this
      ensures Valid()
      ensures proceed == Proceeds(old(Snapshot()), fp, changeThreshold, maxSilentMinutes, now)
      ensures Snapshot() == After(old(Snapshot()), fp, changeThreshold, maxSilentMinutes, now)
      ensures proceed ==> lastFingerprint == Some(fp) && lastCaptureTime == now
      ensures !proceed ==> lastFingerprint == old(lastFingerprint) && lastCaptureTime == old(lastCaptureTime)
    {
      var silentExceeded := Elapsed(lastCaptureTime, now) >= maxSilentMinutes * 60;
      var changed: bool;
      match lastFingerprint {
        case None =>
          changed := true;
        case Some(prev) =>
          var rate := ChangeRate(prev, fp);
          changed := rate >= changeThreshold;
      }
      if changed || silentExceeded {
        lastFingerprint := Some(fp);
        lastCaptureTime := now;
        proceed := true;
      } else {
        proceed := false;
      }
    }
  }

  /**
   * The decision stated on the digests themselves: the gate proceeds iff there
   * is no prior fingerprint, or the digests differ in length and the threshold
   * is at most 100, or at least `threshold` percent of the positions changed,
   * or the silence window is used up.
   */
  lemma {:induction false} GateDecision(s: GateSnapshot, fp: Digest, threshold: real, maxSilentMinutes: nat, now: nat)
    requires Wellformed(s) && |fp| > 0
    ensures Proceeds(s, fp, threshold, maxSilentMinutes, now) <==>
      || s.lastFingerprint.None?
      || (|s.lastFingerprint.value| != |fp| && threshold <= 100.0)
      || (|s.lastFingerprint.value| == |fp| &&
          CountChanged(s.lastFingerprint.value, fp) as real * 100.0 >= threshold * (|fp| as real))
      || Elapsed(s.lastCaptureTime, now) >= maxSilentMinutes * 60
  {
    if s.lastFingerprint.Some? && |s.lastFingerprint.value| == |fp| {
      ChangeRateAtLeast(s.lastFingerprint.value, fp, threshold);
    }
  }

  /** The first evaluation always proceeds, whatever the threshold and window, and records the sample. */
  lemma {:induction false} FirstEvaluationProceeds(s: GateSnapshot, fp: Digest, threshold: real, maxSilentMinutes: nat, now: nat)
    requires s.lastFingerprint.None? && |fp| > 0
    ensures Proceeds(s, fp, threshold, maxSilentMinutes, now)
    ensures After(s, fp, threshold, maxSilentMinutes, now) == GateSnapshot(Some(fp), now)
  {
  }

  /**
   * A rejected sample is not adopted: the state is unchanged, so a later
   * evaluation still compares against the old baseline.
   */
  lemma {:induction false} RejectionKeepsBaseline(s: GateSnapshot, rejected: Digest, next: Digest, threshold: real, maxSilentMinutes: nat, now: nat, later: nat)
    requires Wellformed(s) && |rejected| > 0 && |next| > 0
    requires !Proceeds(s, rejected, threshold, maxSilentMinutes, now)
    ensures After(s, rejected, threshold, maxSilentMinutes, now) == s
    ensures var t := After(s, rejected, threshold, maxSilentMinutes, now);
            Proceeds(t, next, threshold, maxSilentMinutes, later) == Proceeds(s, next, threshold, maxSilentMinutes, later)
  {
  }

  /** Once the silence window is used up, the gate proceeds even on an unchanged screen. */
  lemma {:induction false} SilenceForcesCapture(s: GateSnapshot, fp: Digest, threshold: real, maxSilentMinutes: nat, now: nat)
    requires Wellformed(s) && |fp| > 0
    requires Elapsed(s.lastCaptureTime, now) >= maxSilentMinutes * 60
    ensures Proceeds(s, fp, threshold, maxSilentMinutes, now)
  {
  }

  /**
   * A forced capture restarts the silence window: with a positive threshold, the
   * same unchanged screen is not captured again until a full window has passed.
   */
  lemma {:induction false} HeartbeatOncePerWindow(s: GateSnapshot, fp: Digest, threshold: real, maxSilentMinutes: nat, now: nat, later: nat)
    requires Wellformed(s) && |fp| > 0 && threshold > 0.0
    requires Proceeds(s, fp, threshold, maxSilentMinutes, now)
    requires now <= later < now + maxSilentMinutes * 60
    ensures !Proceeds(After(s, fp, threshold, maxSilentMinutes, now), fp, threshold, maxSilentMinutes, later)
    ensures Proceeds(After(s, fp, threshold, maxSilentMinutes, now), fp, threshold, maxSilentMinutes, now + maxSilentMinutes * 60)
  {
    ChangeRateSelf(fp);
  }

  /** A static screen (all-128 against all-128) is rejected below the window, for any positive threshold. */
  lemma {:induction false} StaticScreenRejected(threshold: real, maxSilentMinutes: nat, last: nat, now: nat)
    requires threshold > 0.0 && Elapsed(last, now) < maxSilentMinutes * 60
    ensures var s := GateSnapshot(Some(Uniform(128)), last);
            !Proceeds(s, Uniform(128), threshold, maxSilentMinutes, now) &&
            After(s, Uniform(128), threshold, maxSilentMinutes, now) == s
  {
    UniformChangeRates();
  }

  /** A full change (all-0 against all-255) proceeds for every threshold up to 100. */
  lemma {:induction false} FullChangeProceeds(threshold: real, maxSilentMinutes: nat, last: nat, now: nat)
    requires threshold <= 100.0
    ensures Proceeds(GateSnapshot(Some(Uniform(0)), last), Uniform(255), threshold, maxSilentMinutes, now)
  {
    UniformChangeRates();
  }
}
