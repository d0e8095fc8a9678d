/**
 * The fingerprint engine of src-tauri/src/auto_perception/mod.rs: a digest is the
 * 64x64 grayscale thumbnail of a screen image, and the change rate of two digests
 * is the percentage of positions whose intensities differ by more than the noise
 * tolerance. The rate is an exact real here, where the source computes an f64.
 */
module Fingerprint {
  import opened Text

  type Digest = seq<Byte>

  const ThumbSize: nat := 64
  /** A digest computed from an image always has this many bytes. */
  const DigestLength: nat := ThumbSize * ThumbSize
  const NoiseTolerance: nat := 10

  /** `u8::abs_diff`. */
  function AbsDiff(x: Byte, y: Byte): nat {
    if x >= y then x - y else y - x
  }

  /** A position counts as changed when its difference is strictly above the tolerance. */
  predicate Exceeds(x: Byte, y: Byte) {
    AbsDiff(x, y) > NoiseTolerance
  }

  /** The number of changed positions of two equally long digests. */
  function CountChanged(a: Digest, b: Digest): (n: nat)
    requires |a| == |b|
    ensures n <= |a|
    decreases |a|
  {
    if |a| == 0 then 0
    else CountChanged(a[..|a| - 1], b[..|b| - 1]) + (if Exceeds(a[|a| - 1], b[|b| - 1]) then 1 else 0)
  }

  /** The set of changed positions: the reference definition of the count. */
  function ChangedPositions(a: Digest, b: Digest): set<nat>
    requires |a| == |b|
  {
    set i: nat | i < |a| && Exceeds(a[i], b[i])
  }

  /**
   * `calc_change_rate`: 100 for digests of different lengths, otherwise the
   * changed positions as a percentage of the length. Two empty digests (0/0,
   * NaN in the source) are excluded.
   */
  function ChangeRate(a: Digest, b: Digest): (rate: real)
    requires |a| != |b| || |a| > 0
    ensures 0.0 <= rate <= 100.0
    ensures |a| != |b| ==> rate == 100.0
  {
    if |a| != |b| then 100.0
    else
      ShareBounds(CountChanged(a, b) as real, |a| as real);
      (CountChanged(a, b) as real / |a| as real) * 100.0
  }

  /** The count is the number of positions whose difference exceeds the tolerance. */
  lemma {:induction false} CountIsChangedPositions(a: Digest, b: Digest)
    requires |a| == |b|
    ensures CountChanged(a, b) == |ChangedPositions(a, b)|
    decreases |a|
  {
    if |a| > 0 {
      var n := |a| - 1;
      var a', b' := a[..n], b[..n];
      CountIsChangedPositions(a', b');
      var before := ChangedPositions(a', b');
      if Exceeds(a[n], b[n]) {
        assert ChangedPositions(a, b) == before + {n};
      } else {
        assert ChangedPositions(a, b) == before;
      }
    }
  }

  /** No position is counted exactly when every difference is within the tolerance. */
  lemma {:induction false} CountZeroIff(a: Digest, b: Digest)
    requires |a| == |b|
    ensures CountChanged(a, b) == 0 <==> forall i :: 0 <= i < |a| ==> !Exceeds(a[i], b[i])
    decreases |a|
  {
    if |a| > 0 {
      var n := |a| - 1;
      CountZeroIff(a[..n], b[..n]);
      assert forall i :: 0 <= i < n ==> a[..n][i] == a[i] && b[..n][i] == b[i];
    }
  }

  /** Every position is counted exactly when every difference exceeds the tolerance. */
  lemma {:induction false} CountFullIff(a: Digest, b: Digest)
    requires |a| == |b|
    ensures CountChanged(a, b) == |a| <==> forall i :: 0 <= i < |a| ==> Exceeds(a[i], b[i])
    decreases |a|
  {
    if |a| > 0 {
      var n := |a| - 1;
      CountFullIff(a[..n], b[..n]);
      assert forall i :: 0 <= i < n ==> a[..n][i] == a[i] && b[..n][i] == b[i];
    }
  }

  /** The count of a concatenation is the sum of the counts of its parts. */
  lemma {:induction false} CountAppend(a1: Digest, b1: Digest, a2: Digest, b2: Digest)
    requires |a1| == |b1| && |a2| == |b2|
    ensures CountChanged(a1 + a2, b1 + b2) == CountChanged(a1, b1) + CountChanged(a2, b2)
    decreases |a2|
  {
    if |a2| == 0 {
      assert a1 + a2 == a1 && b1 + b2 == b1;
    } else {
      var n := |a2| - 1;
      CountAppend(a1, b1, a2[..n], b2[..n]);
      assert (a1 + a2)[..|a1 + a2| - 1] == a1 + a2[..n];
      assert (b1 + b2)[..|b1 + b2| - 1] == b1 + b2[..n];
    }
  }

  /** The rate of equally long digests is 100 times the changed positions over the length. */
  lemma ChangeRateIsShareOfChangedPositions(a: Digest, b: Digest)
    requires |a| == |b| > 0
    ensures ChangeRate(a, b) == 100.0 * (|ChangedPositions(a, b)| as real) / (|a| as real)
  {
    CountIsChangedPositions(a, b);
    PercentReorder(CountChanged(a, b) as real, |a| as real);
  }

  /** The rate is 0 exactly when no position differs by more than the tolerance. */
  lemma ChangeRateZeroIff(a: Digest, b: Digest)
    requires |a| == |b| > 0
    ensures ChangeRate(a, b) == 0.0 <==> forall i :: 0 <= i < |a| ==> !Exceeds(a[i], b[i])
  {
    CountZeroIff(a, b);
  }

  /** The rate is 100 for equally long digests exactly when every position differs by more than the tolerance. */
  lemma ChangeRateFullIff(a: Digest, b: Digest)
    requires |a| == |b| > 0
    ensures ChangeRate(a, b) == 100.0 <==> forall i :: 0 <= i < |a| ==> Exceeds(a[i], b[i])
  {
    CountFullIff(a, b);
    var n := |a| as real;
    var c := CountChanged(a, b) as real;
    assert ChangeRate(a, b) == (c / n) * 100.0;
    PercentIsFull(c, n);
  }

  /** A digest compared with itself has not changed. */
  lemma ChangeRateSelf(a: Digest)
    requires |a| > 0
    ensures ChangeRate(a, a) == 0.0
  {
    ChangeRateZeroIff(a, a);
  }

  /** The gate's comparison `rate >= threshold`, stated without the division. */
  lemma {:induction false} ChangeRateAtLeast(a: Digest, b: Digest, threshold: real)
    requires |a| == |b| > 0
    ensures ChangeRate(a, b) >= threshold <==> CountChanged(a, b) as real * 100.0 >= threshold * (|a| as real)
  {
    var c, n := CountChanged(a, b) as real, |a| as real;
    assert ChangeRate(a, b) == (c / n) * 100.0;
    PercentAtLeast(c, n, threshold);
  }

  /** Multiplying by a positive real keeps the sign. */
  lemma {:induction false} PositiveFactor(x: real, n: real)
    requires n > 0.0
    ensures x >= 0.0 <==> x * n >= 0.0
  {
    if x < 0.0 {
      assert (-x) * n > 0.0;
    }
  }

  /** A product with a positive factor is zero only when the other factor is. */
  lemma {:induction false} ZeroFactor(x: real, n: real)
    requires n > 0.0 && x * n == 0.0
    ensures x == 0.0
  {
    PositiveFactor(x, n);
    PositiveFactor(-x, n);
    assert (-x) * n == -(x * n);
  }

  lemma {:induction false} ShareBounds(c: real, n: real)
    requires 0.0 <= c <= n && n > 0.0
    ensures 0.0 <= (c / n) * 100.0 <= 100.0
  {
    var q := c / n;
    assert q * n == c;
    PositiveFactor(q, n);
    PositiveFactor(1.0 - q, n);
    assert (1.0 - q) * n == n - c;
  }

  lemma {:induction false} PercentReorder(c: real, n: real)
    requires n > 0.0
    ensures (c / n) * 100.0 == 100.0 * c / n
  {
    var q, r := c / n, 100.0 * c / n;
    assert q * n == c;
    assert r * n == 100.0 * c;
    assert (q * 100.0 - r) * n == (q * n) * 100.0 - r * n;
    ZeroFactor(q * 100.0 - r, n);
  }

  lemma {:induction false} PercentIsFull(c: real, n: real)
    requires n > 0.0
    ensures (c / n) * 100.0 == 100.0 <==> c == n
  {
    var q := c / n;
    assert q * n == c;
    assert (q - 1.0) * n == q * n - n;
    if c == n {
      ZeroFactor(q - 1.0, n);
    }
  }

  lemma {:induction false} PercentAtLeast(c: real, n: real, t: real)
    requires n > 0.0
    ensures (c / n) * 100.0 >= t <==> c * 100.0 >= t * n
  {
    var q := c / n;
    assert q * n == c;
    PositiveFactor(q * 100.0 - t, n);
    assert (q * 100.0 - t) * n == (q * n) * 100.0 - t * n;
  }

  /** A digest of `DigestLength` bytes all equal to `v`. */
  function Uniform(v: Byte): (d: Digest)
    ensures |d| == DigestLength
  {
    seq(DigestLength, _ => v)
  }

  /** Uniform digests: identical ones and ones 10 apart give 0; 11 apart and 0 against 255 give 100. */
  lemma UniformChangeRates()
    ensures ChangeRate(Uniform(128), Uniform(128)) == 0.0
    ensures ChangeRate(Uniform(100), Uniform(110)) == 0.0
    ensures ChangeRate(Uniform(100), Uniform(111)) == 100.0
    ensures ChangeRate(Uniform(0), Uniform(255)) == 100.0
  {
    ChangeRateSelf(Uniform(128));
    ChangeRateZeroIff(Uniform(100), Uniform(110));
    ChangeRateFullIff(Uniform(100), Uniform(111));
    ChangeRateFullIff(Uniform(0), Uniform(255));
  }

  /** Digests whose first `k` positions differ by more than the tolerance and whose others agree within it. */
  lemma PrefixChangeRate(a: Digest, b: Digest, k: nat)
    requires |a| == |b| > 0 && k <= |a|
    requires forall i :: 0 <= i < k ==> Exceeds(a[i], b[i])
    requires forall i :: k <= i < |a| ==> !Exceeds(a[i], b[i])
    ensures CountChanged(a, b) == k
    ensures ChangeRate(a, b) == (k as real / |a| as real) * 100.0
  {
    assert a == a[..k] + a[k..] && b == b[..k] + b[k..];
    CountAppend(a[..k], b[..k], a[k..], b[k..]);
    CountFullIff(a[..k], b[..k]);
    CountZeroIff(a[k..], b[k..]);
  }

  /** A quarter of the positions moved from 100 to 0 and 200: the rate is 25. */
  lemma QuarterChangeRate()
    ensures var a := seq(DigestLength, i => if i < DigestLength / 4 then 0 else 100);
            var b := seq(DigestLength, i => if i < DigestLength / 4 then 200 else 100);
            ChangeRate(a, b) == 25.0
  {
    var a: Digest := seq(DigestLength, i => if i < DigestLength / 4 then 0 else 100);
    var b: Digest := seq(DigestLength, i => if i < DigestLength / 4 then 200 else 100);
    PrefixChangeRate(a, b, DigestLength / 4);
  }
}
