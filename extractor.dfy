/**
 * `AudioFeatureExtractor`: six scalar features of one complete, decoded
 * sample buffer, clamped into [0, 1]. The sample rate and the linear
 * magnitudes of the frequency snapshot are parameters.
 */
module FeatureExtractor {
  import opened Wrappers
  import opened Signal
  import opened Features

  /** The fixed onset threshold of `estimateTempo`. */
  const ONSET_THRESHOLD: real := 0.1
  /** The number of envelope bins of `analyzeRhythmStability`. */
  const ENVELOPE_LENGTH: nat := 100
  /** The scaling of the envelope variance in `analyzeRhythmStability`. */
  const STABILITY_SCALE: real := 10.0

  // ---------------------------------------------------------------- energy

  /** `calculateEnergy`: the mean absolute amplitude. */
  function EnergyOf(audioData: seq<real>): (e: real)
    requires |audioData| > 0
    ensures e >= 0.0
  {
    SumOfAtLeast(audioData, Abs, 0.0);
    SumOf(audioData, Abs) / |audioData| as real
  }

  /** Samples in [-1, 1] keep the energy in [0, 1]. */
  lemma EnergyAtMostOne(audioData: seq<real>)
    requires |audioData| > 0
    requires forall i :: 0 <= i < |audioData| ==> -1.0 <= audioData[i] <= 1.0
    ensures EnergyOf(audioData) <= 1.0
  {
    SumOfAtMost(audioData, Abs, 1.0);
  }

  // ----------------------------------------------------------------- pitch

  /** The two samples of a pair lie on different sides of 0 (0 counts as nonnegative). */
  predicate Crosses(previous: real, current: real)
  {
    (current >= 0.0 && previous < 0.0) || (current < 0.0 && previous >= 0.0)
  }

  function ZeroCrossings(audioData: seq<real>): nat
  {
    CountAdjacent(audioData, |audioData|, Crosses)
  }

  /** The zero-crossing rate `estimatePitch` returns; it stays below half the sample rate. */
  function PitchOf(audioData: seq<real>, sampleRate: real): (p: real)
    requires |audioData| > 0 && sampleRate > 0.0
    ensures 0.0 <= p < sampleRate / 2.0
  {
    var n := |audioData| as real;
    var c := ZeroCrossings(audioData) as real;
    assert c * sampleRate < n * sampleRate;
    (c * sampleRate) / (2.0 * n)
  }

  /** `estimatePitch`: counts the crossings in a loop and scales the count to a rate. */
  method EstimatePitch(audioData: seq<real>, sampleRate: real) returns (pitch: real)
    requires |audioData| > 0 && sampleRate > 0.0
    ensures pitch == PitchOf(audioData, sampleRate)
  {
    var zeroCrossings: nat := 0;
    for i := 1 to |audioData|
      invariant zeroCrossings == CountAdjacent(audioData, i, Crosses)
    {
      if (audioData[i] >= 0.0 && audioData[i - 1] < 0.0) ||
         (audioData[i] < 0.0 && audioData[i - 1] >= 0.0)
      {
        zeroCrossings := zeroCrossings + 1;
      }
    }
    pitch := (zeroCrossings as real * sampleRate) / (2.0 * |audioData| as real);
  }

  /**
   * The crossings are exactly the indices i in [1, N) whose sample and
   * predecessor have different sign classes (>= 0 against < 0).
   */
  lemma ZeroCrossingsExact(audioData: seq<real>)
    ensures ZeroCrossings(audioData) == |AdjacentIndices(audioData, |audioData|, Crosses)|
    ensures forall i :: i in AdjacentIndices(audioData, |audioData|, Crosses) <==>
              1 <= i < |audioData| && (audioData[i] >= 0.0) != (audioData[i - 1] >= 0.0)
  {
    CountAdjacentIsCardinality(audioData, |audioData|, Crosses);
  }

  /** All samples on one side of 0 (silence, say) give no crossing and so pitch 0. */
  lemma ZeroCrossingsOneSide(audioData: seq<real>)
    requires (forall i :: 0 <= i < |audioData| ==> audioData[i] >= 0.0) ||
             (forall i :: 0 <= i < |audioData| ==> audioData[i] < 0.0)
    ensures ZeroCrossings(audioData) == 0
    ensures |audioData| > 0 ==> forall sampleRate :: sampleRate > 0.0 ==> PitchOf(audioData, sampleRate) == 0.0
  {
    CountAdjacentNone(audioData, |audioData|, Crosses);
  }

  /** Two orderings of one multiset of samples with different crossing counts. */
  lemma PitchIsOrderDependent()
    ensures multiset([1.0, 1.0, -1.0, -1.0]) == multiset([1.0, -1.0, 1.0, -1.0])
    ensures ZeroCrossings([1.0, 1.0, -1.0, -1.0]) == 1
    ensures ZeroCrossings([1.0, -1.0, 1.0, -1.0]) == 3
  {
    var a := [1.0, 1.0, -1.0, -1.0];
    var b := [1.0, -1.0, 1.0, -1.0];
    assert CountAdjacent(a, 2, Crosses) == 0;
    assert CountAdjacent(a, 3, Crosses) == 1;
    assert CountAdjacent(b, 2, Crosses) == 1;
    assert CountAdjacent(b, 3, Crosses) == 2;
  }

  // ----------------------------------------------------------------- tempo

  /** A pair where the magnitude rises from at most the threshold to above it. */
  predicate Onset(previous: real, current: real)
  {
    Abs(current) > ONSET_THRESHOLD && Abs(previous) <= ONSET_THRESHOLD
  }

  function Onsets(audioData: seq<real>): nat
  {
    CountAdjacent(audioData, |audioData|, Onset)
  }

  /** The onset rate `estimateTempo` returns: onsets per second, below the sample rate. */
  function TempoOf(audioData: seq<real>, sampleRate: real): (t: real)
    requires |audioData| > 0 && sampleRate > 0.0
    ensures 0.0 <= t < sampleRate
  {
    var n := |audioData| as real;
    var c := Onsets(audioData) as real;
    assert c / (n / sampleRate) == c * sampleRate / n;
    assert c * sampleRate < n * sampleRate;
    c / (n / sampleRate)
  }

  /** `estimateTempo`: counts the onsets in a loop and divides by the duration. */
  method EstimateTempo(audioData: seq<real>, sampleRate: real) returns (tempo: real)
    requires |audioData| > 0 && sampleRate > 0.0
    ensures tempo == TempoOf(audioData, sampleRate)
  {
    var onsets: nat := 0;
    var threshold := ONSET_THRESHOLD;
    for i := 1 to |audioData|
      invariant onsets == CountAdjacent(audioData, i, Onset)
    {
      if Abs(audioData[i]) > threshold && Abs(audioData[i - 1]) <= threshold {
        onsets := onsets + 1;
      }
    }
    tempo := onsets as real / (|audioData| as real / sampleRate);
  }

  /** The onsets are exactly the indices i in [1, N) with |x[i]| > 0.1 and |x[i - 1]| <= 0.1. */
  lemma OnsetsExact(audioData: seq<real>)
    ensures Onsets(audioData) == |AdjacentIndices(audioData, |audioData|, Onset)|
    ensures forall i :: i in AdjacentIndices(audioData, |audioData|, Onset) <==>
              1 <= i < |audioData| && Abs(audioData[i]) > 0.1 && Abs(audioData[i - 1]) <= 0.1
  {
    CountAdjacentIsCardinality(audioData, |audioData|, Onset);
  }

  /** Two orderings of one multiset of samples with different onset counts. */
  lemma TempoIsOrderDependent()
    ensures multiset([0.0, 0.5, 0.0, 0.5]) == multiset([0.0, 0.0, 0.5, 0.5])
    ensures Onsets([0.0, 0.5, 0.0, 0.5]) == 2
    ensures Onsets([0.0, 0.0, 0.5, 0.5]) == 1
  {
    var a := [0.0, 0.5, 0.0, 0.5];
    var b := [0.0, 0.0, 0.5, 0.5];
    assert CountAdjacent(a, 2, Onset) == 1;
    assert CountAdjacent(a, 3, Onset) == 1;
    assert CountAdjacent(b, 2, Onset) == 0;
    assert CountAdjacent(b, 3, Onset) == 1;
  }

  // ------------------------------------------------------------ brightness

  /** Σ m[i]·i, accumulated in index order. */
  function IndexWeightedSum(magnitudes: seq<real>): real
  {
    if magnitudes == [] then 0.0
    else
      var n := |magnitudes|;
      IndexWeightedSum(magnitudes[..n - 1]) + magnitudes[n - 1] * (n - 1) as real
  }

  ghost predicate NonNegative(magnitudes: seq<real>)
  {
    forall i :: 0 <= i < |magnitudes| ==> magnitudes[i] >= 0.0
  }

  /** The magnitude-weighted mean index lies between 0 and the last index. */
  lemma {:induction false} IndexWeightedSumBounds(magnitudes: seq<real>)
    requires NonNegative(magnitudes)
    ensures 0.0 <= IndexWeightedSum(magnitudes)
    ensures IndexWeightedSum(magnitudes) <= (|magnitudes| as real - 1.0) * SumOf(magnitudes, Id)
  {
    if magnitudes != [] {
      var n := |magnitudes|;
      var p := magnitudes[..n - 1];
      var x := magnitudes[n - 1];
      assert NonNegative(p);
      IndexWeightedSumBounds(p);
      SumOfAtLeast(p, Id, 0.0);
      var k := n as real - 1.0;
      assert x * (n - 1) as real == k * x;
      assert (k - 1.0) * SumOf(p, Id) <= k * SumOf(p, Id);
      assert SumOf(magnitudes, Id) == SumOf(p, Id) + x;
      assert k * SumOf(magnitudes, Id) == k * SumOf(p, Id) + k * x;
      assert 0.0 <= k * x;
    }
  }

  /**
   * The spectral centroid `calculateBrightness` computes from linear
   * magnitudes, divided by the bin count: `NaN` (0/0) when every magnitude
   * is 0, otherwise a value in [0, 1).
   */
  function BrightnessOf(magnitudes: seq<real>): (b: Raw)
    requires NonNegative(magnitudes)
    ensures b.NaN? <==> forall i :: 0 <= i < |magnitudes| ==> magnitudes[i] == 0.0
    ensures b.Num? ==> 0.0 <= b.value < 1.0
  {
    var total := SumOf(magnitudes, Id);
    SumOfAtLeast(magnitudes, Id, 0.0);
    if total == 0.0 then
      assert forall i :: 0 <= i < |magnitudes| ==> magnitudes[i] == 0.0 by {
        forall i | 0 <= i < |magnitudes| ensures magnitudes[i] == 0.0 {
          SumOfAtLeastTerm(magnitudes, Id, i);
        }
      }
      NaN
    else
      assert !forall i :: 0 <= i < |magnitudes| ==> magnitudes[i] == 0.0 by {
        if forall i :: 0 <= i < |magnitudes| ==> magnitudes[i] == 0.0 {
          SumOfAtMost(magnitudes, Id, 0.0);
        }
      }
      var n := |magnitudes| as real;
      var w := IndexWeightedSum(magnitudes);
      IndexWeightedSumBounds(magnitudes);
      CentroidBelowOne(w, total, n);
      Num(w / total / n)
  }

  /** A mean index in [0, n - 1] divided by n lies in [0, 1). */
  lemma CentroidBelowOne(w: real, total: real, n: real)
    requires total > 0.0 && n >= 1.0
    requires 0.0 <= w <= (n - 1.0) * total
    ensures 0.0 <= w / total / n < 1.0
  {
    var c := n - 1.0;
    assert (c * total) / total == c by {
      CancelFactor(c, total);
    }
    assert w / total <= (c * total) / total;
    var q := w / total;
    assert q / n <= (n - 1.0) / n;
    assert (n - 1.0) / n == 1.0 - 1.0 / n;
  }

  /** `calculateBrightness` over given linear magnitudes: sums them and their index-weighted values in a loop. */
  method CalculateBrightness(magnitudes: seq<real>) returns (brightness: Raw)
    requires NonNegative(magnitudes)
    ensures brightness == BrightnessOf(magnitudes)
  {
    var sum := 0.0;
    var weightedSum := 0.0;
    for i := 0 to |magnitudes|
      invariant sum == SumOf(magnitudes[..i], Id)
      invariant weightedSum == IndexWeightedSum(magnitudes[..i])
    {
      var magnitude := magnitudes[i];
      assert magnitudes[..i + 1][..i] == magnitudes[..i];
      sum := sum + magnitude;
      weightedSum := weightedSum + magnitude * i as real;
    }
    assert magnitudes[..|magnitudes|] == magnitudes;
    brightness := if sum == 0.0 then NaN else Num(weightedSum / sum / |magnitudes| as real);
  }

  // ------------------------------------------------------ rhythm stability

  function SamplesPerBin(n: nat): nat
  {
    n / ENVELOPE_LENGTH
  }

  /** Every envelope bin lies inside the buffer. */
  lemma BinInBounds(n: nat, i: nat)
    requires i < ENVELOPE_LENGTH
    ensures i * SamplesPerBin(n) + SamplesPerBin(n) <= ENVELOPE_LENGTH * SamplesPerBin(n) <= n
  {
    var w := SamplesPerBin(n);
    assert ENVELOPE_LENGTH * w + n % ENVELOPE_LENGTH == n;
    NatMulMonotone(i + 1, ENVELOPE_LENGTH, w);
    assert i * w + w == (i + 1) * w;
  }

  /**
   * The running `max` of one envelope bin: the maximum of 0 and every
   * |x[j]| for j in [lo, hi).
   */
  function BinMax(audioData: seq<real>, lo: nat, hi: nat): (m: real)
    requires lo <= hi <= |audioData|
    ensures m >= 0.0
    ensures forall j :: lo <= j < hi ==> Abs(audioData[j]) <= m
    ensures m == 0.0 || exists j :: lo <= j < hi && m == Abs(audioData[j])
    decreases hi - lo
  {
    if hi == lo then 0.0 else Max(BinMax(audioData, lo, hi - 1), Abs(audioData[hi - 1]))
  }

  /** Envelope bin i covers samples [i·w, (i + 1)·w) where w = ⌊N / 100⌋. */
  function EnvelopeBin(audioData: seq<real>, i: nat): real
    requires i < ENVELOPE_LENGTH
  {
    BinInBounds(|audioData|, i);
    var w := SamplesPerBin(|audioData|);
    BinMax(audioData, i * w, i * w + w)
  }

  function Envelope(audioData: seq<real>): seq<real>
  {
    seq(ENVELOPE_LENGTH, i requires 0 <= i < ENVELOPE_LENGTH => EnvelopeBin(audioData, i))
  }

  /** `analyzeRhythmStability`: 1 - min(10·variance of the envelope, 1). */
  function RhythmStabilityOf(audioData: seq<real>): (r: real)
    ensures 0.0 <= r <= 1.0
  {
    1.0 - Min(PopulationVariance(Envelope(audioData)) * STABILITY_SCALE, 1.0)
  }

  /** `analyzeRhythmStability`: fills the envelope array bin by bin with nested loops. */
  method AnalyzeRhythmStability(audioData: seq<real>) returns (stability: real)
    ensures stability == RhythmStabilityOf(audioData)
  {
    var envelope := new real[ENVELOPE_LENGTH];
    var samplesPerEnvelope := |audioData| / ENVELOPE_LENGTH;
    for i := 0 to ENVELOPE_LENGTH
      invariant forall k :: 0 <= k < i ==> envelope[k] == EnvelopeBin(audioData, k)
    {
      BinInBounds(|audioData|, i);
      var start := i * samplesPerEnvelope;
      var end := start + samplesPerEnvelope;
      var max := 0.0;
      for j := start to end
        invariant max == BinMax(audioData, start, j)
      {
        max := Max(max, Abs(audioData[j]));
      }
      envelope[i] := max;
    }
    assert envelope[..] == Envelope(audioData);
    var envelopeVariance := PopulationVariance(envelope[..]);
    stability := 1.0 - Min(envelopeVariance * STABILITY_SCALE, 1.0);
  }

  /** A constant envelope has variance 0 and so stability 1. */
  lemma ConstantEnvelopeIsStable(audioData: seq<real>, c: real)
    requires forall i :: 0 <= i < ENVELOPE_LENGTH ==> EnvelopeBin(audioData, i) == c
    ensures RhythmStabilityOf(audioData) == 1.0
  {
    ConstantVariance(Envelope(audioData), c);
  }

  /** Fewer than 100 samples make every bin empty, so the stability is 1. */
  lemma ShortBufferIsStable(audioData: seq<real>)
    requires |audioData| < ENVELOPE_LENGTH
    ensures RhythmStabilityOf(audioData) == 1.0
  {
    assert SamplesPerBin(|audioData|) == 0;
    ConstantEnvelopeIsStable(audioData, 0.0);
  }

  lemma {:induction false} BinMaxAgree(s: seq<real>, t: seq<real>, lo: nat, hi: nat)
    requires lo <= hi <= |s| && hi <= |t|
    requires forall j :: lo <= j < hi ==> s[j] == t[j]
    ensures BinMax(s, lo, hi) == BinMax(t, lo, hi)
    decreases hi - lo
  {
    if hi > lo {
      BinMaxAgree(s, t, lo, hi - 1);
    }
  }

  lemma EnvelopeBinAgree(s: seq<real>, t: seq<real>, i: nat)
    requires |s| == |t| && i < ENVELOPE_LENGTH
    requires forall j :: 0 <= j < |s| && j < ENVELOPE_LENGTH * SamplesPerBin(|s|) ==> s[j] == t[j]
    ensures EnvelopeBin(s, i) == EnvelopeBin(t, i)
  {
    var w := SamplesPerBin(|s|);
    BinInBounds(|s|, i);
    BinMaxAgreeInPrefix(s, t, i * w, i * w + w, ENVELOPE_LENGTH * w);
  }

  lemma BinMaxAgreeInPrefix(s: seq<real>, t: seq<real>, lo: nat, hi: nat, prefix: nat)
    requires |s| == |t| && lo <= hi <= prefix <= |s|
    requires forall j :: 0 <= j < |s| && j < prefix ==> s[j] == t[j]
    ensures BinMax(s, lo, hi) == BinMax(t, lo, hi)
  {
    BinMaxAgree(s, t, lo, hi);
  }

  /** The samples from index 100·⌊N / 100⌋ on do not affect the stability. */
  lemma RhythmStabilityIgnoresTail(s: seq<real>, t: seq<real>)
    requires |s| == |t|
    requires forall j :: 0 <= j < |s| && j < ENVELOPE_LENGTH * SamplesPerBin(|s|) ==> s[j] == t[j]
    ensures RhythmStabilityOf(s) == RhythmStabilityOf(t)
  {
    forall i | 0 <= i < ENVELOPE_LENGTH
      ensures Envelope(s)[i] == Envelope(t)[i]
    {
      EnvelopeBinAgree(s, t, i);
    }
    assert Envelope(s) == Envelope(t);
  }

  // ------------------------------------------------------------- extraction

  /** Energy and variance depend only on the multiset of samples. */
  lemma EnergyVariancePermutationInvariant(s: seq<real>, t: seq<real>)
    requires |s| > 0
    requires multiset(s) == multiset(t)
    ensures |t| == |s|
    ensures EnergyOf(s) == EnergyOf(t)
    ensures PopulationVariance(s) == PopulationVariance(t)
  {
    assert |s| == |multiset(s)| == |t|;
    SumOfPermutation(s, t, Abs);
    SumOfPermutation(s, t, Id);
    SumOfPermutation(s, t, SqDev(Mean(s)));
  }

  /** An all-zero buffer: energy, pitch, tempo and variance 0, stability 1. */
  lemma SilentBuffer(audioData: seq<real>, sampleRate: real)
    requires |audioData| > 0 && sampleRate > 0.0
    requires forall i :: 0 <= i < |audioData| ==> audioData[i] == 0.0
    ensures EnergyOf(audioData) == 0.0
    ensures ZeroCrossings(audioData) == 0 && PitchOf(audioData, sampleRate) == 0.0
    ensures Onsets(audioData) == 0 && TempoOf(audioData, sampleRate) == 0.0
    ensures PopulationVariance(audioData) == 0.0
    ensures RhythmStabilityOf(audioData) == 1.0
  {
    SumOfAtMost(audioData, Abs, 0.0);
    ConstantVariance(audioData, 0.0);
    SilentBufferHasNoEvents(audioData);
    SilentBufferIsStable(audioData);
  }

  lemma SilentBufferHasNoEvents(audioData: seq<real>)
    requires |audioData| > 0
    requires forall i :: 0 <= i < |audioData| ==> audioData[i] == 0.0
    ensures ZeroCrossings(audioData) == 0 && Onsets(audioData) == 0
  {
    ZeroCrossingsOneSide(audioData);
    assert forall i :: 1 <= i < |audioData| ==> !EdgeAt(audioData, i, Onset);
    CountAdjacentNone(audioData, |audioData|, Onset);
  }

  lemma SilentBufferIsStable(audioData: seq<real>)
    requires forall i :: 0 <= i < |audioData| ==> audioData[i] == 0.0
    ensures RhythmStabilityOf(audioData) == 1.0
  {
    forall i | 0 <= i < ENVELOPE_LENGTH
      ensures EnvelopeBin(audioData, i) == 0.0
    {
      BinInBounds(|audioData|, i);
    }
    ConstantEnvelopeIsStable(audioData, 0.0);
  }

  /** The record `extractFeatures` returns for a non-empty buffer. */
  ghost predicate ExtractedFrom(features: FeatureMap, audioData: seq<real>, sampleRate: real, magnitudes: seq<real>)
    requires |audioData| > 0 && sampleRate > 0.0 && NonNegative(magnitudes)
  {
    && features.Keys == ALL_FEATURES
    && features[Energy] == NormalizeValue(Num(EnergyOf(audioData)))
    && features[Pitch] == NormalizeValue(Num(PitchOf(audioData, sampleRate)))
    && features[Tempo] == NormalizeValue(Num(TempoOf(audioData, sampleRate)))
    && features[Variance] == NormalizeValue(Num(PopulationVariance(audioData)))
    && features[Brightness] == NormalizeValue(BrightnessOf(magnitudes))
    && features[RhythmStability] == NormalizeValue(Num(RhythmStabilityOf(audioData)))
  }

  /**
   * `extractFeatures`: no result for an absent or empty buffer, otherwise a
   * feature vector of the six clamped features.
   */
  method ExtractFeatures(audioData: Option<seq<real>>, sampleRate: real, magnitudes: seq<real>)
    returns (features: Option<FeatureMap>)
    requires sampleRate > 0.0
    requires NonNegative(magnitudes)
    ensures features.None? <==> audioData.None? || |audioData.value| == 0
    ensures features.Some? ==>
              && IsFeatureVector(features.value)
              && ExtractedFrom(features.value, audioData.value, sampleRate, magnitudes)
  {
    if audioData.None? || |audioData.value| == 0 {
      return None;
    }
    var data := audioData.value;
    var pitch := EstimatePitch(data, sampleRate);
    var tempo := EstimateTempo(data, sampleRate);
    var brightness := CalculateBrightness(magnitudes);
    var rhythmStability := AnalyzeRhythmStability(data);
    var raw := map[
      Energy := Num(EnergyOf(data)),
      Pitch := Num(pitch),
      Tempo := Num(tempo),
      Variance := Num(PopulationVariance(data)),
      Brightness := brightness,
      RhythmStability := Num(rhythmStability)
    ];
    var normalized := NormalizeFeatures(raw);
    return Some(normalized);
  }

  /**
   * Normalization leaves brightness and rhythm stability as computed (0 for
   * a `NaN` brightness), and the energy too when the samples lie in [-1, 1].
   */
  lemma NormalizationKeepsBoundedFeatures(features: FeatureMap, audioData: seq<real>, sampleRate: real, magnitudes: seq<real>)
    requires |audioData| > 0 && sampleRate > 0.0 && NonNegative(magnitudes)
    requires ExtractedFrom(features, audioData, sampleRate, magnitudes)
    ensures features[RhythmStability] == RhythmStabilityOf(audioData)
    ensures features[Brightness] == match BrightnessOf(magnitudes) case NaN => 0.0 case Num(b) => b
    ensures (forall i :: 0 <= i < |audioData| ==> -1.0 <= audioData[i] <= 1.0) ==>
              features[Energy] == EnergyOf(audioData)
  {
    if forall i :: 0 <= i < |audioData| ==> -1.0 <= audioData[i] <= 1.0 {
      EnergyAtMostOne(audioData);
    }
  }

  /**
   * Pitch is a rate in Hz, so the clamp saturates it at 1 as soon as there
   * are at least two crossings per second of audio.
   */
  lemma PitchSaturates(audioData: seq<real>, sampleRate: real)
    requires |audioData| > 0 && sampleRate > 0.0
    requires ZeroCrossings(audioData) as real * sampleRate >= 2.0 * |audioData| as real
    ensures NormalizeValue(Num(PitchOf(audioData, sampleRate))) == 1.0
  {
    var a := ZeroCrossings(audioData) as real * sampleRate;
    AtLeastOne(a, 2.0 * |audioData| as real);
  }

  /**
   * Tempo is a rate in onsets per second, so the clamp saturates it at 1 as
   * soon as there is at least one onset per second of audio.
   */
  lemma TempoSaturates(audioData: seq<real>, sampleRate: real)
    requires |audioData| > 0 && sampleRate > 0.0
    requires Onsets(audioData) as real * sampleRate >= |audioData| as real
    ensures NormalizeValue(Num(TempoOf(audioData, sampleRate))) == 1.0
  {
    var n := |audioData| as real;
    var c := Onsets(audioData) as real;
    assert TempoOf(audioData, sampleRate) == c * sampleRate / n;
    AtLeastOne(c * sampleRate, n);
  }
}
