/**
 * The six feature keys, the raw values the extractor produces for them, and
 * the clamp step `normalizeFeatures` that turns a raw record into a feature
 * record with values in [0, 1].
 */
module Features {
  import opened Signal

  /** The keys of a feature record, in the order the extractor writes them. */
  datatype Feature = Energy | Pitch | Tempo | Variance | Brightness | RhythmStability

  const ALL_FEATURES: set<Feature> := {Energy, Pitch, Tempo, Variance, Brightness, RhythmStability}

  /**
   * A raw feature value: a number, or `NaN`, which stands for every falsy
   * non-number (`NaN`, `undefined`) that `value || 0` replaces by 0.
   */
  datatype Raw = Num(value: real) | NaN

  /** A feature record; a key that is absent is `undefined` in the source. */
  type FeatureMap = map<Feature, real>

  ghost predicate InUnitCube(f: FeatureMap)
  {
    forall k :: k in f ==> 0.0 <= f[k] <= 1.0
  }

  /** A feature record with exactly the six keys, each in [0, 1]. */
  ghost predicate IsFeatureVector(f: FeatureMap)
  {
    f.Keys == ALL_FEATURES && InUnitCube(f)
  }

  /** `Math.min(Math.max(value || 0, 0), 1)` */
  function NormalizeValue(v: Raw): (r: real)
    ensures 0.0 <= r <= 1.0
    ensures v.NaN? ==> r == 0.0
    ensures v.Num? && 0.0 <= v.value <= 1.0 ==> r == v.value
    ensures v.Num? && v.value < 0.0 ==> r == 0.0
    ensures v.Num? && v.value > 1.0 ==> r == 1.0
  {
    var x := if v.NaN? then 0.0 else v.value;
    Min(Max(x, 0.0), 1.0)
  }

  /**
   * `normalizeFeatures`: fills a fresh record key by key; it keeps exactly
   * the keys of its input and clamps every value into [0, 1].
   */
  method NormalizeFeatures(features: map<Feature, Raw>) returns (normalized: FeatureMap)
    ensures normalized.Keys == features.Keys
    ensures forall k :: k in features ==> normalized[k] == NormalizeValue(features[k])
    ensures InUnitCube(normalized)
  {
    normalized := map[];
    var pending := features.Keys;
    while pending != {}
      invariant pending <= features.Keys
      invariant normalized.Keys == features.Keys - pending
      invariant forall k :: k in normalized ==> normalized[k] == NormalizeValue(features[k])
      decreases |pending|
    {
      var feature :| feature in pending;
      normalized := normalized[feature := NormalizeValue(features[feature])];
      pending := pending - {feature};
    }
  }
}
