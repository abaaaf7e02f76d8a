# Emotional-Sense analysis core in Dafny

This project models the analysis core of the Emotional-Sense browser app, all of it in `script.js`:

- the `emotions` profile table;
- `AudioFeatureExtractor`, which turns one complete decoded sample buffer into six scalar features (energy, pitch, tempo, variance, brightness, rhythm stability) and clamps them into [0, 1];
- `EmotionClassifier`, which scores a feature record against each profile with a weighted, bounded L1 similarity and picks the best profile with a first-seen-wins arg-max.

It has six modules: five, one per concern, plus `Wrappers`:

- `Signal` (`signal.dfy`): left-fold sums (what `reduce` computes), mean, population variance, and counts of events between adjacent samples.
- `Features` (`features.dfy`): the six feature keys, raw values, and the clamp step `normalizeFeatures`.
- `FeatureExtractor` (`extractor.dfy`): `extractFeatures` and the six feature computations.
- `Profiles` (`profiles.dfy`): the six emotion profiles in their insertion order, and the weight table.
- `Classifier` (`classifier.dfy`): `calculateSimilarity` and `classify`.

`Wrappers` (`wrappers.dfy`) holds an `Option` type. `extractFeatures` and `classify` take an `Option`, and `extractFeatures` returns one; `None` models JavaScript's `null`.

Modelling choices:

- Each loop in the source is a `method` with the same loop. Its postcondition ties the result to a specification function, and the properties are lemmas about those functions.
  - The counting loops of `estimatePitch` and `estimateTempo`.
  - The magnitude sums of `calculateBrightness`.
  - The nested loops in `analyzeRhythmStability`, which fill a 100-element `array<real>` envelope in place.
  - The key-by-key fill in `normalizeFeatures`.
  - The weight loop in `calculateSimilarity`.
  - The catalog loop in `classify`, which builds the similarity map and updates `maxSimilarity`/`bestMatch`.
- The `reduce` expressions (energy, mean, variance, the envelope mean and variance) are recursive functions over the prefix, so the last element is added last, as in a left fold.
- Samples, weights and similarities are exact `real`s.
- A raw feature value is `Num(x)` or `NaN`. `NaN` stands for the falsy non-numbers that `value || 0` replaces by 0.
- A feature record is a `map<Feature, real>`. A missing key models `undefined`, which `calculateSimilarity` tests for with `!== undefined`.
- The sample rate (`audioContext.sampleRate`) is a parameter that must be positive.
- `calculateBrightness` takes the linear magnitudes of the frequency snapshot as a parameter. They must be nonnegative.
- The catalog order is the insertion order of the `emotions` object, which `Object.entries` visits: happy, sad, angry, neutral, excited, anxious.

Two behaviours of the code to note:

- Brightness with a zero magnitude sum:
  - The code computes 0/0, which is `NaN`, and `normalizeFeatures` then turns it into 0.
  - The model returns `NaN` from `BrightnessOf`, and `NormalizeValue` maps `NaN` to 0, so the normalized brightness is 0.
- `normalizeFeatures` keeps exactly the keys of its input and adds no missing key as 0. It accepts any record. It only always yields all six keys because `extractFeatures` always passes all six.

## Model

| member | source | states |
|---|---|---|
| Signal.PopulationVariance | script.js:129-132 | the population variance (mean squared deviation from the mean) is never negative |
| Signal.ConstantVariance | script.js:129-132 | a buffer whose samples are all equal to c has mean c and variance 0 |
| Signal.SumOfPermutation | script.js:130-131 | a `reduce` sum depends only on the multiset of the elements |
| Signal.CountAdjacent | script.js:105-111 | counting adjacent-pair events over the first n samples gives at most n - 1 |
| Signal.CountAdjacentIsCardinality | script.js:105-111 | the loop count equals the number of indices i in [1, n) whose pair (x[i-1], x[i]) is an event |
| Signal.CountAdjacentNone | script.js:105-111 | no qualifying pair means a count of 0 |
| Features.NormalizeValue | script.js:175 | the result lies in [0, 1]; `NaN` becomes 0; a value in [0, 1] is unchanged; below 0 gives 0; above 1 gives 1 |
| Features.NormalizeFeatures | script.js:171-178 | the result has exactly the input's keys, each value is the clamp of the input's value, and all values lie in [0, 1] |
| FeatureExtractor.EnergyOf | script.js:99-101 | the mean absolute amplitude of a non-empty buffer is nonnegative |
| FeatureExtractor.EnergyAtMostOne | script.js:99-101 | samples in [-1, 1] give an energy of at most 1 |
| FeatureExtractor.PitchOf | script.js:112-113 | the zero-crossing rate crossings·sampleRate / (2N) lies in [0, sampleRate / 2) |
| FeatureExtractor.EstimatePitch | script.js:103-114 | the counting loop returns exactly `PitchOf` |
| FeatureExtractor.ZeroCrossingsExact | script.js:106-110 | the crossings are exactly the indices i in [1, N) where x[i] and x[i-1] lie on different sides of 0, with 0 counted as nonnegative |
| FeatureExtractor.ZeroCrossingsOneSide | script.js:103-114 | a buffer with all samples nonnegative, or all negative, has no crossings and pitch 0 |
| FeatureExtractor.PitchIsOrderDependent | script.js:106-110 | two orderings of the same samples give 1 and 3 crossings |
| FeatureExtractor.TempoOf | script.js:126 | the onset rate onsets / (N / sampleRate) lies in [0, sampleRate) |
| FeatureExtractor.EstimateTempo | script.js:116-127 | the counting loop with threshold 0.1 returns exactly `TempoOf` |
| FeatureExtractor.OnsetsExact | script.js:120-125 | the onsets are exactly the indices i in [1, N) with \|x[i]\| > 0.1 and \|x[i-1]\| <= 0.1 |
| FeatureExtractor.TempoIsOrderDependent | script.js:120-125 | two orderings of the same samples give 2 and 1 onsets |
| FeatureExtractor.IndexWeightedSumBounds | script.js:139-143 | Σ m[i]·i over nonnegative magnitudes lies between 0 and (n - 1)·Σ m[i] |
| FeatureExtractor.BrightnessOf | script.js:137-144 | the centroid divided by the bin count is `NaN` exactly when every magnitude is 0, and otherwise lies in [0, 1) |
| FeatureExtractor.CentroidBelowOne | script.js:144 | a weighted index sum in [0, (n - 1)·total], divided by total and then by n, lies in [0, 1) |
| FeatureExtractor.CalculateBrightness | script.js:137-144 | the accumulation loop over the magnitudes returns exactly `BrightnessOf` |
| FeatureExtractor.BinInBounds | script.js:151-155 | every envelope bin [i·s, (i+1)·s), where s = ⌊N / 100⌋, ends at or before 100·s, which is at most N |
| FeatureExtractor.BinMax | script.js:156-159 | the running max is nonnegative, at least every \|x[j]\| of the bin, and either 0 or one of them |
| FeatureExtractor.RhythmStabilityOf | script.js:164-168 | 1 - min(10·envelope variance, 1) lies in [0, 1] |
| FeatureExtractor.AnalyzeRhythmStability | script.js:147-169 | the nested loops fill the envelope array with the bin maxima, and the result is exactly `RhythmStabilityOf` |
| FeatureExtractor.ConstantEnvelopeIsStable | script.js:163-168 | a constant envelope gives stability 1 |
| FeatureExtractor.ShortBufferIsStable | script.js:151-168 | a buffer of fewer than 100 samples has empty bins, so the envelope is all 0 and the stability is 1 |
| FeatureExtractor.BinMaxAgree | script.js:156-159 | the max of a bin depends only on the samples inside the bin |
| FeatureExtractor.EnvelopeBinAgree | script.js:151-160 | an envelope bin depends only on the first 100·⌊N / 100⌋ samples |
| FeatureExtractor.RhythmStabilityIgnoresTail | script.js:151-168 | buffers of equal length that agree on their first 100·⌊N / 100⌋ samples have the same stability |
| FeatureExtractor.EnergyVariancePermutationInvariant | script.js:99-132 | a reordered buffer has the same energy and the same variance |
| FeatureExtractor.SilentBuffer | script.js:99-169 | an all-zero buffer has energy 0, no crossings and pitch 0, no onsets and tempo 0, variance 0 and stability 1 |
| FeatureExtractor.SilentBufferHasNoEvents | script.js:103-127 | an all-zero buffer has no zero crossings and no onsets |
| FeatureExtractor.SilentBufferIsStable | script.js:147-169 | an all-zero buffer has stability 1 |
| FeatureExtractor.ExtractFeatures | script.js:77-97 | no result exactly when the buffer is absent or empty; otherwise all six keys, each the clamp of its raw feature, all in [0, 1] |
| FeatureExtractor.NormalizationKeepsBoundedFeatures | script.js:84-92 | the clamp keeps stability and a numeric brightness as computed, turns a `NaN` brightness into 0, and keeps the energy as computed when the samples lie in [-1, 1] |
| FeatureExtractor.PitchSaturates | script.js:112-113 | at least two crossings per second of audio push the clamped pitch to 1 |
| FeatureExtractor.TempoSaturates | script.js:126 | at least one onset per second of audio pushes the clamped tempo to 1 |
| Profiles.Profile | script.js:16-65 | every profile has exactly the six keys, with values in [0, 1] |
| Profiles.WeightIndex | script.js:185-192 | every feature has an entry in the weight table, and its weight is positive |
| Profiles.CatalogIndex | script.js:16-65 | every emotion has a position in the catalog order |
| Profiles.ProfilesDifferInEnergy | script.js:16-65 | no two profiles share an energy value |
| Profiles.EmotionCount | script.js:16-65 | there are exactly as many emotions as catalog entries (six) |
| Classifier.CalculateSimilarity | script.js:235-248 | the weight loop returns exactly `Similarity`: the weighted sum of 1 - \|f - p\| over the keys both records define, divided by their weights, or 0 when no key is shared |
| Classifier.TermSymmetric | script.js:241 | each per-feature term is symmetric in the two records |
| Classifier.SumsSymmetric | script.js:239-245 | both accumulated sums are symmetric in the two records |
| Classifier.SimilaritySymmetric | script.js:235-248 | swapping the feature record and the profile leaves the similarity unchanged |
| Classifier.UsedWeightNonNegative | script.js:239-245 | the used weight is never negative |
| Classifier.UsedWeightPositive | script.js:239-245 | one shared key with a positive weight makes the used weight positive |
| Classifier.WeightedTermsAtMostUsed | script.js:239-245 | the weighted sum never exceeds the used weight, because every term is at most 1 |
| Classifier.WeightedTermsNonNegative | script.js:239-245 | nonnegative shared terms make the weighted sum nonnegative |
| Classifier.WeightedTermsEqualUsed | script.js:239-245 | shared terms that are all 1 make the weighted sum equal the used weight |
| Classifier.WeightedTermsBelowUsed | script.js:239-245 | one shared term below 1 with a positive weight makes the weighted sum strictly smaller than the used weight |
| Classifier.SimilarityAtMostOne | script.js:235-248 | the similarity is at most 1 for any two records |
| Classifier.SimilarityInUnitInterval | script.js:235-248 | two records with values in [0, 1] have a similarity in [0, 1] |
| Classifier.SimilarityNothingShared | script.js:247 | no shared weighted key gives similarity 0 |
| Classifier.NothingSharedNoWeight | script.js:240-243 | no shared key means no weight is used |
| Classifier.SimilarityOfSelf | script.js:235-248 | a record with at least one key has similarity 1 to itself |
| Classifier.SimilarityBelowOne | script.js:235-248 | two records that disagree on a shared key have similarity below 1 |
| Classifier.ScanCharacterization | script.js:206-218 | after k entries: one score per entry seen; a confidence that is the maximum of 0 and those scores; neutral when the confidence is 0; otherwise the first entry that reaches it, every earlier one scoring below |
| Classifier.CatalogComplete | script.js:16-65 | the catalog lists every emotion |
| Classifier.ScanComplete | script.js:206-224 | after the whole catalog, the score map has exactly the six emotions as keys; the confidence is the maximum of 0 and all scores; it is 0 exactly when no score is positive, and then the winner is neutral; otherwise the winner is the first entry that reaches the maximum |
| Classifier.ClassifyAbsent | script.js:196-203 | an absent feature record gives {neutral, 0, {}} |
| Classifier.ClassifyProperties | script.js:205-224 | a feature record gives one similarity per profile (six entries), each the profile's similarity; a confidence in [0, 1] that is the maximum of 0 and all similarities; 0 exactly when no similarity is positive, and then the emotion is neutral; otherwise the first profile in catalog order that reaches the maximum |
| Classifier.ClassifySimilaritiesInUnitInterval | script.js:211-212 | a feature record with values in [0, 1] gets every recorded similarity in [0, 1] |
| Classifier.ClassifyProfile | script.js:210-224 | classifying a profile itself selects that emotion with confidence 1 |
| Classifier.Classify | script.js:195-233 | the catalog loop returns exactly `ClassifyOf`: the sentinel for an absent record, otherwise the scan over the catalog |

## Left out

- The live analyser read `getFloatFrequencyData` (script.js:136) is a call into the browser. The dB-to-linear conversion `Math.pow(10, dB / 20)` (script.js:140) is transcendental. `CalculateBrightness` therefore receives the linear magnitudes as a parameter, and the bin count is the length of that sequence.
- The audio context is not modelled. The sample rate is a parameter, and the analyser's construction (script.js:69-75) is left out.
- Recording, decoding and audio set-up (`getUserMedia`, `MediaRecorder`, `decodeAudioData`, `initAudioProcessing`) are browser I/O with callbacks.
- The waveform drawing (`visualizeAudio`), the HTML rendering of results (`displayResults`) and the contact form's `fetch` are presentation or network code outside the analysis.
- IEEE-754 floats are out of scope:
  - rounding, infinities and NaN propagation beyond the `value || 0` rule of `normalizeFeatures`;
  - the `Float32Array` rounding of the envelope values;
  - exact reals replace all three.
- `console.error` logging has no effect on any result and is left out.
- The `try`/`catch` blocks (script.js:83-96, 205-232) are not modelled. No modelled operation can throw, so the only failure results are the explicit `null` paths, and those are `Option` values.
- The model has only the six feature keys. Extra keys would be carried by `normalizeFeatures` and ignored by `calculateSimilarity`, since the weight table lists only the six.
- `Signal.Mean`, `Signal.PopulationVariance`, `EnergyOf`, `PitchOf`, `TempoOf`, `EstimatePitch` and `EstimateTempo` require a non-empty buffer. This mirrors their callers: `extractFeatures` returns `null` for an empty buffer before any feature is computed (script.js:78-81), and the envelope that `analyzeRhythmStability` passes to the mean and variance always has 100 entries. On an empty buffer the source would divide 0 by 0.
- Classifier.SimilarityInUnitInterval: the similarity is a weighted mean of the shared terms, so it lies between their smallest and largest value. The model proves only three instances of that statement: the bounds [0, 1] (`SimilarityInUnitInterval`), the all-ones case (`SimilarityOfSelf`), and the strict upper bound 1 (`SimilarityBelowOne`). It does not state the mean for arbitrary bounds.
