/**
 * `EmotionClassifier`: a weighted, bounded L1 similarity between a feature
 * record and each profile, and a first-seen-wins arg-max over the catalog.
 */
module Classifier {
  import opened Wrappers
  import opened Signal
  import opened Features
  import opened Profiles

  // -------------------------------------------------------------- similarity

  /** The similarity of one feature, `1 - |f - p|`. */
  function Term(features: FeatureMap, profile: FeatureMap, k: Feature): real
    requires k in features && k in profile
  {
    1.0 - Abs(features[k] - profile[k])
  }

  /** Both records define the feature (neither value is `undefined`). */
  predicate Shared(features: FeatureMap, profile: FeatureMap, k: Feature)
  {
    k in features && k in profile
  }

  /** `totalWeight` after the weights `ws`: the weights of the shared features. */
  function UsedWeight(features: FeatureMap, profile: FeatureMap, ws: seq<(Feature, real)>): real
  {
    if ws == [] then 0.0
    else
      var (k, w) := ws[|ws| - 1];
      UsedWeight(features, profile, ws[..|ws| - 1]) + (if Shared(features, profile, k) then w else 0.0)
  }

  /** `weightedSimilarity` after the weights `ws`. */
  function WeightedTerms(features: FeatureMap, profile: FeatureMap, ws: seq<(Feature, real)>): real
  {
    if ws == [] then 0.0
    else
      var (k, w) := ws[|ws| - 1];
      WeightedTerms(features, profile, ws[..|ws| - 1])
        + (if Shared(features, profile, k) then Term(features, profile, k) * w else 0.0)
  }

  /**
   * The weighted mean of the per-feature similarities over the shared
   * weighted features, or 0 when no weighted feature is shared.
   */
  function Similarity(features: FeatureMap, profile: FeatureMap): real
  {
    var total := UsedWeight(features, profile, WEIGHTS);
    if total > 0.0 then WeightedTerms(features, profile, WEIGHTS) / total else 0.0
  }

  /** `calculateSimilarity`: accumulates both sums in one pass over the weights. */
  method CalculateSimilarity(features: FeatureMap, profile: FeatureMap) returns (r: real)
    ensures r == Similarity(features, profile)
  {
    var weightedSimilarity := 0.0;
    var totalWeight := 0.0;
    for i := 0 to |WEIGHTS|
      invariant weightedSimilarity == WeightedTerms(features, profile, WEIGHTS[..i])
      invariant totalWeight == UsedWeight(features, profile, WEIGHTS[..i])
    {
      var (feature, weight) := WEIGHTS[i];
      assert WEIGHTS[..i + 1][..i] == WEIGHTS[..i];
      if feature in features && feature in profile {
        var similarity := 1.0 - Abs(features[feature] - profile[feature]);
        weightedSimilarity := weightedSimilarity + similarity * weight;
        totalWeight := totalWeight + weight;
      }
    }
    assert WEIGHTS[..|WEIGHTS|] == WEIGHTS;
    r := if totalWeight > 0.0 then weightedSimilarity / totalWeight else 0.0;
  }

  ghost predicate NonNegativeWeights(ws: seq<(Feature, real)>)
  {
    forall j :: 0 <= j < |ws| ==> ws[j].1 >= 0.0
  }

  lemma {:induction false} SumsSymmetric(f: FeatureMap, p: FeatureMap, ws: seq<(Feature, real)>)
    ensures UsedWeight(f, p, ws) == UsedWeight(p, f, ws)
    ensures WeightedTerms(f, p, ws) == WeightedTerms(p, f, ws)
  {
    if ws != [] {
      SumsSymmetric(f, p, ws[..|ws| - 1]);
      var k := ws[|ws| - 1].0;
      if Shared(f, p, k) {
        TermSymmetric(f, p, k);
      }
    }
  }

  lemma TermSymmetric(f: FeatureMap, p: FeatureMap, k: Feature)
    requires Shared(f, p, k)
    ensures Term(f, p, k) == Term(p, f, k)
  {
    assert Abs(f[k] - p[k]) == Abs(p[k] - f[k]);
  }

  /** Swapping the two records leaves the similarity unchanged. */
  lemma SimilaritySymmetric(features: FeatureMap, profile: FeatureMap)
    ensures Similarity(features, profile) == Similarity(profile, features)
  {
    SumsSymmetric(features, profile, WEIGHTS);
  }

  lemma {:induction false} UsedWeightNonNegative(f: FeatureMap, p: FeatureMap, ws: seq<(Feature, real)>)
    requires NonNegativeWeights(ws)
    ensures UsedWeight(f, p, ws) >= 0.0
  {
    if ws != [] {
      PrefixNonNegative(ws);
      UsedWeightNonNegative(f, p, ws[..|ws| - 1]);
    }
  }

  lemma PrefixNonNegative(ws: seq<(Feature, real)>)
    requires NonNegativeWeights(ws) && ws != []
    ensures NonNegativeWeights(ws[..|ws| - 1])
  {
    var prefix := ws[..|ws| - 1];
    forall j | 0 <= j < |prefix| ensures prefix[j].1 >= 0.0 {
      assert prefix[j] == ws[j];
    }
  }

  /** Every term is at most 1, so the weighted sum is at most the used weight. */
  lemma {:induction false} WeightedTermsAtMostUsed(f: FeatureMap, p: FeatureMap, ws: seq<(Feature, real)>)
    requires NonNegativeWeights(ws)
    ensures WeightedTerms(f, p, ws) <= UsedWeight(f, p, ws)
  {
    if ws != [] {
      var prefix := ws[..|ws| - 1];
      PrefixNonNegative(ws);
      WeightedTermsAtMostUsed(f, p, prefix);
      var (k, w) := ws[|ws| - 1];
      if Shared(f, p, k) {
        assert UsedWeight(f, p, ws) == UsedWeight(f, p, prefix) + w;
        assert WeightedTerms(f, p, ws) == WeightedTerms(f, p, prefix) + Term(f, p, k) * w;
        StepAtMost(WeightedTerms(f, p, prefix), UsedWeight(f, p, prefix), Term(f, p, k), w);
      }
    }
  }

  /** Nonnegative shared terms make the weighted sum nonnegative. */
  lemma {:induction false} WeightedTermsNonNegative(f: FeatureMap, p: FeatureMap, ws: seq<(Feature, real)>)
    requires NonNegativeWeights(ws)
    requires forall k :: Shared(f, p, k) ==> 0.0 <= Term(f, p, k)
    ensures 0.0 <= WeightedTerms(f, p, ws)
  {
    if ws != [] {
      var prefix := ws[..|ws| - 1];
      PrefixNonNegative(ws);
      WeightedTermsNonNegative(f, p, prefix);
      var (k, w) := ws[|ws| - 1];
      if Shared(f, p, k) {
        assert WeightedTerms(f, p, ws) == WeightedTerms(f, p, prefix) + Term(f, p, k) * w;
        StepNonNegative(WeightedTerms(f, p, prefix), Term(f, p, k), w);
      } else {
        assert WeightedTerms(f, p, ws) == WeightedTerms(f, p, prefix);
      }
    }
  }

  /** Shared terms that are all 1 make the weighted sum the used weight. */
  lemma {:induction false} WeightedTermsEqualUsed(f: FeatureMap, p: FeatureMap, ws: seq<(Feature, real)>)
    requires forall k :: Shared(f, p, k) ==> Term(f, p, k) == 1.0
    ensures WeightedTerms(f, p, ws) == UsedWeight(f, p, ws)
  {
    if ws != [] {
      WeightedTermsEqualUsed(f, p, ws[..|ws| - 1]);
    }
  }

  lemma WeightsNonNegative()
    ensures NonNegativeWeights(WEIGHTS)
  {
  }

  /** A shared feature with a positive weight makes the used weight positive. */
  lemma {:induction false} UsedWeightPositive(f: FeatureMap, p: FeatureMap, ws: seq<(Feature, real)>, j: nat)
    requires NonNegativeWeights(ws)
    requires j < |ws| && ws[j].1 > 0.0 && Shared(f, p, ws[j].0)
    ensures UsedWeight(f, p, ws) > 0.0
  {
    var prefix := ws[..|ws| - 1];
    PrefixNonNegative(ws);
    if j < |ws| - 1 {
      assert prefix[j] == ws[j];
      UsedWeightPositive(f, p, prefix, j);
    } else {
      UsedWeightNonNegative(f, p, prefix);
    }
  }

  /** Every term is at most 1, so the similarity is at most 1. */
  lemma SimilarityAtMostOne(features: FeatureMap, profile: FeatureMap)
    ensures Similarity(features, profile) <= 1.0
  {
    WeightsNonNegative();
    WeightedTermsAtMostUsed(features, profile, WEIGHTS);
    var total := UsedWeight(features, profile, WEIGHTS);
    if total > 0.0 {
      DivMonotone(WeightedTerms(features, profile, WEIGHTS), total, total);
    }
  }

  /** Both records in the unit cube keep the similarity in [0, 1]. */
  lemma SimilarityInUnitInterval(features: FeatureMap, profile: FeatureMap)
    requires InUnitCube(features) && InUnitCube(profile)
    ensures 0.0 <= Similarity(features, profile) <= 1.0
  {
    SimilarityAtMostOne(features, profile);
    forall k | Shared(features, profile, k)
      ensures 0.0 <= Term(features, profile, k)
    {
      assert 0.0 <= features[k] <= 1.0 && 0.0 <= profile[k] <= 1.0;
    }
    WeightsNonNegative();
    WeightedTermsNonNegative(features, profile, WEIGHTS);
    var total := UsedWeight(features, profile, WEIGHTS);
    if total > 0.0 {
      DivMonotone(0.0, WeightedTerms(features, profile, WEIGHTS), total);
    }
  }

  /** No shared weighted feature makes the similarity 0. */
  lemma SimilarityNothingShared(features: FeatureMap, profile: FeatureMap)
    requires forall k :: !Shared(features, profile, k)
    ensures Similarity(features, profile) == 0.0
  {
    NothingSharedNoWeight(features, profile, WEIGHTS);
  }

  lemma {:induction false} NothingSharedNoWeight(f: FeatureMap, p: FeatureMap, ws: seq<(Feature, real)>)
    requires forall k :: !Shared(f, p, k)
    ensures UsedWeight(f, p, ws) == 0.0
  {
    if ws != [] {
      NothingSharedNoWeight(f, p, ws[..|ws| - 1]);
    }
  }

  /** A record compared with itself scores 1 once it holds a weighted feature. */
  lemma SimilarityOfSelf(profile: FeatureMap)
    requires exists k :: k in profile
    ensures Similarity(profile, profile) == 1.0
  {
    var k :| k in profile;
    assert Shared(profile, profile, k);
    forall k' | Shared(profile, profile, k')
      ensures Term(profile, profile, k') == 1.0
    {
      assert profile[k'] - profile[k'] == 0.0;
    }
    WeightsNonNegative();
    UsedWeightPositive(profile, profile, WEIGHTS, WeightIndex(k));
    WeightedTermsEqualUsed(profile, profile, WEIGHTS);
  }

  /** A shared term below 1 at an index of positive weight keeps the weighted sum below the used weight. */
  lemma {:induction false} WeightedTermsBelowUsed(f: FeatureMap, p: FeatureMap, ws: seq<(Feature, real)>, j: nat)
    requires NonNegativeWeights(ws)
    requires j < |ws| && ws[j].1 > 0.0 && Shared(f, p, ws[j].0) && Term(f, p, ws[j].0) < 1.0
    ensures WeightedTerms(f, p, ws) < UsedWeight(f, p, ws)
  {
    var prefix := ws[..|ws| - 1];
    PrefixNonNegative(ws);
    var (k, w) := ws[|ws| - 1];
    var sum, total := WeightedTerms(f, p, prefix), UsedWeight(f, p, prefix);
    if j < |ws| - 1 {
      assert prefix[j] == ws[j];
      WeightedTermsBelowUsed(f, p, prefix, j);
      if Shared(f, p, k) {
        assert UsedWeight(f, p, ws) == total + w;
        assert WeightedTerms(f, p, ws) == sum + Term(f, p, k) * w;
        StepKeepsBelow(sum, total, Term(f, p, k), w);
      } else {
        assert UsedWeight(f, p, ws) == total;
        assert WeightedTerms(f, p, ws) == sum;
      }
    } else {
      WeightedTermsAtMostUsed(f, p, prefix);
      assert UsedWeight(f, p, ws) == total + w;
      assert WeightedTerms(f, p, ws) == sum + Term(f, p, k) * w;
      StepGoesBelow(sum, total, Term(f, p, k), w);
    }
  }

  /** Two records that disagree on a shared feature score below 1. */
  lemma SimilarityBelowOne(features: FeatureMap, profile: FeatureMap, k: Feature)
    requires Shared(features, profile, k) && features[k] != profile[k]
    ensures Similarity(features, profile) < 1.0
  {
    WeightsNonNegative();
    var j := WeightIndex(k);
    UsedWeightPositive(features, profile, WEIGHTS, j);
    WeightedTermsBelowUsed(features, profile, WEIGHTS, j);
    DivBelowOne(WeightedTerms(features, profile, WEIGHTS), UsedWeight(features, profile, WEIGHTS));
  }

  // ---------------------------------------------------------- classification

  datatype Classification = Classification(emotion: Emotion, confidence: real, similarities: map<Emotion, real>)

  /**
   * The result for an absent feature record; it is also the state of the
   * arg-max before the first profile.
   */
  const FALLBACK: Classification := Classification(Neutral, 0.0, map[])

  /** The similarity of the features to each emotion's profile. */
  function SimilarityTo(features: FeatureMap): Emotion -> real
  {
    e => Similarity(features, Profile(e))
  }

  /**
   * The state of `classify`'s loop after the first k catalog entries, each
   * scored by `score`: an entry replaces the best match only when it scores
   * strictly higher, so ties go to the earlier entry.
   */
  function Scan(score: Emotion -> real, k: nat): Classification
    requires k <= |CATALOG|
  {
    if k == 0 then FALLBACK
    else
      var previous := Scan(score, k - 1);
      var emotion := CATALOG[k - 1];
      var similarities := previous.similarities[emotion := score(emotion)];
      if score(emotion) > previous.confidence then Classification(emotion, score(emotion), similarities)
      else previous.(similarities := similarities)
  }

  /** What `classify` returns. */
  function ClassifyOf(input: Option<FeatureMap>): Classification
  {
    match input
    case None => FALLBACK
    case Some(features) => Scan(SimilarityTo(features), |CATALOG|)
  }

  /**
   * r's emotion is an entry among the first k that scores r's confidence
   * while every earlier entry scores below it.
   */
  ghost predicate FirstBest(score: Emotion -> real, k: nat, r: Classification)
    requires k <= |CATALOG|
  {
    exists j :: 0 <= j < k && CATALOG[j] == r.emotion && score(CATALOG[j]) == r.confidence &&
      forall i :: 0 <= i < j ==> score(CATALOG[i]) < r.confidence
  }

  /**
   * After k entries: one score per entry seen, the confidence is the
   * maximum of 0 and those scores, and the emotion is the first entry that
   * reaches a positive maximum, otherwise neutral.
   */
  lemma {:induction false} ScanCharacterization(score: Emotion -> real, k: nat)
    requires k <= |CATALOG|
    ensures var r := Scan(score, k);
      && (forall e :: e in r.similarities <==> e in CATALOG[..k])
      && (forall e :: e in r.similarities ==> r.similarities[e] == score(e))
      && r.confidence >= 0.0
      && (forall j :: 0 <= j < k ==> score(CATALOG[j]) <= r.confidence)
      && (r.confidence == 0.0 ==> r.emotion == Neutral)
      && (r.confidence > 0.0 ==> FirstBest(score, k, r))
  {
    if k > 0 {
      ScanCharacterization(score, k - 1);
      var previous := Scan(score, k - 1);
      var r := Scan(score, k);
      var emotion := CATALOG[k - 1];
      assert CATALOG[..k] == CATALOG[..k - 1] + [emotion];
      if score(emotion) > previous.confidence {
        assert CATALOG[k - 1] == r.emotion && score(CATALOG[k - 1]) == r.confidence;
        assert forall i :: 0 <= i < k - 1 ==> score(CATALOG[i]) < r.confidence;
      } else if previous.confidence > 0.0 {
        var j :| 0 <= j < k - 1 && CATALOG[j] == previous.emotion && score(CATALOG[j]) == previous.confidence &&
          forall i :: 0 <= i < j ==> score(CATALOG[i]) < previous.confidence;
        assert CATALOG[j] == r.emotion && score(CATALOG[j]) == r.confidence;
      }
    }
  }

  /** The catalog holds every emotion. */
  lemma CatalogComplete()
    ensures forall e :: e in CATALOG
    ensures forall e :: e in ALL_EMOTIONS
  {
    forall e
      ensures e in CATALOG && e in ALL_EMOTIONS
    {
      var j := CatalogIndex(e);
      assert e.Happy? || e.Sad? || e.Angry? || e.Neutral? || e.Excited? || e.Anxious?;
    }
  }

  /**
   * The arg-max over the whole catalog: one score per emotion, a confidence
   * that is the maximum of 0 and all scores, 0 exactly when no score is
   * positive and then neutral, and otherwise the first entry reaching that
   * maximum.
   */
  lemma ScanComplete(score: Emotion -> real)
    ensures var r := Scan(score, |CATALOG|);
      && r.similarities.Keys == ALL_EMOTIONS
      && (forall e :: e in r.similarities ==> r.similarities[e] == score(e))
      && r.confidence >= 0.0
      && (forall e :: score(e) <= r.confidence)
      && (r.confidence == 0.0 <==> forall e :: score(e) <= 0.0)
      && (r.confidence == 0.0 ==> r.emotion == Neutral)
      && (r.confidence > 0.0 ==> FirstBest(score, |CATALOG|, r))
  {
    var r := Scan(score, |CATALOG|);
    ScanCharacterization(score, |CATALOG|);
    assert CATALOG[..|CATALOG|] == CATALOG;
    CatalogComplete();
    forall e
      ensures score(e) <= r.confidence
    {
      var j := CatalogIndex(e);
    }
  }

  /** `classify` of an absent record is the neutral sentinel with no similarities. */
  lemma ClassifyAbsent()
    ensures ClassifyOf(None) == FALLBACK
  {
  }

  /**
   * `classify` of a feature record: exactly one similarity per profile, a
   * confidence in [0, 1] that is the maximum of 0 and all similarities,
   * 0 exactly when no similarity is positive and then neutral, and
   * otherwise the first profile in catalog order that reaches the maximum.
   */
  lemma ClassifyProperties(features: FeatureMap)
    ensures ClassifyOf(Some(features)).similarities.Keys == ALL_EMOTIONS
    ensures |ClassifyOf(Some(features)).similarities| == |CATALOG|
    ensures forall e :: e in ClassifyOf(Some(features)).similarities ==>
              ClassifyOf(Some(features)).similarities[e] == Similarity(features, Profile(e))
    ensures 0.0 <= ClassifyOf(Some(features)).confidence <= 1.0
    ensures forall e :: Similarity(features, Profile(e)) <= ClassifyOf(Some(features)).confidence
    ensures ClassifyOf(Some(features)).confidence == 0.0 <==> forall e :: Similarity(features, Profile(e)) <= 0.0
    ensures ClassifyOf(Some(features)).confidence == 0.0 ==> ClassifyOf(Some(features)).emotion == Neutral
    ensures ClassifyOf(Some(features)).confidence > 0.0 ==>
              FirstBest(SimilarityTo(features), |CATALOG|, ClassifyOf(Some(features)))
  {
    var score := SimilarityTo(features);
    var r := ClassifyOf(Some(features));
    ScanComplete(score);
    EmotionCount();
    forall e
      ensures Similarity(features, Profile(e)) <= r.confidence
    {
      assert score(e) <= r.confidence;
    }
    if r.confidence > 0.0 {
      var j :| 0 <= j < |CATALOG| && CATALOG[j] == r.emotion && score(CATALOG[j]) == r.confidence &&
        forall i :: 0 <= i < j ==> score(CATALOG[i]) < r.confidence;
      SimilarityAtMostOne(features, Profile(CATALOG[j]));
    }
  }

  /** A feature record in the unit cube gets every similarity in [0, 1]. */
  lemma ClassifySimilaritiesInUnitInterval(features: FeatureMap)
    requires InUnitCube(features)
    ensures forall e :: e in ClassifyOf(Some(features)).similarities ==>
              0.0 <= ClassifyOf(Some(features)).similarities[e] <= 1.0
  {
    ClassifyProperties(features);
    forall e
      ensures 0.0 <= Similarity(features, Profile(e)) <= 1.0
    {
      SimilarityInUnitInterval(features, Profile(e));
    }
  }

  /** Classifying a profile itself yields that emotion with confidence 1. */
  lemma ClassifyProfile(e: Emotion)
    ensures ClassifyOf(Some(Profile(e))).emotion == e
    ensures ClassifyOf(Some(Profile(e))).confidence == 1.0
  {
    var features := Profile(e);
    var score := SimilarityTo(features);
    var r := ClassifyOf(Some(features));
    ClassifyProperties(features);
    assert Energy in features;
    SimilarityOfSelf(features);
    assert score(e) == 1.0;
    forall e' | e' != e
      ensures score(e') < 1.0
    {
      ProfilesDifferInEnergy(e, e');
      SimilarityBelowOne(features, Profile(e'), Energy);
    }
  }

  /** One step of the scan, the update `classify` makes for catalog entry i. */
  lemma ScanStep(score: Emotion -> real, i: nat)
    requires i < |CATALOG|
    ensures var previous := Scan(score, i);
      var emotion := CATALOG[i];
      var similarities := previous.similarities[emotion := score(emotion)];
      Scan(score, i + 1) ==
        if score(emotion) > previous.confidence then Classification(emotion, score(emotion), similarities)
        else previous.(similarities := similarities)
  {
  }

  /** `classify`: builds the similarity map and the arg-max in one pass over the catalog. */
  method Classify(features: Option<FeatureMap>) returns (result: Classification)
    ensures result == ClassifyOf(features)
  {
    if features.None? {
      return FALLBACK;
    }
    var f := features.value;
    var similarities: map<Emotion, real> := map[];
    var maxSimilarity := 0.0;
    var bestMatch := Neutral;
    for i := 0 to |CATALOG|
      invariant bestMatch == Scan(SimilarityTo(f), i).emotion
      invariant maxSimilarity == Scan(SimilarityTo(f), i).confidence
      invariant similarities == Scan(SimilarityTo(f), i).similarities
    {
      var emotion := CATALOG[i];
      var similarity := CalculateSimilarity(f, Profile(emotion));
      assert similarity == SimilarityTo(f)(emotion);
      ScanStep(SimilarityTo(f), i);
      similarities := similarities[emotion := similarity];
      if similarity > maxSimilarity {
        maxSimilarity := similarity;
        bestMatch := emotion;
      }
    }
    return Classification(bestMatch, maxSimilarity, similarities);
  }

}
