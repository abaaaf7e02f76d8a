/**
 * The fixed configuration of the classifier: the six emotion profiles of
 * the `emotions` table, in their insertion order, and the feature weights.
 */
module Profiles {
  import opened Features

  datatype Emotion = Happy | Sad | Angry | Neutral | Excited | Anxious

  /** The order in which `Object.entries(emotions)` visits the profiles. */
  const CATALOG: seq<Emotion> := [Happy, Sad, Angry, Neutral, Excited, Anxious]

  const ALL_EMOTIONS: set<Emotion> := {Happy, Sad, Angry, Neutral, Excited, Anxious}

  lemma EmotionCount()
    ensures |ALL_EMOTIONS| == |CATALOG|
  {
  }

  /** The reference record of each emotion: all six keys, every value in [0, 1]. */
  function Profile(e: Emotion): (p: FeatureMap)
    ensures p.Keys == ALL_FEATURES
    ensures InUnitCube(p)
  {
    match e
    case Happy =>
      map[Energy := 0.7, Pitch := 0.8, Tempo := 0.7, Variance := 0.6, Brightness := 0.8, RhythmStability := 0.7]
    case Sad =>
      map[Energy := 0.3, Pitch := 0.3, Tempo := 0.4, Variance := 0.3, Brightness := 0.3, RhythmStability := 0.5]
    case Angry =>
      map[Energy := 0.9, Pitch := 0.8, Tempo := 0.9, Variance := 0.8, Brightness := 0.7, RhythmStability := 0.3]
    case Neutral =>
      map[Energy := 0.5, Pitch := 0.5, Tempo := 0.5, Variance := 0.4, Brightness := 0.5, RhythmStability := 0.6]
    case Excited =>
      map[Energy := 0.8, Pitch := 0.9, Tempo := 0.8, Variance := 0.7, Brightness := 0.9, RhythmStability := 0.4]
    case Anxious =>
      map[Energy := 0.6, Pitch := 0.7, Tempo := 0.9, Variance := 0.8, Brightness := 0.6, RhythmStability := 0.3]
  }

  /** The `weights` table of `EmotionClassifier`, in its insertion order. */
  const WEIGHTS: seq<(Feature, real)> := [
    (Energy, 0.25), (Pitch, 0.2), (Tempo, 0.15), (Variance, 0.15), (Brightness, 0.15), (RhythmStability, 0.1)
  ]

  /** The position of a feature in `WEIGHTS`; every feature has a positive weight. */
  function WeightIndex(k: Feature): (j: nat)
    ensures j < |WEIGHTS| && WEIGHTS[j].0 == k && WEIGHTS[j].1 > 0.0
  {
    match k
    case Energy => 0
    case Pitch => 1
    case Tempo => 2
    case Variance => 3
    case Brightness => 4
    case RhythmStability => 5
  }

  /** The position of an emotion in `CATALOG`. */
  function CatalogIndex(e: Emotion): (j: nat)
    ensures j < |CATALOG| && CATALOG[j] == e
  {
    match e
    case Happy => 0
    case Sad => 1
    case Angry => 2
    case Neutral => 3
    case Excited => 4
    case Anxious => 5
  }

  /** No two profiles share an energy value, so any two differ on a weighted key. */
  lemma ProfilesDifferInEnergy(e: Emotion, e': Emotion)
    requires e != e'
    ensures Profile(e)[Energy] != Profile(e')[Energy]
  {
  }
}
