/**
 Configuration of the early-warning system as an immutable value: the five
 index weights, the alert threshold triple, and the two hysteresis tables
 giving the number of consecutive ticks a level change must be confirmed for.
 */
module Config {

  /** Alert levels in strict order green < yellow < orange < red. */
  datatype Level = Green | Yellow | Orange | Red

  /** Position of a level in the order green, yellow, orange, red. */
  function Rank(l: Level): nat
  {
    match l
    case Green => 0
    case Yellow => 1
    case Orange => 2
    case Red => 3
  }

  lemma RankInjective(a: Level, b: Level)
    ensures Rank(a) == Rank(b) <==> a == b
  {}

  /** Weights of the five indices in the composite risk. */
  datatype Weights = Weights(cai: real, cdi: real, thi: real, ti: real, ei: real)

  /** Inclusive lower bounds of the yellow, orange and red levels. */
  datatype Thresholds = Thresholds(yellow: real, orange: real, red: real)

  /** An ordered pair (from, to) of levels, the key of a hysteresis table. */
  type Transition = (Level, Level)

  datatype EwsConfig = EwsConfig(
    weights: Weights,
    thresholds: Thresholds,
    hysteresisUp: map<Transition, int>,
    hysteresisDown: map<Transition, int>)

  const DefaultWeights := Weights(0.18841, 0.22613, 0.12954, 0.21530, 0.24063)

  const DefaultThresholds := Thresholds(0.40, 0.60, 0.75)

  const DefaultUp: map<Transition, int> :=
    map[(Green, Yellow) := 2, (Yellow, Orange) := 2, (Orange, Red) := 1]

  const DefaultDown: map<Transition, int> :=
    map[(Red, Orange) := 2, (Orange, Yellow) := 2, (Yellow, Green) := 2]

  const DefaultConfig := EwsConfig(DefaultWeights, DefaultThresholds, DefaultUp, DefaultDown)

  /** Consecutive ticks a transition needs; a pair absent from the table,
      adjacent or not, needs a single tick. */
  function Required(table: map<Transition, int>, from: Level, to: Level): (n: int)
    ensures (from, to) in table ==> n == table[(from, to)]
    ensures (from, to) !in table ==> n == 1
  {
    if (from, to) in table then table[(from, to)] else 1
  }

  lemma RequiredDefaultsToOne(table: map<Transition, int>, from: Level, to: Level)
    requires (from, to) !in table
    ensures Required(table, from, to) == 1
  {}

  function WeightSum(w: Weights): real
  {
    w.cai + w.cdi + w.thi + w.ti + w.ei
  }

  /** The default weights do not sum to exactly one but to 1.00001. */
  lemma DefaultWeightSum()
    ensures WeightSum(DefaultWeights) == 1.00001
    ensures WeightSum(DefaultWeights) > 1.0
  {}

  /** No weight is negative. */
  predicate NonNegative(w: Weights)
  {
    0.0 <= w.cai && 0.0 <= w.cdi && 0.0 <= w.thi && 0.0 <= w.ti && 0.0 <= w.ei
  }

  predicate WeightsWellFormed(w: Weights)
  {
    && NonNegative(w)
    && 1.0 - 0.001 <= WeightSum(w) <= 1.0 + 0.001
  }

  predicate ThresholdsWellFormed(t: Thresholds)
  {
    0.0 < t.yellow < t.orange < t.red <= 1.0
  }

  predicate CountsPositive(table: map<Transition, int>)
  {
    forall k :: k in table ==> table[k] > 0
  }

  /** Well-formedness a caller may establish once at construction; the model
      of the engine itself does not depend on it. */
  predicate WellFormed(cfg: EwsConfig)
  {
    && WeightsWellFormed(cfg.weights)
    && ThresholdsWellFormed(cfg.thresholds)
    && CountsPositive(cfg.hysteresisUp)
    && CountsPositive(cfg.hysteresisDown)
  }

  lemma DefaultConfigWellFormed()
    ensures WellFormed(DefaultConfig)
  {}

  /** Under positive counts every transition needs at least one tick. */
  lemma RequiredPositive(table: map<Transition, int>, from: Level, to: Level)
    requires CountsPositive(table)
    ensures Required(table, from, to) >= 1
  {}
}
