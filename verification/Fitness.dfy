/**
 Fitness scores and their weights. Scores are reals; nothing in the original
 confines them to [0, 1].
 */
module Fitness {
  import opened OrderedDict

  datatype FitnessScore = FitnessScore(
    correctness: real, dharmicAlignment: real, swabhaavAlignment: real,
    performance: real, utilization: real, economicValue: real,
    elegance: real, efficiency: real, safety: real)

  /** The keys of a weight mapping: the nine dimensions, or a name that is none of them. */
  datatype Dimension =
    | Correctness | DharmicAlignment | SwabhaavAlignment | Performance | Utilization
    | EconomicValue | Elegance | Efficiency | Safety | Unknown(name: string)

  type Weights = Dict<Dimension, real>

  const DEFAULT_WEIGHTS: Weights := [
    (Correctness, 0.18), (DharmicAlignment, 0.13), (SwabhaavAlignment, 0.08),
    (Performance, 0.11), (Utilization, 0.11), (EconomicValue, 0.13),
    (Elegance, 0.10), (Efficiency, 0.10), (Safety, 0.06)]

  /** `getattr(self, name, 0.0)`. */
  function At(f: FitnessScore, d: Dimension): real {
    match d
    case Correctness => f.correctness
    case DharmicAlignment => f.dharmicAlignment
    case SwabhaavAlignment => f.swabhaavAlignment
    case Performance => f.performance
    case Utilization => f.utilization
    case EconomicValue => f.economicValue
    case Elegance => f.elegance
    case Efficiency => f.efficiency
    case Safety => f.safety
    case Unknown(_) => 0.0
  }

  /** `weighted` under the first `n` of some explicit weights. */
  function WeightedBy(f: FitnessScore, w: Weights, n: nat): real
    requires n <= |w|
  {
    if n == 0 then 0.0 else WeightedBy(f, w, n - 1) + At(f, w[n - 1].0) * w[n - 1].1
  }

  /** `weighted()` under the default weights. */
  function Weighted(f: FitnessScore): real {
    0.18 * f.correctness + 0.13 * f.dharmicAlignment + 0.08 * f.swabhaavAlignment
    + 0.11 * f.performance + 0.11 * f.utilization + 0.13 * f.economicValue
    + 0.10 * f.elegance + 0.10 * f.efficiency + 0.06 * f.safety
  }

  /** `Weighted` is `WeightedBy` under the default weight table. */
  lemma {:induction false} WeightedIsDefault(f: FitnessScore)
    ensures WeightedBy(f, DEFAULT_WEIGHTS, 9) == Weighted(f)
  {
    var w := DEFAULT_WEIGHTS;
    assert WeightedBy(f, w, 1) == f.correctness * 0.18;
    assert WeightedBy(f, w, 2) == WeightedBy(f, w, 1) + f.dharmicAlignment * 0.13;
    assert WeightedBy(f, w, 3) == WeightedBy(f, w, 2) + f.swabhaavAlignment * 0.08;
    assert WeightedBy(f, w, 4) == WeightedBy(f, w, 3) + f.performance * 0.11;
    assert WeightedBy(f, w, 5) == WeightedBy(f, w, 4) + f.utilization * 0.11;
    assert WeightedBy(f, w, 6) == WeightedBy(f, w, 5) + f.economicValue * 0.13;
    assert WeightedBy(f, w, 7) == WeightedBy(f, w, 6) + f.elegance * 0.10;
    assert WeightedBy(f, w, 8) == WeightedBy(f, w, 7) + f.efficiency * 0.10;
  }

  predicate OutOfUnit(x: real) { x < 0.0 || 1.0 < x }

  /** `_moves_archive_fitness`. */
  predicate Moves(f: FitnessScore) {
    || OutOfUnit(f.correctness) || OutOfUnit(f.dharmicAlignment) || OutOfUnit(f.swabhaavAlignment)
    || OutOfUnit(f.performance) || OutOfUnit(f.utilization) || OutOfUnit(f.economicValue)
    || OutOfUnit(f.elegance) || OutOfUnit(f.efficiency) || OutOfUnit(f.safety)
    || Weighted(f) != 0.0
  }

  const ZERO_FITNESS := FitnessScore(0.0, 0.0, 0.0, 0.0, 0.0, 0.0, 0.0, 0.0, 0.0)

  /**
   The guard lets a score through only when it is zero in every dimension: no
   positive part can hide behind a negative one, because negatives are caught first.
   */
  lemma {:induction false} OnlyZeroIsHarmless(f: FitnessScore)
    ensures !Moves(f) <==> f == ZERO_FITNESS
  {
    if !Moves(f) {
      assert Weighted(f) == 0.0;
    }
  }

  function Sum(w: Weights, n: nat): real
    requires n <= |w|
  {
    if n == 0 then 0.0 else Sum(w, n - 1) + w[n - 1].1
  }

  datatype WeightsResult = Ok(weights: Weights) | UnknownDimension | NegativeWeight | NoPositiveWeight

  predicate KnownOnly(w: Weights) { forall i :: 0 <= i < |w| ==> !w[i].0.Unknown? }

  predicate NonNegative(w: Weights) { forall i :: 0 <= i < |w| ==> 0.0 <= w[i].1 }

  /** The defaults overridden by the first `n` of the given weights. */
  function Merged(w: Weights, n: nat): Weights
    requires n <= |w|
  {
    if n == 0 then DEFAULT_WEIGHTS else Put(Merged(w, n - 1), w[n - 1].0, w[n - 1].1)
  }

  /**
   `normalize_fitness_weights` for a given mapping. Unknown names are rejected
   before any value is looked at. On success the mass is one, no weight is negative, and every weight
   is the merged one over the same positive total.
   */
  method NormalizeFitnessWeights(given: Weights) returns (r: WeightsResult)
    ensures r.UnknownDimension? <==> !KnownOnly(given)
    ensures r.NegativeWeight? <==> KnownOnly(given) && !NonNegative(given)
    ensures r.NoPositiveWeight? <==>
              KnownOnly(given) && NonNegative(given) && Sum(Merged(given, |given|), |Merged(given, |given|)|) <= 0.0
    ensures r.Ok? ==> Sum(r.weights, |r.weights|) == 1.0 && NonNegative(r.weights)
    ensures r.Ok? ==> SameRanking(r.weights, Merged(given, |given|))
  {
    if exists i :: 0 <= i < |given| && given[i].0.Unknown? {
      return UnknownDimension;
    }
    var merged := DEFAULT_WEIGHTS;
    DefaultsNonNegative();
    for i := 0 to |given|
      invariant merged == Merged(given, i) && NonNegative(merged)
      invariant forall j :: 0 <= j < i ==> 0.0 <= given[j].1
    {
      if given[i].1 < 0.0 {
        return NegativeWeight;
      }
      merged := Put(merged, given[i].0, given[i].1);
    }
    var total := 0.0;
    for i := 0 to |merged|
      invariant total == Sum(merged, i)
    {
      total := total + merged[i].1;
    }
    if total <= 0.0 {
      return NoPositiveWeight;
    }
    var scaled := DivideAll(merged, total);
    NormalizedLaws(merged, scaled, total);
    return Ok(scaled);
  }

  lemma {:induction false} DefaultsNonNegative()
    ensures NonNegative(DEFAULT_WEIGHTS)
  {
  }

  method DivideAll(w: Weights, t: real) returns (v: Weights)
    requires t != 0.0
    ensures IsScaled(w, v, t)
  {
    v := [];
    for i := 0 to |w|
      invariant |v| == i && forall j :: 0 <= j < i ==> v[j] == (w[j].0, w[j].1 / t)
    {
      v := v + [(w[i].0, w[i].1 / t)];
    }
  }

  /** Two weightings rank every pair of scores alike. */
  ghost predicate SameRanking(v: Weights, w: Weights) {
    forall f, g :: WeightedBy(f, v, |v|) < WeightedBy(g, v, |v|) <==> WeightedBy(f, w, |w|) < WeightedBy(g, w, |w|)
  }

  ghost predicate IsScaled(w: Weights, v: Weights, t: real)
    requires t != 0.0
  {
    |v| == |w| && forall i :: 0 <= i < |w| ==> v[i] == (w[i].0, w[i].1 / t)
  }

  lemma {:induction false} NormalizedLaws(w: Weights, v: Weights, t: real)
    requires 0.0 < t == Sum(w, |w|) && NonNegative(w) && IsScaled(w, v, t)
    ensures Sum(v, |v|) == 1.0 && NonNegative(v) && SameRanking(v, w)
  {
    ScaledSum(w, v, t, |w|);
    assert t / t == 1.0;
    forall i | 0 <= i < |v| ensures 0.0 <= v[i].1 {
      DivMonotone(w[i].1, 0.0, t);
    }
    forall f, g ensures WeightedBy(f, v, |v|) < WeightedBy(g, v, |v|) <==> WeightedBy(f, w, |w|) < WeightedBy(g, w, |w|)
    {
      ScaledWeighted(f, w, v, t, |w|);
      ScaledWeighted(g, w, v, t, |w|);
      DivMonotone(WeightedBy(f, w, |w|), WeightedBy(g, w, |w|), t);
    }
  }

  lemma {:induction false} DivAdd(a: real, b: real, t: real)
    requires t != 0.0
    ensures (a + b) / t == a / t + b / t
  {
    var x, y := a / t, b / t;
    assert x * t == a && y * t == b;
    assert (x + y) * t == a + b;
  }

  lemma {:induction false} DivMul(a: real, b: real, t: real)
    requires t != 0.0
    ensures a * (b / t) == (a * b) / t
  {
    var y := b / t;
    assert y * t == b;
    assert (a * y) * t == a * b;
  }

  lemma {:induction false} DivMonotone(a: real, b: real, t: real)
    requires 0.0 < t
    ensures a / t < b / t <==> a < b
  {
    var x, y := a / t, b / t;
    assert x * t == a && y * t == b;
    if x < y {
      assert x * t < y * t;
    } else {
      assert y * t <= x * t;
    }
  }

  lemma {:induction false} ScaledSum(w: Weights, v: Weights, t: real, n: nat)
    requires t != 0.0 && IsScaled(w, v, t) && n <= |w|
    ensures Sum(v, n) == Sum(w, n) / t
  {
    if n > 0 {
      ScaledSum(w, v, t, n - 1);
      DivAdd(Sum(w, n - 1), w[n - 1].1, t);
    }
  }

  lemma {:induction false} ScaledWeighted(f: FitnessScore, w: Weights, v: Weights, t: real, n: nat)
    requires t != 0.0 && IsScaled(w, v, t) && n <= |w|
    ensures WeightedBy(f, v, n) == WeightedBy(f, w, n) / t
  {
    if n > 0 {
      ScaledWeighted(f, w, v, t, n - 1);
      DivMul(At(f, w[n - 1].0), w[n - 1].1, t);
      DivAdd(WeightedBy(f, w, n - 1), At(f, w[n - 1].0) * w[n - 1].1, t);
    }
  }
}
