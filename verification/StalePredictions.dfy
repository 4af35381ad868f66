/**
 Observations that answer an old prediction, in `dharma_swarm/active_inference.py`:
 exactly when they carry a belief beyond the quality they report.
 */
module StalePredictions {
  import opened RealProducts
  import opened BeliefLearning
  import opened ActiveInference

  /** The mean went from one side of the quality to the other. */
  predicate Overshot(start: real, q: real, mean: real) { start < q < mean || mean < q < start }

  /** How far a unit of error moves the mean at a precision. */
  function Gain(r: Rule, p: real): real
    requires p != -1.0
  {
    r.rate * (p / (p + 1.0))
  }

  /** The precision after `n` observations. */
  function PrecisionAt(r: Rule, p: real, n: nat): real { if n == 0 then p else Sharpened(r, PrecisionAt(r, p, n - 1)) }

  lemma {:induction false} PrecisionAtIs(r: Rule, p: real, n: nat)
    requires 0.0 <= r.rate && r.floor <= p <= r.ceiling
    ensures PrecisionAt(r, p, n) == Min(p + Sum(n, r.rate), r.ceiling)
  {
    if n > 0 {
      PrecisionAtIs(r, p, n - 1);
      SumNotNegative(n - 1, r.rate);
    }
  }

  lemma {:induction false} PrecisionAtInBounds(r: Rule, p: real, n: nat)
    requires Tuned(r) && r.floor <= p <= r.ceiling
    ensures r.floor <= PrecisionAt(r, p, n) <= r.ceiling
  {
  }

  function GainOf(r: Rule): real -> real { (p: real) => if p == -1.0 then 0.0 else Gain(r, p) }

  function GainSum(g: real -> real, r: Rule, p: real, n: nat): real {
    if n == 0 then 0.0 else GainSum(g, r, p, n - 1) + g(PrecisionAt(r, p, n - 1))
  }

  /** The gains of `n` observations in a row, added up. */
  function StaleGain(r: Rule, p: real, n: nat): real { GainSum(GainOf(r), r, p, n) }

  // ---- one observation ---------------------------------------------------------------

  /** The source's pull is proportional to the error. */
  lemma {:induction false} PullIsGain(r: Rule, p: real, e: real)
    requires r.pull == Pull(r.rate) && 0.0 < p
    ensures r.pull(p, e) == Gain(r, p) * e
    ensures if 0.0 <= r.rate then 0.0 <= Gain(r, p) else Gain(r, p) <= 0.0
  {
    Regroup(r.rate, p / (p + 1.0), e);
    Weight(p, p / (p + 1.0));
    Signed(r.rate, p / (p + 1.0));
  }

  lemma {:induction false} Weight(p: real, w: real)
    requires 0.0 < p && w == p / (p + 1.0)
    ensures 0.0 < w
  {
    assert w * (p + 1.0) == p;
  }

  lemma {:induction false} Signed(x: real, w: real)
    requires 0.0 < w
    ensures if 0.0 <= x then 0.0 <= x * w else x * w <= 0.0
  {
    if 0.0 <= x { Scale(0.0, x, w); } else { Scale(x, 0.0, w); }
  }

  lemma {:induction false} Regroup(x: real, w: real, e: real)
    ensures x * (w * e) == x * w * e
  {
  }

  /** A move of `s` times a distance exceeds the distance exactly when `s` exceeds one. */
  lemma {:induction false} BeyondIff(s: real, d: real, x: real)
    requires x == s * d
    ensures 0.0 < d ==> (d < x <==> 1.0 < s)
    ensures d < 0.0 ==> (x < d <==> 1.0 < s)
  {
    assert (s - 1.0) * d == x - d;
  }

  /** A clamped move passes a quality that is not extreme exactly when it exceeds the distance. */
  lemma {:induction false} PassedIff(m: real, q: real, x: real, beyond: bool)
    requires 0.0 <= m <= 1.0 && 0.0 <= q <= 1.0
    requires (m < q ==> (q - m < x <==> beyond)) && (q < m ==> (x < q - m <==> beyond))
    ensures Overshot(m, q, Clamp01(m + x)) <==> beyond && m != q && 0.0 < q < 1.0
  {
  }

  /**
   One observation against any prediction passes the quality exactly when the gain times
   its error is more than the distance of the mean to the quality, and the quality is not extreme.
   */
  lemma {:induction false} OneStaleOvershootsIff(r: Rule, b: Belief, predicted: real, quality: real)
    requires r.pull == Pull(r.rate) && 0.0 <= b.mean <= 1.0 && 0.0 < b.precision
    ensures var q := Clamp01(quality); var move := Gain(r, b.precision) * (q - predicted);
            Overshot(b.mean, q, Learn(r, b, predicted, quality).mean) <==>
            0.0 < q < 1.0 && ((b.mean < q && q - b.mean < move) || (q < b.mean && move < q - b.mean))
  {
    var q := Clamp01(quality);
    var move := r.pull(b.precision, q - predicted);
    assert move == Gain(r, b.precision) * (q - predicted) by { PullIsGain(r, b.precision, q - predicted); }
    PassedIff(b.mean, q, move, if b.mean < q then q - b.mean < move else move < q - b.mean);
  }

  // ---- observations of one quality against one prediction ------------------------------------

  function Stale(predicted: real, quality: real, n: nat): seq<Observation> {
    seq(n, _ => Observation(predicted, quality))
  }

  /** The pulls of `n` equal errors in a row, added up. */
  function Drift(r: Rule, p: real, e: real, n: nat): real {
    if n == 0 then 0.0 else Drift(r, p, e, n - 1) + r.pull(PrecisionAt(r, p, n - 1), e)
  }

  /** All pulls of an error go the same way. */
  ghost predicate OneWay(r: Rule, e: real) {
    (forall p :: 0.0 < p ==> 0.0 <= r.pull(p, e)) || (forall p :: 0.0 < p ==> r.pull(p, e) <= 0.0)
  }

  lemma {:induction false} PullIsOneWay(r: Rule, e: real)
    requires r.pull == Pull(r.rate)
    ensures OneWay(r, e)
  {
    if (0.0 <= r.rate) == (0.0 <= e) {
      forall p | 0.0 < p ensures 0.0 <= r.pull(p, e) {
        PullIsGain(r, p, e);
        ProductSign(Gain(r, p), e);
      }
    } else {
      forall p | 0.0 < p ensures r.pull(p, e) <= 0.0 {
        PullIsGain(r, p, e);
        ProductSign(Gain(r, p), e);
      }
    }
  }

  lemma {:induction false} ProductSign(x: real, y: real)
    ensures 0.0 <= x && 0.0 <= y ==> 0.0 <= x * y
    ensures x <= 0.0 && y <= 0.0 ==> 0.0 <= x * y
    ensures 0.0 <= x && y <= 0.0 ==> x * y <= 0.0
    ensures x <= 0.0 && 0.0 <= y ==> x * y <= 0.0
  {
  }

  lemma {:induction false} DriftIsOneWay(r: Rule, p: real, e: real, n: nat)
    requires Tuned(r) && r.floor <= p <= r.ceiling && OneWay(r, e)
    ensures (forall p :: 0.0 < p ==> 0.0 <= r.pull(p, e)) ==> 0.0 <= Drift(r, p, e, n)
    ensures (forall p :: 0.0 < p ==> r.pull(p, e) <= 0.0) ==> Drift(r, p, e, n) <= 0.0
  {
    if n > 0 {
      DriftIsOneWay(r, p, e, n - 1);
      PrecisionAtInBounds(r, p, n - 1);
    }
  }

  lemma {:induction false} ClampOnce(m: real, x: real, y: real)
    requires 0.0 <= m <= 1.0 && ((0.0 <= x && 0.0 <= y) || (x <= 0.0 && y <= 0.0))
    ensures Clamp01(Clamp01(m + x) + y) == Clamp01(m + (x + y))
  {
  }

  /** Observations against the first prediction move the mean by the sum of their pulls. */
  lemma {:induction false} StaleMean(r: Rule, b: Belief, quality: real, n: nat)
    requires Tuned(r) && InBounds(r, b) && OneWay(r, Clamp01(quality) - b.mean)
    ensures var after := LearnAll(r, b, Stale(b.mean, quality, n));
            && after.precision == PrecisionAt(r, b.precision, n)
            && after.mean == Clamp01(b.mean + Drift(r, b.precision, Clamp01(quality) - b.mean, n))
  {
    if n > 0 {
      var e := Clamp01(quality) - b.mean;
      assert Stale(b.mean, quality, n)[..n - 1] == Stale(b.mean, quality, n - 1);
      StaleMean(r, b, quality, n - 1);
      DriftIsOneWay(r, b.precision, e, n - 1);
      PrecisionAtInBounds(r, b.precision, n - 1);
      ClampOnce(b.mean, Drift(r, b.precision, e, n - 1), r.pull(PrecisionAt(r, b.precision, n - 1), e));
    }
  }

  lemma {:induction false} DriftIsSum(g: real -> real, r: Rule, p: real, e: real, n: nat)
    requires Tuned(r) && r.floor <= p <= r.ceiling && forall p :: 0.0 < p ==> r.pull(p, e) == g(p) * e
    ensures Drift(r, p, e, n) == GainSum(g, r, p, n) * e
  {
    if n > 0 {
      var at := PrecisionAt(r, p, n - 1);
      DriftIsSum(g, r, p, e, n - 1);
      PrecisionAtInBounds(r, p, n - 1);
      AddUp(Drift(r, p, e, n - 1), r.pull(at, e), GainSum(g, r, p, n - 1), g(at), e);
    }
  }

  lemma {:induction false} AddUp(a: real, b: real, x: real, y: real, e: real)
    requires a == x * e && b == y * e
    ensures a + b == (x + y) * e
  {
  }

  lemma {:induction false} DriftBeyondIff(r: Rule, p: real, e: real, n: nat)
    requires Tuned(r) && r.floor <= p <= r.ceiling && r.pull == Pull(r.rate)
    ensures 0.0 < e ==> (e < Drift(r, p, e, n) <==> 1.0 < StaleGain(r, p, n))
    ensures e < 0.0 ==> (Drift(r, p, e, n) < e <==> 1.0 < StaleGain(r, p, n))
  {
    forall p | 0.0 < p ensures r.pull(p, e) == GainOf(r)(p) * e { PullIsGain(r, p, e); }
    DriftIsSum(GainOf(r), r, p, e, n);
    BeyondIff(StaleGain(r, p, n), e, Drift(r, p, e, n));
  }

  /**
   For any rule, belief and quality: n observations against the first prediction carry the
   mean past the quality if and only if their gains add up to more than one, and the
   quality is neither extreme nor what was predicted.
   */
  lemma {:induction false} StaleOvershootsIff(r: Rule, b: Belief, quality: real, n: nat)
    requires Tuned(r) && InBounds(r, b) && r.pull == Pull(r.rate)
    ensures var q := Clamp01(quality);
            Overshot(b.mean, q, LearnAll(r, b, Stale(b.mean, quality, n)).mean) <==>
            1.0 < StaleGain(r, b.precision, n) && b.mean != q && 0.0 < q < 1.0
  {
    var e := Clamp01(quality) - b.mean;
    PullIsOneWay(r, e);
    StaleMean(r, b, quality, n);
    var beyond, x := 1.0 < StaleGain(r, b.precision, n), Drift(r, b.precision, e, n);
    DriftBeyondIff(r, b.precision, e, n);
    PassedIff(b.mean, Clamp01(quality), x, beyond);
  }

  // ---- the rule of every new model --------------------------------------------------------------

  lemma {:induction false} NewPrecision(n: nat)
    requires n <= 16
    ensures PrecisionAt(NewRule, 1.0, n) == 1.0 + n as real * 0.1
  {
    PrecisionAtIs(NewRule, 1.0, n);
    SumIsProduct(n, 0.1);
  }

  /** The gains of a new model, in numbers. */
  function Total(n: nat): real {
    if n == 0 then 0.0 else Total(n - 1) + 0.1 * ((9 + n) as real / (19 + n) as real)
  }

  lemma {:induction false} GainIsTotal(n: nat)
    requires n <= 16
    ensures StaleGain(NewRule, 1.0, n) == Total(n)
  {
    if n > 0 {
      GainIsTotal(n - 1);
      NewPrecision(n - 1);
      Tenths((n - 1) as real);
    }
  }

  lemma {:induction false} Tenths(x: real)
    requires 0.0 <= x
    ensures (1.0 + x * 0.1) / (1.0 + x * 0.1 + 1.0) == (10.0 + x) / (20.0 + x)
  {
    var u, v := (1.0 + x * 0.1) / (1.0 + x * 0.1 + 1.0), (10.0 + x) / (20.0 + x);
    assert u * (20.0 + x) == 10.0 * (u * (1.0 + x * 0.1 + 1.0)) == 10.0 + x;
    assert v * (20.0 + x) == 10.0 + x;
    assert (u - v) * (20.0 + x) == 0.0;
  }

  lemma {:induction false} NewGainGrows(m: nat, n: nat)
    requires m <= n
    ensures StaleGain(NewRule, 1.0, m) <= StaleGain(NewRule, 1.0, n)
  {
    if m < n {
      NewGainGrows(m, n - 1);
      PrecisionAtInBounds(NewRule, 1.0, n - 1);
      PullIsGain(NewRule, PrecisionAt(NewRule, 1.0, n - 1), 0.0);
    }
  }

  lemma {:induction false} Totals()
    ensures Total(15) <= 1.0 < Total(16)
  {
  }

  /** Fifteen gains of a new model stay below one, sixteen do not. */
  lemma {:induction false} SixteenGains(n: nat)
    ensures 1.0 < StaleGain(NewRule, 1.0, n) <==> 16 <= n
  {
    Totals();
    ExceedsFrom(n, 15);
  }

  lemma {:induction false} ExceedsFrom(n: nat, k: nat)
    requires k < 16 && Total(k) <= 1.0 < Total(k + 1)
    ensures 1.0 < StaleGain(NewRule, 1.0, n) <==> k < n
  {
    GainIsTotal(k);
    GainIsTotal(k + 1);
    if n <= k { NewGainGrows(n, k); } else { NewGainGrows(k + 1, n); }
  }

  /** A prediction by a new agent, and `n` observations of one quality that all answer it. */
  function StaleOps(agent: string, taskType: string, quality: real, n: nat): seq<Op> {
    if n == 0 then [Predict(agent, taskType)]
    else StaleOps(agent, taskType, quality, n - 1) + [Observe(Prediction(agent, taskType, 0.5, 1.0), quality)]
  }

  lemma {:induction false} StaleObserved(agent: string, taskType: string, quality: real, n: nat)
    ensures Observed(StaleOps(agent, taskType, quality, n), agent, taskType) == Stale(0.5, quality, n)
  {
    var ops := StaleOps(agent, taskType, quality, n);
    if n == 0 {
      assert ops[..0] == [];
    } else {
      StaleObserved(agent, taskType, quality, n - 1);
      assert ops[..|ops| - 1] == StaleOps(agent, taskType, quality, n - 1);
      assert Stale(0.5, quality, n) == Stale(0.5, quality, n - 1) + [Observation(0.5, quality)];
    }
  }

  /**
   In the engine, with a new agent: n observations against the first prediction
   overshoot if and only if there are 16 or more.
   */
  lemma {:induction false} EngineOvershootsIff(agent: string, taskType: string, quality: real, n: nat)
    ensures WellFormed(map[])
    ensures var q := Clamp01(quality);
            Overshot(0.5, q, Held(Run(map[], StaleOps(agent, taskType, quality, n)), agent, taskType).mean) <==>
            16 <= n && q != 0.5 && 0.0 < q < 1.0
  {
    NothingIsWellFormed();
    BeliefsAreIndependent(map[], StaleOps(agent, taskType, quality, n), agent, taskType);
    StaleObserved(agent, taskType, quality, n);
    StaleOvershootsIff(NewRule, Unformed, quality, n);
    SixteenGains(n);
  }
}
