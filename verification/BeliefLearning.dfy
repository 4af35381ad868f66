/**
 Belief learning of `dharma_swarm/active_inference.py`: what a run of observations,
 made against fresh or stale predictions, does to one belief. Numbers are reals.
 */
module BeliefLearning {
  import opened RealProducts

  datatype Belief = Belief(mean: real, precision: real, observations: nat)

  const Unformed: Belief := Belief(0.5, 1.0, 0)

  /**
   How a model learns: its rate, its precision bounds and the pull of an error on the
   mean at a precision. The source's pull is `Pull(rate)`; lemmas use less of it.
   */
  datatype Rule = Rule(rate: real, floor: real, ceiling: real, pull: (real, real) -> real)

  /** Learning rate times precision weight times error; at -1 the source divides by zero. */
  function Pull(rate: real): (real, real) -> real {
    (p: real, error: real) => if p == -1.0 then 0.0 else rate * (p / (p + 1.0) * error)
  }

  const NewRule: Rule := Rule(0.1, 0.1, 50.0, Pull(0.1))

  function Clamp01(v: real): real { Max(0.0, Min(1.0, v)) }
  function Min(a: real, b: real): real { if b < a then b else a }
  function Max(a: real, b: real): real { if b > a then b else a }
  function Abs(x: real): real { if x < 0.0 then -x else x }

  function Sharpened(r: Rule, precision: real): real { Max(Min(precision + 1.0 * r.rate, r.ceiling), r.floor) }

  /** The belief update of `observe`; nothing forces `predicted` to be the current mean. */
  function Learn(r: Rule, b: Belief, predicted: real, quality: real): Belief {
    Belief(Clamp01(b.mean + r.pull(b.precision, Clamp01(quality) - predicted)),
           Sharpened(r, b.precision),
           b.observations + 1)
  }

  /** Precision bounds that admit the precision a belief is born with. */
  predicate Tuned(r: Rule) { 0.0 < r.floor <= 1.0 <= r.ceiling }

  predicate InBounds(r: Rule, b: Belief) { 0.0 <= b.mean <= 1.0 && r.floor <= b.precision <= r.ceiling }

  // ---- observations against any predictions -------------------------------------------

  datatype Observation = Observation(predicted: real, quality: real)

  /** Means stay fractions and precisions within bounds, however stale the predictions. */
  function LearnAll(r: Rule, b: Belief, os: seq<Observation>): (c: Belief)
    requires Tuned(r) && InBounds(r, b)
    ensures InBounds(r, c) && c.observations == b.observations + |os|
  {
    if os == [] then b
    else Learn(r, LearnAll(r, b, os[..|os| - 1]), os[|os| - 1].predicted, os[|os| - 1].quality)
  }

  /** Precision depends on the number of observations alone, and never falls. */
  lemma {:induction false} PrecisionAfter(r: Rule, b: Belief, os: seq<Observation>)
    requires Tuned(r) && InBounds(r, b) && 0.0 <= r.rate
    ensures LearnAll(r, b, os).precision == Min(b.precision + Sum(|os|, r.rate), r.ceiling)
    ensures os != [] ==> LearnAll(r, b, os[..|os| - 1]).precision <= LearnAll(r, b, os).precision
  {
    if os != [] {
      PrecisionAfter(r, b, os[..|os| - 1]);
      SumNotNegative(|os| - 1, r.rate);
    }
  }

  // ---- pairs of a prediction and its observation ------------------------------------------

  /** A belief after predict and observe pairs: each observation answers the current mean. */
  function Practised(r: Rule, b: Belief, qs: seq<real>): (c: Belief)
    requires Tuned(r) && InBounds(r, b)
    ensures InBounds(r, c)
  {
    if qs == [] then b
    else
      var before := Practised(r, b, qs[..|qs| - 1]);
      Learn(r, before, before.mean, qs[|qs| - 1])
  }

  function Pairs(r: Rule, b: Belief, qs: seq<real>): (os: seq<Observation>)
    requires Tuned(r) && InBounds(r, b)
    ensures |os| == |qs|
  {
    if qs == [] then []
    else
      var init := qs[..|qs| - 1];
      Pairs(r, b, init) + [Observation(Practised(r, b, init).mean, qs[|qs| - 1])]
  }

  /** Practice is the run of observations whose predictions are the means of their time. */
  lemma {:induction false} PracticeIsARun(r: Rule, b: Belief, qs: seq<real>)
    requires Tuned(r) && InBounds(r, b)
    ensures LearnAll(r, b, Pairs(r, b, qs)) == Practised(r, b, qs)
  {
    if qs != [] {
      var init := qs[..|qs| - 1];
      PracticeIsARun(r, b, init);
      assert Pairs(r, b, qs)[..|qs| - 1] == Pairs(r, b, init);
    }
  }

  /**
   What is used of a pull: from precision one, of any difference of two errors a part
   between `fast` and `slow` remains, and nothing pulls where there is no error.
   */
  ghost predicate Leaves(r: Rule, fast: real, slow: real) {
    && 0.0 <= fast <= slow <= 1.0
    && (forall p :: r.pull(p, 0.0) == 0.0)
    && (forall p, d, e :: 1.0 <= p && d <= e ==> Part(e - d, (e - r.pull(p, e)) - (d - r.pull(p, d)), fast, slow))
  }

  ghost predicate Part(whole: real, part: real, fast: real, slow: real) {
    whole * fast <= part <= whole * slow
  }

  /** The source's pull leaves between 1 - rate and 1 - rate/2 of a difference. */
  lemma {:induction false} PullLeaves(r: Rule)
    requires 0.0 < r.rate <= 1.0 && r.pull == Pull(r.rate)
    ensures Leaves(r, 1.0 - r.rate, 1.0 - r.rate / 2.0)
  {
    forall p, d, e | 1.0 <= p && d <= e
      ensures Part(e - d, (e - r.pull(p, e)) - (d - r.pull(p, d)), 1.0 - r.rate, 1.0 - r.rate / 2.0)
    {
      PullLeft(r, p, d, e, p / (p + 1.0));
    }
  }

  lemma {:induction false} PullLeft(r: Rule, p: real, d: real, e: real, w: real)
    requires 0.0 < r.rate && 1.0 <= p && d <= e && w == p / (p + 1.0) && r.pull == Pull(r.rate)
    ensures Part(e - d, (e - r.pull(p, e)) - (d - r.pull(p, d)), 1.0 - r.rate, 1.0 - r.rate / 2.0)
  {
    assert r.pull(p, d) == r.rate * (w * d) && r.pull(p, e) == r.rate * (w * e);
    WeightBounds(p, w);
    Proportion(r.rate, w, d, e, r.pull(p, d), r.pull(p, e));
  }

  lemma {:induction false} WeightBounds(p: real, w: real)
    requires 1.0 <= p && w == p / (p + 1.0)
    ensures 0.5 <= w <= 1.0
  {
    assert w * (p + 1.0) == p;
  }

  lemma {:induction false} Proportion(rate: real, w: real, d: real, e: real, pullD: real, pullE: real)
    requires 0.0 < rate && 0.5 <= w <= 1.0 && d <= e && pullD == rate * (w * d) && pullE == rate * (w * e)
    ensures Part(e - d, (e - pullE) - (d - pullD), 1.0 - rate, 1.0 - rate / 2.0)
  {
    var size := rate * (e - d);
    assert 0.0 <= size;
    assert (e - pullE) - (d - pullD) == (e - d) - w * size;
    Scale(0.5, w, size);
    Scale(w, 1.0, size);
  }

  ghost predicate Ready(r: Rule, b: Belief) { Tuned(r) && 0.0 <= r.rate && InBounds(r, b) && 1.0 <= b.precision }

  lemma {:induction false} PractiseKeepsReady(r: Rule, b: Belief, qs: seq<real>)
    requires Ready(r, b)
    ensures Ready(r, Practised(r, b, qs))
  {
    if qs != [] { PractiseKeepsReady(r, b, qs[..|qs| - 1]); }
  }

  /** The pull has the sign of the error and never exceeds it. */
  lemma {:induction false} PullSmall(r: Rule, p: real, e: real, fast: real, slow: real)
    requires Leaves(r, fast, slow) && 1.0 <= p
    ensures 0.0 <= e ==> 0.0 <= r.pull(p, e) <= e
    ensures e <= 0.0 ==> e <= r.pull(p, e) <= 0.0
  {
    if 0.0 <= e {
      assert Part(e - 0.0, (e - r.pull(p, e)) - (0.0 - r.pull(p, 0.0)), fast, slow);
      PartIsSmaller(e, e - r.pull(p, e), fast, slow);
    } else {
      assert Part(0.0 - e, (0.0 - r.pull(p, 0.0)) - (e - r.pull(p, e)), fast, slow);
      PartIsSmaller(-e, r.pull(p, e) - e, fast, slow);
    }
  }

  lemma {:induction false} PartIsSmaller(whole: real, part: real, fast: real, slow: real)
    requires 0.0 <= whole && 0.0 <= fast <= slow <= 1.0 && Part(whole, part, fast, slow)
    ensures 0.0 <= part <= whole
  {
    Fraction(whole, whole, fast);
    Fraction(whole, whole, slow);
  }

  /** Against its own prediction, the new mean lies between the old mean and the quality. */
  lemma {:induction false} MeanMovesTowards(r: Rule, b: Belief, quality: real, fast: real, slow: real)
    requires Ready(r, b) && Leaves(r, fast, slow)
    ensures var q, next := Clamp01(quality), Learn(r, b, b.mean, quality).mean;
            && next == b.mean + r.pull(b.precision, q - b.mean)
            && (b.mean <= q ==> b.mean <= next <= q)
            && (q <= b.mean ==> q <= next <= b.mean)
  {
    PullSmall(r, b.precision, Clamp01(quality) - b.mean, fast, slow);
  }

  /** One practised observation of two beliefs. */
  lemma {:induction false} Approach(r: Rule, x: Belief, y: Belief, quality: real, fast: real, slow: real)
    requires Ready(r, x) && Ready(r, y) && x.precision == y.precision && x.mean <= y.mean && Leaves(r, fast, slow)
    ensures Part(y.mean - x.mean, Learn(r, y, y.mean, quality).mean - Learn(r, x, x.mean, quality).mean, fast, slow)
  {
    var q := Clamp01(quality);
    MeanMovesTowards(r, x, quality, fast, slow);
    MeanMovesTowards(r, y, quality, fast, slow);
    var d, e := q - y.mean, q - x.mean;
    assert Part(e - d, (e - r.pull(x.precision, e)) - (d - r.pull(x.precision, d)), fast, slow);
  }

  lemma {:induction false} GeometricStep(gap: real, n: nat, whole: real, part: real, fast: real, slow: real)
    requires 0.0 <= Geometric(gap, fast, n) <= whole <= Geometric(gap, slow, n)
    requires 0.0 <= fast <= slow && Part(whole, part, fast, slow)
    ensures Geometric(gap, fast, n + 1) <= part <= Geometric(gap, slow, n + 1)
  {
    Scale(Geometric(gap, fast, n), whole, fast);
    Scale(whole, Geometric(gap, slow, n), slow);
  }

  /**
   Practice forgets where it started: under any qualities, two beliefs of equal precision
   keep their order and approach each other by a factor between `fast` and `slow` a step.
   */
  lemma {:induction false} PracticeForgetsItsStart(r: Rule, b: Belief, c: Belief, qs: seq<real>, fast: real, slow: real)
    requires Ready(r, b) && Ready(r, c) && b.precision == c.precision && b.mean <= c.mean && Leaves(r, fast, slow)
    ensures Practised(r, b, qs).precision == Practised(r, c, qs).precision
    ensures Geometric(c.mean - b.mean, fast, |qs|)
            <= Practised(r, c, qs).mean - Practised(r, b, qs).mean
            <= Geometric(c.mean - b.mean, slow, |qs|)
  {
    if qs != [] {
      var init, n, gap := qs[..|qs| - 1], |qs| - 1, c.mean - b.mean;
      PracticeForgetsItsStart(r, b, c, init, fast, slow);
      PractiseKeepsReady(r, b, init);
      PractiseKeepsReady(r, c, init);
      ForgetMore(r, Practised(r, b, init), Practised(r, c, init), qs[n], gap, n, fast, slow);
    }
  }

  lemma {:induction false} ForgetMore(r: Rule, x: Belief, y: Belief, quality: real, gap: real, n: nat, fast: real,
                                      slow: real)
    requires Ready(r, x) && Ready(r, y) && x.precision == y.precision && Leaves(r, fast, slow) && 0.0 <= gap
    requires Geometric(gap, fast, n) <= y.mean - x.mean <= Geometric(gap, slow, n)
    ensures Geometric(gap, fast, n + 1)
            <= Learn(r, y, y.mean, quality).mean - Learn(r, x, x.mean, quality).mean
            <= Geometric(gap, slow, n + 1)
  {
    GeometricBounds(gap, fast, n);
    Approach(r, x, y, quality, fast, slow);
    GeometricStep(gap, n, y.mean - x.mean, Learn(r, y, y.mean, quality).mean - Learn(r, x, x.mean, quality).mean,
                  fast, slow);
  }

  function Repeat(q: real, n: nat): seq<real> { seq(n, _ => q) }

  /** A belief that is right about a constant quality stays right. */
  lemma {:induction false} RightStaysRight(r: Rule, b: Belief, q: real, n: nat)
    requires Ready(r, b) && b.mean == Clamp01(q) && forall p :: r.pull(p, 0.0) == 0.0
    ensures Practised(r, b, Repeat(q, n)).mean == Clamp01(q)
  {
    if n > 0 {
      assert Repeat(q, n)[..n - 1] == Repeat(q, n - 1);
      RightStaysRight(r, b, q, n - 1);
      PractiseKeepsReady(r, b, Repeat(q, n - 1));
    }
  }

  /**
   From an unformed belief, n practised observations of one quality never overshoot it
   and close the distance geometrically, no faster than 1 - rate a step.
   */
  lemma {:induction false} BeliefConverges(r: Rule, quality: real, n: nat)
    requires Tuned(r) && 0.0 < r.rate <= 1.0 && r.pull == Pull(r.rate)
    ensures var b := Practised(r, Unformed, Repeat(quality, n)); var q := Clamp01(quality);
            && (0.5 <= q ==> 0.5 <= b.mean <= q)
            && (q <= 0.5 ==> q <= b.mean <= 0.5)
            && Geometric(Abs(0.5 - q), 1.0 - r.rate, n) <= Abs(b.mean - q)
            && Abs(b.mean - q) <= Geometric(Abs(0.5 - q), 1.0 - r.rate / 2.0, n)
  {
    var q, qs := Clamp01(quality), Repeat(quality, n);
    var right := Unformed.(mean := q);
    var fast, slow := 1.0 - r.rate, 1.0 - r.rate / 2.0;
    PullLeaves(r);
    RightStaysRight(r, right, quality, n);
    GeometricBounds(Abs(0.5 - q), fast, n);
    GeometricBounds(Abs(0.5 - q), slow, n);
    if q <= 0.5 {
      PracticeForgetsItsStart(r, right, Unformed, qs, fast, slow);
    } else {
      PracticeForgetsItsStart(r, Unformed, right, qs, fast, slow);
    }
  }

  /** Practice leaves precision 1 + n * rate up to the ceiling. */
  lemma {:induction false} PractisedPrecision(r: Rule, qs: seq<real>)
    requires Tuned(r) && 0.0 <= r.rate
    ensures Practised(r, Unformed, qs).precision == Min(1.0 + |qs| as real * r.rate, r.ceiling)
  {
    SummedPrecision(r, qs);
    SumIsProduct(|qs|, r.rate);
  }

  lemma {:induction false} SummedPrecision(r: Rule, qs: seq<real>)
    requires Tuned(r) && 0.0 <= r.rate
    ensures Practised(r, Unformed, qs).precision == Min(1.0 + Sum(|qs|, r.rate), r.ceiling)
  {
    PracticeIsARun(r, Unformed, qs);
    PrecisionAfter(r, Unformed, Pairs(r, Unformed, qs));
  }
}
