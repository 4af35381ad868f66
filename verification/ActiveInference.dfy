/**
 The engine of `dharma_swarm/active_inference.py`: predictions and observations of many
 agents on many task types, over whole runs.
 */
module ActiveInference {
  import opened BeliefLearning
  import opened RealProducts

  datatype Prediction = Prediction(agent: string, taskType: string, quality: real, precision: real)

  /** A generative model: beliefs by task type, and how they are learned. */
  datatype Model = Model(beliefs: map<string, Belief>, rule: Rule)

  type Models = map<string, Model>

  const NewModel: Model := Model(map[], NewRule)

  function ModelOf(s: Models, agent: string): Model { if agent in s then s[agent] else NewModel }
  function BeliefOf(m: Model, taskType: string): Belief {
    if taskType in m.beliefs then m.beliefs[taskType] else Unformed
  }
  function Held(s: Models, agent: string, taskType: string): Belief { BeliefOf(ModelOf(s, agent), taskType) }

  function WithBelief(s: Models, agent: string, taskType: string, b: Belief): Models {
    var m := ModelOf(s, agent);
    s[agent := m.(beliefs := m.beliefs[taskType := b])]
  }

  // ---- runs of the engine ------------------------------------------------------------

  datatype Op = Predict(agent: string, taskType: string) | Observe(prediction: Prediction, quality: real)

  function Step(s: Models, op: Op): Models {
    match op
    case Predict(a, t) => WithBelief(s, a, t, Held(s, a, t))
    case Observe(p, q) =>
      WithBelief(s, p.agent, p.taskType, Learn(ModelOf(s, p.agent).rule, Held(s, p.agent, p.taskType), p.quality, q))
  }

  ghost predicate Sound(s: Models, agent: string, taskType: string) {
    Tuned(ModelOf(s, agent).rule) && InBounds(ModelOf(s, agent).rule, Held(s, agent, taskType))
  }

  /** All models have workable precision bounds and all beliefs keep to them. */
  ghost predicate WellFormed(s: Models) { forall a, t :: Sound(s, a, t) }

  lemma {:induction false} StepKeepsSound(s: Models, op: Op, agent: string, taskType: string)
    requires Sound(s, agent, taskType)
    ensures Sound(Step(s, op), agent, taskType) && ModelOf(Step(s, op), agent).rule == ModelOf(s, agent).rule
  {
  }

  /** Every run keeps every mean in [0, 1] and every precision between floor and ceiling. */
  ghost function Run(s: Models, ops: seq<Op>): (r: Models)
    requires WellFormed(s)
    ensures WellFormed(r)
  {
    if ops == [] then s
    else
      var before, op := Run(s, ops[..|ops| - 1]), ops[|ops| - 1];
      assert WellFormed(Step(before, op)) by {
        forall a, t ensures Sound(Step(before, op), a, t) { StepKeepsSound(before, op, a, t); }
      }
      Step(before, op)
  }

  predicate Concerns(op: Op, agent: string, taskType: string) {
    op.Observe? && op.prediction.agent == agent && op.prediction.taskType == taskType
  }

  /** The observations a run makes of one agent on one task type. */
  function Observed(ops: seq<Op>, agent: string, taskType: string): seq<Observation> {
    if ops == [] then []
    else
      var o := ops[|ops| - 1];
      Observed(ops[..|ops| - 1], agent, taskType)
      + if Concerns(o, agent, taskType) then [Observation(o.prediction.quality, o.quality)] else []
  }

  /** One step, seen from one belief. */
  lemma {:induction false} StepSeen(s: Models, op: Op, agent: string, taskType: string)
    ensures ModelOf(Step(s, op), agent).rule == ModelOf(s, agent).rule
    ensures Concerns(op, agent, taskType) ==>
              Held(Step(s, op), agent, taskType)
              == Learn(ModelOf(s, agent).rule, Held(s, agent, taskType), op.prediction.quality, op.quality)
    ensures !Concerns(op, agent, taskType) ==> Held(Step(s, op), agent, taskType) == Held(s, agent, taskType)
  {
  }

  lemma {:induction false} LearnOneMore(r: Rule, b: Belief, os: seq<Observation>, o: Observation)
    requires Tuned(r) && InBounds(r, b)
    ensures LearnAll(r, b, os + [o]) == Learn(r, LearnAll(r, b, os), o.predicted, o.quality)
  {
    assert (os + [o])[..|os|] == os;
  }

  /**
   Beliefs do not interfere: after any run over any agents and task types, a belief is
   what its own observations alone make of it, predictions having no effect.
   */
  lemma {:induction false} BeliefsAreIndependent(s: Models, ops: seq<Op>, agent: string, taskType: string)
    requires WellFormed(s)
    ensures Sound(s, agent, taskType) && ModelOf(Run(s, ops), agent).rule == ModelOf(s, agent).rule
    ensures Held(Run(s, ops), agent, taskType)
            == LearnAll(ModelOf(s, agent).rule, Held(s, agent, taskType), Observed(ops, agent, taskType))
  {
    assert Sound(s, agent, taskType);
    if ops != [] {
      var init, op := ops[..|ops| - 1], ops[|ops| - 1];
      BeliefsAreIndependent(s, init, agent, taskType);
      StepSeen(Run(s, init), op, agent, taskType);
      var seen := Observed(init, agent, taskType);
      if Concerns(op, agent, taskType) {
        LearnOneMore(ModelOf(s, agent).rule, Held(s, agent, taskType), seen,
                     Observation(op.prediction.quality, op.quality));
      } else {
        assert Observed(ops, agent, taskType) == seen;
      }
    }
  }

  lemma {:induction false} NothingIsWellFormed()
    ensures WellFormed(map[])
  {
  }

  /** After every run from nothing, precision counts the observations and means are fractions. */
  lemma {:induction false} EveryRunIsBounded(ops: seq<Op>, agent: string, taskType: string)
    ensures WellFormed(map[])
    ensures var b := Held(Run(map[], ops), agent, taskType);
            && 0.0 <= b.mean <= 1.0
            && b.observations == |Observed(ops, agent, taskType)|
            && b.precision == Min(1.0 + b.observations as real * 0.1, 50.0)
  {
    NothingIsWellFormed();
    BeliefsAreIndependent(map[], ops, agent, taskType);
    PrecisionAfter(NewRule, Unformed, Observed(ops, agent, taskType));
    SumIsProduct(|Observed(ops, agent, taskType)|, 0.1);
  }

  /**
   Whatever else runs, if an agent's observations of a task type answer its predictions of
   the time and report one quality, its belief is drawn to that quality.
   */
  lemma {:induction false} RunConverges(ops: seq<Op>, agent: string, taskType: string, quality: real, n: nat)
    requires Observed(ops, agent, taskType) == Pairs(NewRule, Unformed, Repeat(quality, n))
    ensures WellFormed(map[])
    ensures Abs(Held(Run(map[], ops), agent, taskType).mean - Clamp01(quality))
              <= Geometric(Abs(0.5 - Clamp01(quality)), 0.95, n)
  {
    NothingIsWellFormed();
    BeliefsAreIndependent(map[], ops, agent, taskType);
    PracticeIsARun(NewRule, Unformed, Repeat(quality, n));
    BeliefConverges(NewRule, quality, n);
  }

  // ---- the objects ---------------------------------------------------------------------

  class GenerativeModel {
    var beliefs: map<string, Belief>
    var learningRate: real
    var minPrecision: real
    var maxPrecision: real

    constructor ()
      ensures View() == NewModel
    {
      beliefs, learningRate, minPrecision, maxPrecision := map[], 0.1, 0.1, 50.0;
    }

    ghost function View(): Model reads this {
      Model(beliefs, Rule(learningRate, minPrecision, maxPrecision, Pull(learningRate)))
    }

    /** `get_belief`: creates the default if absent. */
    method GetBelief(taskType: string) returns (b: Belief)
      modifies this`beliefs
      ensures b == BeliefOf(old(View()), taskType)
      ensures beliefs == old(beliefs)[taskType := b]
    {
      if taskType !in beliefs {
        beliefs := beliefs[taskType := Belief(0.5, 1.0, 0)];
      }
      b := beliefs[taskType];
    }

    /** The belief update of `observe`. */
    method Update(taskType: string, b: Belief, predicted: real, quality: real) returns (error: real)
      requires b.precision != -1.0
      modifies this`beliefs
      ensures error == Clamp01(quality) - predicted
      ensures beliefs == old(beliefs)[taskType := Learn(View().rule, b, predicted, quality)]
    {
      error := Clamp01(quality) - predicted;
      var weighted := b.precision / (b.precision + 1.0) * error;
      assert View().rule.pull(b.precision, error) == learningRate * weighted;
      var mean := Clamp01(b.mean + learningRate * weighted);
      var precision := Min(b.precision + 1.0 * learningRate, maxPrecision);
      precision := Max(precision, minPrecision);
      beliefs := beliefs[taskType := Belief(mean, precision, b.observations + 1)];
    }
  }

  class ActiveInferenceEngine {
    var models: map<string, GenerativeModel>

    constructor ()
      ensures Valid() && Snapshot() == map[]
    {
      models := map[];
    }

    /** No two agents share a model. */
    ghost predicate Valid() reads this {
      forall a, b :: a in models && b in models && a != b ==> models[a] != models[b]
    }

    ghost function Snapshot(): Models reads this, models.Values {
      map a | a in models :: models[a].View()
    }

    method GetModel(agent: string) returns (g: GenerativeModel)
      requires Valid()
      modifies this
      ensures Valid() && models == old(models)[agent := g]
      ensures if agent in old(models) then g == old(models)[agent] else fresh(g)
      ensures g.View() == ModelOf(old(Snapshot()), agent)
    {
      if agent !in models {
        var created := new GenerativeModel();
        models := models[agent := created];
      }
      g := models[agent];
    }

    /** Enough that one model changed, and how. */
    lemma {:induction false} SnapshotWith(s: Models, agent: string, taskType: string, b: Belief)
      requires models.Keys == s.Keys + {agent}
      requires agent in models && models[agent].View()
                 == ModelOf(s, agent).(beliefs := ModelOf(s, agent).beliefs[taskType := b])
      requires forall a :: a in models && a != agent ==> models[a].View() == s[a]
      ensures Snapshot() == WithBelief(s, agent, taskType, b)
    {
    }

    method Predict(agent: string, taskType: string) returns (p: Prediction)
      requires Valid()
      modifies this, models.Values
      ensures Valid() && fresh(models.Values - old(models.Values))
      ensures p == Prediction(agent, taskType, Held(old(Snapshot()), agent, taskType).mean,
                              Held(old(Snapshot()), agent, taskType).precision)
      ensures Snapshot() == Step(old(Snapshot()), Op.Predict(agent, taskType))
    {
      var g := GetModel(agent);
      var b := g.GetBelief(taskType);
      SnapshotWith(old(Snapshot()), agent, taskType, b);
      p := Prediction(agent, taskType, b.mean, b.precision);
    }

    /** `observe`: the error is against the prediction handed in, the update on the current belief. */
    method Observe(prediction: Prediction, quality: real) returns (error: real)
      requires Valid()
      requires Held(Snapshot(), prediction.agent, prediction.taskType).precision != -1.0
      modifies this, models.Values
      ensures Valid() && fresh(models.Values - old(models.Values))
      ensures error == Clamp01(quality) - prediction.quality
      ensures Snapshot() == Step(old(Snapshot()), Op.Observe(prediction, quality))
    {
      var g := GetModel(prediction.agent);
      var b := g.GetBelief(prediction.taskType);
      error := g.Update(prediction.taskType, b, prediction.quality, quality);
      SnapshotWith(old(Snapshot()), prediction.agent, prediction.taskType,
                   Learn(g.View().rule, b, prediction.quality, quality));
    }
  }
}
