/**
 Ranges: with total enabled weight W every coefficient lies in [0, 100 W], every total score in
 [0, 100 W] per replica, and both improvement percentages in [0, 100]; a validated goal list keeps W
 within a millionth of one.
 */
module ScoreBounds {
  import opened Prelude
  import opened OptimizerTypes
  import opened GoalScores
  import opened Objective
  import PlanMetrics

  function ActiveWeight(g: Goal): real { if Enabled(g) then g.weight else 0.0 }

  function TotalWeight(goals: seq<Goal>): real {
    if goals == [] then 0.0
    else TotalWeight(goals[..|goals| - 1]) + ActiveWeight(goals[|goals| - 1])
  }

  lemma PartInRange(ctx: PluginContext, s: Scoring, r: ReplicaKey, n: NodeId)
    requires Normalised(ctx, s)
    ensures 0.0 <= Coefficient(s.part, r, n) <= 100.0
  {
    if !NothingToScore(ctx) && r in s.part && n in s.part[r] {
      assert r in ctx.replicas && n in NodeIds(ctx.nodes);
    }
  }

  lemma ContributionInRange(g: Goal, part: Scores, r: ReplicaKey, n: NodeId)
    requires g.weight >= 0.0
    requires Enabled(g) && LinearKind(g.kind) ==> 0.0 <= Coefficient(part, r, n) <= 100.0
    ensures 0.0 <= Contribution(g, part, r, n) && 0.0 <= PenaltyShare(g)
    ensures Contribution(g, part, r, n) + 100.0 * PenaltyShare(g) <= 100.0 * ActiveWeight(g)
  {
    if Enabled(g) && LinearKind(g.kind) {
      var c := Coefficient(part, r, n);
      ScaledRange(g.weight, c);
      assert PenaltyShare(g) == 0.0;
      assert ActiveWeight(g) == g.weight;
      assert Contribution(g, part, r, n) == g.weight * c;
      assert g.weight * c <= 100.0 * g.weight;
      assert Contribution(g, part, r, n) <= 100.0 * ActiveWeight(g);
    }
  }

  lemma ScaledRange(w: real, c: real)
    requires w >= 0.0 && 0.0 <= c <= 100.0
    ensures 0.0 <= w * c <= 100.0 * w
  {
    assert w * (100.0 - c) >= 0.0;
  }

  lemma {:induction false} AggregateInRange(ctx: PluginContext, goals: seq<Goal>, ss: seq<Scoring>, r: ReplicaKey, n: NodeId)
    requires |ss| == |goals| && forall k :: 0 <= k < |goals| ==> goals[k].weight >= 0.0
    requires forall k :: 0 <= k < |goals| && Enabled(goals[k]) && LinearKind(goals[k].kind) ==> Normalised(ctx, ss[k])
    ensures 0.0 <= Aggregate(goals, Parts(ss), r, n) && 0.0 <= MigrationWeight(goals)
    ensures Aggregate(goals, Parts(ss), r, n) + 100.0 * MigrationWeight(goals) <= 100.0 * TotalWeight(goals)
  {
    if goals != [] {
      var k := |goals| - 1;
      AggregateInRange(ctx, goals[..k], ss[..k], r, n);
      assert Parts(ss)[..k] == Parts(ss[..k]);
      if Enabled(goals[k]) && LinearKind(goals[k].kind) {
        PartInRange(ctx, ss[k], r, n);
      }
      ContributionInRange(goals[k], ss[k].part, r, n);
    }
  }

  ghost predicate InRangeAt(scores: Scores, penalties: Penalties, bound: real, r: ReplicaKey, n: NodeId) {
    && 0.0 <= Coefficient(scores, r, n) && 0.0 <= PenaltyOf(penalties, r)
    && Coefficient(scores, r, n) + PenaltyOf(penalties, r) <= bound
  }

  /** Every score, alone and with the replica's migration penalty, lies in [0, bound]. */
  ghost predicate InRange(replicas: seq<ReplicaKey>, scores: Scores, penalties: Penalties, bound: real) {
    forall r, n :: r in replicas ==> InRangeAt(scores, penalties, bound, r, n)
  }

  /** With total enabled weight W, scores and penalties of a built objective stay in [0, 100 W]. */
  lemma ObjectiveInRange(inputs: ObjectiveInputs, ss: seq<Scoring>, o: Objective)
    requires ObjectiveOf(inputs.ctx, inputs.goals, ss, o)
    requires forall k :: 0 <= k < |inputs.goals| ==> Acceptable(inputs, inputs.goals[k])
    ensures InRange(inputs.ctx.replicas, o.scores, o.penalties, 100.0 * TotalWeight(inputs.goals))
  {
    var bound := 100.0 * TotalWeight(inputs.goals);
    forall r, n | r in inputs.ctx.replicas
      ensures InRangeAt(o.scores, o.penalties, bound, r, n)
    {
      AggregateInRange(inputs.ctx, inputs.goals, ss, r, n);
      if n in NodeIds(inputs.ctx.nodes) {
        assert Coefficient(o.scores, r, n) == Aggregate(inputs.goals, Parts(ss), r, n);
      }
    }
  }

  /** The coefficients the integer program minimises over candidate nodes stay in [0, 100 W] too. */
  lemma SolverCoefficientsInRange(inputs: ObjectiveInputs, ss: seq<Scoring>, o: Objective)
    requires ObjectiveOf(inputs.ctx, inputs.goals, ss, o)
    requires forall k :: 0 <= k < |inputs.goals| ==> Acceptable(inputs, inputs.goals[k])
    ensures var coeff := PlanMetrics.AdjustedScores(o.scores, o.penalties, inputs.ctx.current);
            forall r, n :: r in inputs.ctx.replicas && n in NodeIds(inputs.ctx.nodes) ==>
              0.0 <= Coefficient(coeff, r, n) <= 100.0 * TotalWeight(inputs.goals)
  {
    var coeff := PlanMetrics.AdjustedScores(o.scores, o.penalties, inputs.ctx.current);
    ObjectiveInRange(inputs, ss, o);
    forall r, n | r in inputs.ctx.replicas && n in NodeIds(inputs.ctx.nodes)
      ensures 0.0 <= Coefficient(coeff, r, n) <= 100.0 * TotalWeight(inputs.goals)
    {
      assert InRangeAt(o.scores, o.penalties, 100.0 * TotalWeight(inputs.goals), r, n);
      assert n in o.scores[r];
    }
  }

  /** What one replica adds to a plan's expected score. */
  function Share(scores: Scores, penalties: Penalties, current: Placement, expected: Placement, r: ReplicaKey): real {
    (if r in expected then Coefficient(scores, r, expected[r]) else 0.0) +
    (if PlanMetrics.MovesReplica(current, expected, r) then PenaltyOf(penalties, r) else 0.0)
  }

  lemma ExpectedStep(replicas: seq<ReplicaKey>, scores: Scores, penalties: Penalties, current: Placement, expected: Placement)
    requires replicas != []
    ensures PlanMetrics.ExpectedScore(replicas, scores, penalties, current, expected)
            == PlanMetrics.ExpectedScore(replicas[..|replicas| - 1], scores, penalties, current, expected)
               + Share(scores, penalties, current, expected, replicas[|replicas| - 1])
  {
    var rest, r := replicas[..|replicas| - 1], replicas[|replicas| - 1];
    if PlanMetrics.MovesReplica(current, expected, r) {
      var mv := PlanMetrics.MoveLite(r, current[r], expected[r]);
      PlanMetrics.PenaltiesAppend(PlanMetrics.MovesOf(rest, current, expected), [mv], penalties);
      PlanMetrics.OnePenalty(mv, penalties);
    } else {
      assert PlanMetrics.MovesOf(replicas, current, expected) == PlanMetrics.MovesOf(rest, current, expected);
    }
  }

  lemma ShareInRange(replicas: seq<ReplicaKey>, scores: Scores, penalties: Penalties,
                     current: Placement, expected: Placement, bound: real, r: ReplicaKey)
    requires InRange(replicas, scores, penalties, bound) && r in replicas
    ensures 0.0 <= Share(scores, penalties, current, expected, r) <= bound
  {
    var n := if r in expected then expected[r] else NodeId("", "");
    assert InRangeAt(scores, penalties, bound, r, n);
  }

  lemma {:induction false} ExpectedInRange(replicas: seq<ReplicaKey>, scores: Scores, penalties: Penalties,
                                           current: Placement, expected: Placement, bound: real)
    requires forall r :: r in replicas ==> 0.0 <= Share(scores, penalties, current, expected, r) <= bound
    ensures 0.0 <= PlanMetrics.ExpectedScore(replicas, scores, penalties, current, expected) <= Repeated(|replicas|, bound)
  {
    if replicas != [] {
      ExpectedInRange(replicas[..|replicas| - 1], scores, penalties, current, expected, bound);
      ExpectedStep(replicas, scores, penalties, current, expected);
    }
  }

  /** Both totals of any placements are at most 100 W per replica. */
  lemma ScoresInRange(inputs: ObjectiveInputs, ss: seq<Scoring>, o: Objective, bound: real, current: Placement, expected: Placement)
    requires ObjectiveOf(inputs.ctx, inputs.goals, ss, o) && bound == 100.0 * TotalWeight(inputs.goals)
    requires forall k :: 0 <= k < |inputs.goals| ==> Acceptable(inputs, inputs.goals[k])
    ensures 0.0 <= PlanMetrics.CurrentScore(inputs.ctx.replicas, o.scores, current) <= bound * |inputs.ctx.replicas| as real
    ensures 0.0 <= PlanMetrics.ExpectedScore(inputs.ctx.replicas, o.scores, o.penalties, current, expected)
            <= bound * |inputs.ctx.replicas| as real
  {
    ObjectiveInRange(inputs, ss, o);
    TotalsInRange(inputs.ctx.replicas, o.scores, o.penalties, current, expected, bound);
  }

  lemma PlanInRange(replicas: seq<ReplicaKey>, scores: Scores, penalties: Penalties,
                    current: Placement, expected: Placement, bound: real)
    ensures InRange(replicas, scores, penalties, bound) ==>
              0.0 <= PlanMetrics.ExpectedScore(replicas, scores, penalties, current, expected) <= bound * |replicas| as real
  {
    if InRange(replicas, scores, penalties, bound) {
      forall r | r in replicas ensures 0.0 <= Share(scores, penalties, current, expected, r) <= bound {
        ShareInRange(replicas, scores, penalties, current, expected, bound, r);
      }
      ExpectedInRange(replicas, scores, penalties, current, expected, bound);
      RepeatedIsProduct(|replicas|, bound);
    }
  }

  lemma TotalsInRange(replicas: seq<ReplicaKey>, scores: Scores, penalties: Penalties,
                      current: Placement, expected: Placement, bound: real)
    ensures InRange(replicas, scores, penalties, bound) ==>
              && 0.0 <= PlanMetrics.CurrentScore(replicas, scores, current) <= bound * |replicas| as real
              && 0.0 <= PlanMetrics.ExpectedScore(replicas, scores, penalties, current, expected) <= bound * |replicas| as real
  {
    PlanInRange(replicas, scores, penalties, current, expected, bound);
    PlanInRange(replicas, scores, penalties, current, current, bound);
    PlanMetrics.StayingCostsNothing(replicas, scores, penalties, current);
  }

  // ------------------------------------------------------------------ percentages

  const SMALLEST_DIVISOR := 0.000000001

  function Magnitude(v: real): real { if v < 0.0 then -v else v }

  function Larger(a: real, b: real): real { if a < b then b else a }

  /** The percentage the threshold gate compares. */
  function ThresholdPct(cur: real, exp: real): real {
    var delta := cur - exp;
    if delta <= 0.0 then 0.0
    else Larger(0.0, delta / Larger(Magnitude(cur), SMALLEST_DIVISOR) * 100.0)
  }

  /** The percentage the plan summary shows. */
  function SummaryPct(cur: real, exp: real): real {
    if cur > 0.0 then PlanMetrics.Clamped(cur - exp) * 100.0 / cur else 0.0
  }

  lemma FractionAtMostOne(a: real, b: real)
    requires 0.0 <= a <= b && b > 0.0
    ensures 0.0 <= a / b <= 1.0
  {
    var q := a / b;
    assert q * b == a;
    SignOfProduct(q, b);
    SignOfProduct(1.0 - q, b);
  }

  /** For scores that are not negative both percentages lie in [0, 100]. */
  lemma PercentagesInRange(cur: real, exp: real)
    requires cur >= 0.0 && exp >= 0.0
    ensures 0.0 <= ThresholdPct(cur, exp) <= 100.0 && 0.0 <= SummaryPct(cur, exp) <= 100.0
  {
    var gain := PlanMetrics.Clamped(cur - exp);
    if cur > 0.0 {
      FractionAtMostOne(gain, cur);
      assert gain * 100.0 / cur == gain / cur * 100.0;
      FractionAtMostOne(gain, Larger(cur, SMALLEST_DIVISOR));
    }
  }

  /** The gate and the summary show the same percentage exactly when nothing is gained or the current score
      is not below the gate's smallest divisor. */
  lemma PercentagesAgreeIff(cur: real, exp: real)
    requires cur >= 0.0 && exp >= 0.0
    ensures ThresholdPct(cur, exp) == SummaryPct(cur, exp) <==> cur <= exp || cur >= 0.000000001
  {
    if cur > exp {
      var delta := cur - exp;
      assert delta * 100.0 / cur == delta / cur * 100.0;
      SmallerDivisor(delta, cur, SMALLEST_DIVISOR);
      FractionAtMostOne(delta, Larger(cur, SMALLEST_DIVISOR));
    }
  }

  /** What both percentages are: nothing when nothing is gained; else the gain as a share of the current score, for the
      gate of its magnitude and of a billionth at least. */
  lemma PercentagesExactly(cur: real, exp: real)
    ensures cur <= exp ==> ThresholdPct(cur, exp) == 0.0 && SummaryPct(cur, exp) == 0.0
    ensures cur <= 0.0 ==> SummaryPct(cur, exp) == 0.0
    ensures exp < cur && cur > 0.0 ==> SummaryPct(cur, exp) * cur == 100.0 * (cur - exp)
    ensures exp < cur ==>
              ThresholdPct(cur, exp) * (if cur >= 0.000000001 then cur else if cur <= -0.000000001 then -cur else 0.000000001)
              == 100.0 * (cur - exp)
  {
    if exp < cur {
      var d := Larger(Magnitude(cur), SMALLEST_DIVISOR);
      var q := (cur - exp) / d;
      assert q * d == cur - exp;
      SignOfProduct(q, d);
      assert ThresholdPct(cur, exp) == q * 100.0;
      assert q * 100.0 * d == 100.0 * (q * d);
    }
  }

  lemma SmallerDivisor(a: real, b: real, c: real)
    requires a > 0.0 && b > 0.0 && c > 0.0
    ensures b < c ==> a / b > a / c
  {
    var p, q := a / b, a / c;
    assert p * b == a && q * c == a;
    if b < c {
      SignOfProduct(-q, c);
      assert q != 0.0;
      assert q * c - q * b == q * (c - b);
      assert q * (c - b) > 0.0;
      assert (q - p) * b < 0.0;
      SignOfProduct(p - q, b);
    }
  }

  // ------------------------------------------------------------------ validated weights

  const SUM_EPS := 0.000001

  function PositiveWeight(goals: seq<Goal>): real {
    if goals == [] then 0.0
    else
      PositiveWeight(goals[..|goals| - 1]) +
      (if goals[|goals| - 1].weight > 0.0 then goals[|goals| - 1].weight else 0.0)
  }

  /** What is checked of a policy; whether its rebalance point parses as a duration is an input. */
  datatype PolicySpec = PolicySpec(
    goals: seq<Goal>, periodic: bool, rebalancePoint: string, pointParses: bool, conservative: bool, threshold: int)

  datatype SpecProblem = InvalidGoalType | InvalidGoalWeights | InvalidRebalancePoint | InvalidThreshold

  predicate KnownTypes(spec: PolicySpec) {
    forall k :: 0 <= k < |spec.goals| ==> spec.goals[k].kind != OtherGoal
  }

  /** Positive weights add up to one, up to a millionth. */
  predicate WeightsAddUp(spec: PolicySpec) {
    spec.goals != [] ==> Magnitude(PositiveWeight(spec.goals) - 1.0) <= SUM_EPS
  }

  predicate Schedulable(spec: PolicySpec) {
    spec.periodic ==> spec.rebalancePoint != "" && spec.pointParses
  }

  predicate ThresholdOk(spec: PolicySpec) {
    spec.conservative ==> 0 <= spec.threshold <= 100
  }

  method SumPositive(goals: seq<Goal>) returns (sum: real)
    ensures sum == PositiveWeight(goals)
  {
    sum := 0.0;
    for i := 0 to |goals|
      invariant sum == PositiveWeight(goals[..i])
    {
      assert goals[..i + 1][..i] == goals[..i];
      if goals[i].weight > 0.0 {
        sum := sum + goals[i].weight;
      }
    }
    assert goals[..|goals|] == goals;
  }

  /** A policy is valid exactly when it passes all four checks; otherwise the first failing one is reported. */
  method ValidatePolicy(spec: PolicySpec) returns (problem: Option<SpecProblem>)
    ensures problem.None? <==> KnownTypes(spec) && WeightsAddUp(spec) && Schedulable(spec) && ThresholdOk(spec)
    ensures problem == Some(InvalidGoalType) <==> !KnownTypes(spec)
    ensures problem == Some(InvalidGoalWeights) <==> KnownTypes(spec) && !WeightsAddUp(spec)
    ensures problem == Some(InvalidRebalancePoint) <==> KnownTypes(spec) && WeightsAddUp(spec) && !Schedulable(spec)
  {
    for i := 0 to |spec.goals|
      invariant forall k :: 0 <= k < i ==> spec.goals[k].kind != OtherGoal
    {
      if spec.goals[i].kind == OtherGoal {
        return Some(InvalidGoalType);
      }
    }
    var sum := SumPositive(spec.goals);
    if |spec.goals| > 0 && Magnitude(sum - 1.0) > SUM_EPS {
      return Some(InvalidGoalWeights);
    }
    if spec.periodic {
      if spec.rebalancePoint == "" || !spec.pointParses {
        return Some(InvalidRebalancePoint);
      }
    }
    if spec.conservative && (spec.threshold < 0 || spec.threshold > 100) {
      return Some(InvalidThreshold);
    }
    return None;
  }

  lemma {:induction false} AcceptableWeights(inputs: ObjectiveInputs, goals: seq<Goal>)
    requires forall k :: 0 <= k < |goals| ==> Acceptable(inputs, goals[k])
    ensures PositiveWeight(goals) == TotalWeight(goals)
  {
    if goals != [] {
      AcceptableWeights(inputs, goals[..|goals| - 1]);
    }
  }

  /** The objective of a validated goal list has scores and penalties of at most 100.0001. */
  lemma ValidatedScoresInRange(spec: PolicySpec, inputs: ObjectiveInputs, ss: seq<Scoring>, o: Objective)
    requires inputs.goals == spec.goals != [] && WeightsAddUp(spec)
    requires ObjectiveOf(inputs.ctx, inputs.goals, ss, o)
    requires forall k :: 0 <= k < |inputs.goals| ==> Acceptable(inputs, inputs.goals[k])
    ensures 0.999999 <= TotalWeight(inputs.goals) <= 1.000001
    ensures InRange(inputs.ctx.replicas, o.scores, o.penalties, 100.0001)
  {
    AcceptableWeights(inputs, inputs.goals);
    ObjectiveInRange(inputs, ss, o);
    var bound := 100.0 * (1.0 + SUM_EPS);
    forall r, n | r in inputs.ctx.replicas ensures InRangeAt(o.scores, o.penalties, bound, r, n) {
      assert InRangeAt(o.scores, o.penalties, 100.0 * TotalWeight(inputs.goals), r, n);
    }
  }

  function PositivePart(): Goal -> real {
    (g: Goal) => if g.weight > 0.0 then g.weight else 0.0
  }

  lemma {:induction false} PositiveIsSum(goals: seq<Goal>)
    ensures PositiveWeight(goals) == RealSum(goals, PositivePart())
  {
    if goals != [] {
      PositiveIsSum(goals[..|goals| - 1]);
    }
  }

  /** What the four checks of a policy ask for. */
  lemma ChecksExactly(spec: PolicySpec)
    ensures KnownTypes(spec) <==>
            forall k :: 0 <= k < |spec.goals| ==> spec.goals[k].kind in {Cost, Latency, Communication, Energy, Migration}
    ensures WeightsAddUp(spec) <==> spec.goals == [] || 0.999999 <= RealSum(spec.goals, PositivePart()) <= 1.000001
    ensures Schedulable(spec) <==> !spec.periodic || (spec.rebalancePoint != "" && spec.pointParses)
    ensures ThresholdOk(spec) <==> !spec.conservative || 0 <= spec.threshold <= 100
  {
    PositiveIsSum(spec.goals);
    forall k | 0 <= k < |spec.goals|
      ensures spec.goals[k].kind in {Cost, Latency, Communication, Energy, Migration} <==> spec.goals[k].kind != OtherGoal
    {
      match spec.goals[k].kind
      case Cost =>
      case Latency =>
      case Communication =>
      case Energy =>
      case Migration =>
      case OtherGoal =>
    }
  }
}
