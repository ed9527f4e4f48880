/**
 End to end: from the goals of a policy through scores, integer program and plan to the figures users see.
 */
module PlacementPipeline {
  import opened Prelude
  import opened OptimizerTypes
  import opened GoalScores
  import opened Objective
  import opened ReadableMetrics
  import opened ScoreProportion
  import opened TwoBuilds
  import IlpModel
  import EncodingCorrect
  import PlanMetrics

  /** The integer program is built for the replicas, candidate nodes and current placement of the context. */
  ghost predicate Aligned(ctx: PluginContext, p: IlpModel.Problem) {
    && p.replicas == ctx.replicas && p.current == ctx.current
    && (forall n :: n in p.nodes <==> n in NodeIds(ctx.nodes))
    && EncodingCorrect.DistinctProblem(p)
  }

  /** A solution of the program for the coefficients the solver is given, least among all solutions. */
  ghost predicate OptimalFor(o: Objective, p: IlpModel.Problem, x: IlpModel.Solution) {
    PlanMetrics.Optimal(p, PlanMetrics.AdjustedScores(o.scores, o.penalties, p.current), x)
  }

  lemma BuiltCovers(ctx: PluginContext, goals: seq<Goal>, ss: seq<Scoring>, o: Objective, p: IlpModel.Problem)
    requires ObjectiveOf(ctx, goals, ss, o) && Aligned(ctx, p)
    ensures PlanMetrics.Covers(p, o.scores)
  {
  }

  /** As far as one build of the objective goes: the value the solver minimises is the expected score, and an
      optimal solution's expected score is least among all feasible placements. */
  lemma BuiltObjectiveAgrees(ctx: PluginContext, goals: seq<Goal>, ss: seq<Scoring>, o: Objective,
                             p: IlpModel.Problem, x: IlpModel.Solution)
    requires ObjectiveOf(ctx, goals, ss, o) && Aligned(ctx, p) && IlpModel.Solves(p, x)
    ensures var coeff := PlanMetrics.AdjustedScores(o.scores, o.penalties, p.current);
            IlpModel.Dot(IlpModel.ModelOf(p, Some(coeff)).objective, x)
            == PlanMetrics.ExpectedScore(p.replicas, o.scores, o.penalties, p.current, IlpModel.Decode(p, x))
    ensures OptimalFor(o, p, x) ==> LeastFor(o, p, x)
  {
    BuiltCovers(ctx, goals, ss, o, p);
    PlanMetrics.CoveredObjective(p, o.scores, o.penalties, x);
    if OptimalFor(o, p, x) {
      OptimalForOwn(o, p, x);
    }
  }

  // ------------------------------------------------------------------ the solver's build and the plan's build

  lemma SameAdjusted(x: Objective, y: Objective, current: Placement)
    requires SameObjective(x, y)
    ensures PlanMetrics.AdjustedScores(x.scores, x.penalties, current) == PlanMetrics.AdjustedScores(y.scores, y.penalties, current)
  {
    var p, q := PlanMetrics.AdjustedScores(x.scores, x.penalties, current), PlanMetrics.AdjustedScores(y.scores, y.penalties, current);
    forall r | r in p ensures q[r] == p[r] {
      assert PenaltyOf(x.penalties, r) == PenaltyOf(y.penalties, r);
    }
  }

  /** The solver is given one build of the objective and the plan is scored with another.  Under the condition,
      what the solver minimises is the expected score the plan shows, an optimum is least among all feasible
      placements as the plan scores them, and when the current placement is feasible it is no worse than
      staying, so that the improvement shown is the plain difference. */
  lemma TwoBuildsAgree(a: ObjectiveInputs, ss: seq<Scoring>, forSolver: Objective,
                       b: ObjectiveInputs, tt: seq<Scoring>, forPlan: Objective, p: IlpModel.Problem, x: IlpModel.Solution)
    requires Reordered(a, b) && OrderFreeGoals(a) && BuiltFrom(a, ss, forSolver) && BuiltFrom(b, tt, forPlan)
    requires Aligned(a.ctx, p) && IlpModel.Solves(p, x)
    ensures IlpModel.Dot(IlpModel.ModelOf(p, Some(PlanMetrics.AdjustedScores(forSolver.scores, forSolver.penalties, p.current))).objective, x)
            == PlanMetrics.ExpectedScore(p.replicas, forPlan.scores, forPlan.penalties, p.current, IlpModel.Decode(p, x))
    ensures OptimalFor(forSolver, p, x) ==> LeastFor(forPlan, p, x)
    ensures OptimalFor(forSolver, p, x) && IlpModel.Feasible(p, p.current) ==> NoWorse(forPlan, p, x)
  {
    BuildsAgree(a, b, ss, forSolver, tt, forPlan);
    BuiltCovers(b.ctx, b.goals, tt, forPlan, p);
    SameObjectiveCarries(forSolver, forPlan, p, x);
  }

  lemma SameObjectiveCarries(forSolver: Objective, forPlan: Objective, p: IlpModel.Problem, x: IlpModel.Solution)
    requires SameObjective(forSolver, forPlan) && PlanMetrics.Covers(p, forPlan.scores)
    requires EncodingCorrect.DistinctProblem(p) && IlpModel.Solves(p, x)
    ensures IlpModel.Dot(IlpModel.ModelOf(p, Some(PlanMetrics.AdjustedScores(forSolver.scores, forSolver.penalties, p.current))).objective, x)
            == PlanMetrics.ExpectedScore(p.replicas, forPlan.scores, forPlan.penalties, p.current, IlpModel.Decode(p, x))
    ensures OptimalFor(forSolver, p, x) ==> LeastFor(forPlan, p, x)
    ensures OptimalFor(forSolver, p, x) && IlpModel.Feasible(p, p.current) ==> NoWorse(forPlan, p, x)
  {
    SameAdjusted(forSolver, forPlan, p.current);
    PlanMetrics.CoveredObjective(p, forPlan.scores, forPlan.penalties, x);
    if OptimalFor(forSolver, p, x) {
      OptimalForOwn(forPlan, p, x);
    }
  }

  lemma OptimalForOwn(o: Objective, p: IlpModel.Problem, x: IlpModel.Solution)
    requires OptimalFor(o, p, x) && PlanMetrics.Covers(p, o.scores) && EncodingCorrect.DistinctProblem(p)
    ensures LeastFor(o, p, x) && (IlpModel.Feasible(p, p.current) ==> NoWorse(o, p, x))
  {
    forall b | IlpModel.Feasible(p, b)
      ensures PlanMetrics.ExpectedScore(p.replicas, o.scores, o.penalties, p.current, IlpModel.Decode(p, x))
              <= PlanMetrics.ExpectedScore(p.replicas, o.scores, o.penalties, p.current, b)
    {
      PlanMetrics.OptimalIsLeast(p, o.scores, o.penalties, x, b);
    }
    if IlpModel.Feasible(p, p.current) {
      PlanMetrics.OptimalNeverWorse(p, o.scores, o.penalties, x);
    }
  }

  /** No feasible placement has a smaller expected score than the solution. */
  ghost predicate LeastFor(o: Objective, p: IlpModel.Problem, x: IlpModel.Solution) {
    forall b :: IlpModel.Feasible(p, b) ==>
      PlanMetrics.ExpectedScore(p.replicas, o.scores, o.penalties, p.current, IlpModel.Decode(p, x))
      <= PlanMetrics.ExpectedScore(p.replicas, o.scores, o.penalties, p.current, b)
  }

  /** The solution's expected score does not exceed the current one, so clamping the improvement hides nothing. */
  ghost predicate NoWorse(o: Objective, p: IlpModel.Problem, x: IlpModel.Solution) {
    var cur := PlanMetrics.CurrentScore(p.replicas, o.scores, p.current);
    var exp := PlanMetrics.ExpectedScore(p.replicas, o.scores, o.penalties, p.current, IlpModel.Decode(p, x));
    exp <= cur && PlanMetrics.Clamped(cur - exp) == cur - exp
  }

  // ------------------------------------------------------------------ one goal, and the figure users see

  lemma FreeScore(ctx: PluginContext, o: Objective, a: Placement)
    requires MovesAreFree(ctx, o.penalties)
    ensures PlanMetrics.ExpectedScore(ctx.replicas, o.scores, o.penalties, ctx.current, a)
            == PlanMetrics.ScoreSum(ctx.replicas, o.scores, a)
  {
    NoPenalties(ctx.replicas, o.penalties, ctx.current, a);
  }

  /** The placement with the smaller score has the smaller raw total. */
  lemma SmallerTotal(s: real, t: real, d: real, k: real, u: real, v: real, m: real)
    requires Proportional(s, d, k, u, m) && Proportional(t, d, k, v, m) && s <= t && d >= 0.0 && k > 0.0
    ensures u <= v
  {
    assert (t - s) * d >= 0.0;
    assert k * (v - m) - k * (u - m) == k * (v - u);
    SignOfProduct(v - u, k);
  }

  lemma RangeOf(ctx: PluginContext, g: Goal, ss: seq<Scoring>, o: Objective)
    requires Enabled(g) && LinearKind(g.kind) && ObjectiveOf(ctx, [g], ss, o) && !NothingToScore(ctx)
    ensures ss[0].lo <= ss[0].hi
  {
    SingleIsNormalised(ctx, g, ss, o);
    assert ctx.replicas[0] in ctx.replicas && NodeIds(ctx.nodes)[0] in NodeIds(ctx.nodes);
    NormalisedPair(ctx, ss[0], ctx.replicas[0], NodeIds(ctx.nodes)[0]);
  }

  lemma AffineFollows(ctx: PluginContext, g: Goal, ss: seq<Scoring>, o: Objective, a: Placement, b: Placement)
    requires |ss| == 1 && TotalOn(ctx, a) && TotalOn(ctx, b) && g.weight > 0.0 && ss[0].lo <= ss[0].hi
    requires AffinePairs(ctx, o.scores, ss[0].raw, ss[0].hi - ss[0].lo, 100.0 * g.weight, ss[0].lo)
    requires PlanMetrics.ScoreSum(ctx.replicas, o.scores, a) <= PlanMetrics.ScoreSum(ctx.replicas, o.scores, b)
    ensures PlanMetrics.ScoreSum(ctx.replicas, ss[0].raw, a) <= PlanMetrics.ScoreSum(ctx.replicas, ss[0].raw, b)
  {
    PlacementIsAffine(ctx, o.scores, ss[0].raw, ss[0].hi - ss[0].lo, 100.0 * g.weight, ss[0].lo, a);
    PlacementIsAffine(ctx, o.scores, ss[0].raw, ss[0].hi - ss[0].lo, 100.0 * g.weight, ss[0].lo, b);
    SmallerTotal(PlanMetrics.ScoreSum(ctx.replicas, o.scores, a), PlanMetrics.ScoreSum(ctx.replicas, o.scores, b),
                 ss[0].hi - ss[0].lo, 100.0 * g.weight, PlanMetrics.ScoreSum(ctx.replicas, ss[0].raw, a),
                 PlanMetrics.ScoreSum(ctx.replicas, ss[0].raw, b), Repeated(|ctx.replicas|, ss[0].lo));
  }

  /** Under a single linear goal, the smaller of two scores belongs to the smaller raw total. */
  lemma RawFollowsScore(ctx: PluginContext, g: Goal, ss: seq<Scoring>, o: Objective, a: Placement, b: Placement)
    requires g.weight > 0.0 && LinearKind(g.kind) && ObjectiveOf(ctx, [g], ss, o) && !NothingToScore(ctx)
    requires TotalOn(ctx, a) && TotalOn(ctx, b)
    requires PlanMetrics.ScoreSum(ctx.replicas, o.scores, a) <= PlanMetrics.ScoreSum(ctx.replicas, o.scores, b)
    ensures PlanMetrics.ScoreSum(ctx.replicas, ss[0].raw, a) <= PlanMetrics.ScoreSum(ctx.replicas, ss[0].raw, b)
  {
    RangeOf(ctx, g, ss, o);
    SingleGoalShape(ctx, g, ss, o);
    AffineFollows(ctx, g, ss, o, a, b);
  }

  /** The score of an optimal placement is least when moves are free. */
  lemma OptimalScoreIsLeast(ctx: PluginContext, g: Goal, ss: seq<Scoring>, o: Objective,
                            p: IlpModel.Problem, x: IlpModel.Solution, b: Placement)
    requires Enabled(g) && LinearKind(g.kind) && ObjectiveOf(ctx, [g], ss, o)
    requires Aligned(ctx, p) && OptimalFor(o, p, x) && IlpModel.Feasible(p, b)
    ensures TotalOn(ctx, IlpModel.Decode(p, x)) && TotalOn(ctx, b)
    ensures PlanMetrics.ScoreSum(ctx.replicas, o.scores, IlpModel.Decode(p, x)) <= PlanMetrics.ScoreSum(ctx.replicas, o.scores, b)
  {
    EncodingCorrect.EncodingIsSound(p, x);
    BuiltObjectiveAgrees(ctx, [g], ss, o, p, x);
    SingleGoalMovesFreely(ctx, g, ss, o);
    FreeScore(ctx, o, IlpModel.Decode(p, x));
    FreeScore(ctx, o, b);
  }

  /** What users are shown for a placement: the total price or watts, or the average latency. */
  ghost function Shown(inputs: ObjectiveInputs, g: Goal, a: Placement): real
    requires AllValued(inputs, g, inputs.ctx.nodes)
  {
    if g.kind == Latency then LatencyAverage(inputs, g, a) else UnitSum(inputs, g, ValuesOf(inputs, g, inputs.ctx.nodes), a)
  }

  lemma ShownFollowsRaw(inputs: ObjectiveInputs, g: Goal, ss: seq<Scoring>, o: Objective, a: Placement, b: Placement)
    requires BuiltFor(inputs, g, ss, o) && g.kind in {Cost, Energy, Latency} && (g.kind == Latency ==> RegionsAgree(inputs))
    requires TotalOn(inputs.ctx, a) && TotalOn(inputs.ctx, b)
    requires PlanMetrics.ScoreSum(inputs.ctx.replicas, ss[0].raw, a) <= PlanMetrics.ScoreSum(inputs.ctx.replicas, ss[0].raw, b)
    ensures AllValued(inputs, g, inputs.ctx.nodes) && Shown(inputs, g, a) <= Shown(inputs, g, b)
  {
    SingleGoalUnits(inputs, g, ss, o);
    if g.kind == Latency {
      AverageOfRaw(inputs, g, ss[0].raw, a);
      AverageOfRaw(inputs, g, ss[0].raw, b);
      AverageGrows(PlanMetrics.ScoreSum(inputs.ctx.replicas, ss[0].raw, a), PlanMetrics.ScoreSum(inputs.ctx.replicas, ss[0].raw, b),
                   |inputs.ctx.replicas|);
    } else {
      SameSums(inputs.ctx, UnitMatrix(inputs, g, ValuesOf(inputs, g, inputs.ctx.nodes)), ss[0].raw, a, inputs.ctx.replicas);
      SameSums(inputs.ctx, UnitMatrix(inputs, g, ValuesOf(inputs, g, inputs.ctx.nodes)), ss[0].raw, b, inputs.ctx.replicas);
    }
  }

  lemma AverageGrows(s: real, t: real, k: nat)
    requires s <= t && k > 0
    ensures Average(s, k) <= Average(t, k)
  {
    AverageScales(Average(s, k), s, k);
    AverageScales(Average(t, k), t, k);
    SignOfProduct(Average(t, k) - Average(s, k), k as real);
  }

  /** A single Cost, Energy or Latency goal minimises exactly what users are shown: no feasible placement is
      cheaper, draws less power, or has a lower average latency than an optimal plan. */
  lemma OptimalPlanMinimisesShownFigure(inputs: ObjectiveInputs, g: Goal, ss: seq<Scoring>, o: Objective,
                                        p: IlpModel.Problem, x: IlpModel.Solution, b: Placement)
    requires BuiltFor(inputs, g, ss, o) && g.weight > 0.0
    requires g.kind in {Cost, Energy, Latency} && (g.kind == Latency ==> RegionsAgree(inputs))
    requires Aligned(inputs.ctx, p) && OptimalFor(o, p, x) && IlpModel.Feasible(p, b)
    ensures AllValued(inputs, g, inputs.ctx.nodes)
    ensures Shown(inputs, g, IlpModel.Decode(p, x)) <= Shown(inputs, g, b)
  {
    OptimalScoreIsLeast(inputs.ctx, g, ss, o, p, x, b);
    RawFollowsScore(inputs.ctx, g, ss, o, IlpModel.Decode(p, x), b);
    ShownFollowsRaw(inputs, g, ss, o, IlpModel.Decode(p, x), b);
  }
}
