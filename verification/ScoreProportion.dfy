/**
 The figures shown to users and the normalised scores of the optimizer tell the same story: with a single
 Cost, Energy or Latency goal one difference is a fixed multiple of the other.
 */
module ScoreProportion {
  import opened Prelude
  import opened OptimizerTypes
  import opened GoalScores
  import opened Objective
  import opened ReadableMetrics
  import PlanMetrics

  // ------------------------------------------------------------------ scores are affine in raw values

  /** Every replica sits on a scored node. */
  ghost predicate TotalOn(ctx: PluginContext, a: Placement) {
    forall r :: r in ctx.replicas ==> r in a && a[r] in NodeIds(ctx.nodes)
  }

  /** The difference c, stretched by d, is k times the difference from v to lo. */
  ghost predicate Proportional(c: real, d: real, k: real, v: real, lo: real) { c * d == k * (v - lo) }

  lemma AffineSum(s: real, c: real, d: real, k: real, t: real, v: real, m: real, lo: real)
    requires Proportional(s, d, k, t, m) && Proportional(c, d, k, v, lo)
    ensures Proportional(s + c, d, k, t + v, m + lo)
  {
    assert (s + c) * d == s * d + c * d;
    assert k * (t - m) + k * (v - lo) == k * ((t - m) + (v - lo));
  }

  lemma AffineDifference(s: real, c: real, drop: real, d: real, k: real, t: real, v: real, m: real)
    requires Proportional(s, d, k, t, m) && Proportional(c, d, k, v, m) && drop == s - c
    ensures Proportional(drop, d, k, t, v)
  {
    assert (s - c) * d == s * d - c * d;
    assert k * (t - m) - k * (v - m) == k * ((t - m) - (v - m));
  }

  lemma StretchedNormal(x: real, w: real, c: real, v: real, lo: real, hi: real)
    requires lo <= v <= hi && c == Normalize(v, lo, hi) && x == w * c
    ensures Proportional(x, hi - lo, 100.0 * w, v, lo)
  {
    var d, y := hi - lo, (v - lo) * 100.0;
    if hi > lo {
      assert y / d * d == y;
    }
    assert c * d == y;
    assert (w * c) * d == w * (c * d);
  }

  lemma {:induction false} ScoreIsAffine(replicas: seq<ReplicaKey>, scores: Scores, raw: Scores, k: real, lo: real, d: real, a: Placement)
    requires forall r :: r in replicas ==>
               r in a && Proportional(Coefficient(scores, r, a[r]), d, k, Coefficient(raw, r, a[r]), lo)
    ensures Proportional(PlanMetrics.ScoreSum(replicas, scores, a), d, k,
                   PlanMetrics.ScoreSum(replicas, raw, a), Repeated(|replicas|, lo))
  {
    if replicas != [] {
      var rest, r := replicas[..|replicas| - 1], replicas[|replicas| - 1];
      ScoreIsAffine(rest, scores, raw, k, lo, d, a);
      AffineSum(PlanMetrics.ScoreSum(rest, scores, a), Coefficient(scores, r, a[r]), d, k,
                PlanMetrics.ScoreSum(rest, raw, a), Coefficient(raw, r, a[r]), Repeated(|rest|, lo), lo);
    }
  }

  // The next five lemmas follow one pair from its raw value to its score.

  lemma SingleIsNormalised(ctx: PluginContext, g: Goal, ss: seq<Scoring>, o: Objective)
    requires Enabled(g) && LinearKind(g.kind) && ObjectiveOf(ctx, [g], ss, o)
    ensures Normalised(ctx, ss[0])
  {
    assert [g][0] == g;
  }

  lemma NormalisedPair(ctx: PluginContext, s: Scoring, r: ReplicaKey, n: NodeId)
    requires Normalised(ctx, s) && !NothingToScore(ctx)
    requires r in ctx.replicas && n in NodeIds(ctx.nodes)
    ensures s.lo <= Coefficient(s.raw, r, n) <= s.hi
    ensures Coefficient(s.part, r, n) == Normalize(Coefficient(s.raw, r, n), s.lo, s.hi)
  {
  }

  lemma SingleAggregate(g: Goal, parts: seq<Scores>, r: ReplicaKey, n: NodeId)
    requires Enabled(g) && LinearKind(g.kind) && |parts| == 1
    ensures Aggregate([g], parts, r, n) == Contribution(g, parts[0], r, n)
    ensures MigrationWeight([g]) == 0.0
  {
    assert [g][..0] == [] && parts[..0] == [];
    assert Aggregate([], [], r, n) == 0.0 && MigrationWeight([]) == 0.0;
  }

  lemma ContributionIsAffine(g: Goal, s: Scoring, r: ReplicaKey, n: NodeId)
    requires Enabled(g) && LinearKind(g.kind)
    requires s.lo <= Coefficient(s.raw, r, n) <= s.hi
    requires Coefficient(s.part, r, n) == Normalize(Coefficient(s.raw, r, n), s.lo, s.hi)
    ensures Proportional(Contribution(g, s.part, r, n), s.hi - s.lo, 100.0 * g.weight, Coefficient(s.raw, r, n), s.lo)
  {
    StretchedNormal(Contribution(g, s.part, r, n), g.weight, Coefficient(s.part, r, n), Coefficient(s.raw, r, n), s.lo, s.hi);
  }

  lemma SinglePair(ctx: PluginContext, g: Goal, ss: seq<Scoring>, o: Objective, r: ReplicaKey, n: NodeId)
    requires Enabled(g) && LinearKind(g.kind) && ObjectiveOf(ctx, [g], ss, o)
    requires !NothingToScore(ctx) && r in ctx.replicas && n in NodeIds(ctx.nodes)
    ensures Proportional(Coefficient(o.scores, r, n), ss[0].hi - ss[0].lo, 100.0 * g.weight, Coefficient(ss[0].raw, r, n), ss[0].lo)
  {
    SingleIsNormalised(ctx, g, ss, o);
    NormalisedPair(ctx, ss[0], r, n);
    SingleAggregate(g, Parts(ss), r, n);
    ContributionIsAffine(g, ss[0], r, n);
  }

  /** Every score of a candidate pair is affine in its raw value. */
  ghost predicate AffinePairs(ctx: PluginContext, scores: Scores, raw: Scores, d: real, k: real, lo: real) {
    forall r, n {:trigger Proportional(Coefficient(scores, r, n), d, k, Coefficient(raw, r, n), lo)} ::
      r in ctx.replicas && n in NodeIds(ctx.nodes) ==> Proportional(Coefficient(scores, r, n), d, k, Coefficient(raw, r, n), lo)
  }

  ghost predicate MovesAreFree(ctx: PluginContext, penalties: Penalties) {
    forall r :: r in ctx.replicas ==> PenaltyOf(penalties, r) == 0.0
  }

  lemma SingleGoalPairs(ctx: PluginContext, g: Goal, ss: seq<Scoring>, o: Objective)
    requires Enabled(g) && LinearKind(g.kind) && ObjectiveOf(ctx, [g], ss, o) && !NothingToScore(ctx)
    ensures AffinePairs(ctx, o.scores, ss[0].raw, ss[0].hi - ss[0].lo, 100.0 * g.weight, ss[0].lo)
  {
    forall r, n | r in ctx.replicas && n in NodeIds(ctx.nodes)
      ensures Proportional(Coefficient(o.scores, r, n), ss[0].hi - ss[0].lo, 100.0 * g.weight, Coefficient(ss[0].raw, r, n), ss[0].lo)
    {
      SinglePair(ctx, g, ss, o, r, n);
    }
  }

  lemma SingleGoalMovesFreely(ctx: PluginContext, g: Goal, ss: seq<Scoring>, o: Objective)
    requires Enabled(g) && LinearKind(g.kind) && ObjectiveOf(ctx, [g], ss, o)
    ensures MovesAreFree(ctx, o.penalties)
  {
    SingleAggregate(g, Parts(ss), ReplicaKey("", "", 0), NodeId("", ""));
  }

  /** A placement's score, stretched by d, is k times the total of the raw values above lo. */
  lemma PlacementIsAffine(ctx: PluginContext, scores: Scores, raw: Scores, d: real, k: real, lo: real, a: Placement)
    requires AffinePairs(ctx, scores, raw, d, k, lo) && TotalOn(ctx, a)
    ensures Proportional(PlanMetrics.ScoreSum(ctx.replicas, scores, a), d, k,
                   PlanMetrics.ScoreSum(ctx.replicas, raw, a), Repeated(|ctx.replicas|, lo))
  {
    ScoreIsAffine(ctx.replicas, scores, raw, k, lo, d, a);
  }

  lemma {:induction false} NoPenalties(replicas: seq<ReplicaKey>, penalties: Penalties, current: Placement, expected: Placement)
    requires forall r :: r in replicas ==> PenaltyOf(penalties, r) == 0.0
    ensures PlanMetrics.MovePenalties(PlanMetrics.MovesOf(replicas, current, expected), penalties) == 0.0
  {
    if replicas != [] {
      var rest, r := replicas[..|replicas| - 1], replicas[|replicas| - 1];
      NoPenalties(rest, penalties, current, expected);
      if PlanMetrics.MovesReplica(current, expected, r) {
        var mv := PlanMetrics.MoveLite(r, current[r], expected[r]);
        PlanMetrics.PenaltiesAppend(PlanMetrics.MovesOf(rest, current, expected), [mv], penalties);
        PlanMetrics.OnePenalty(mv, penalties);
      } else {
        assert PlanMetrics.MovesOf(replicas, current, expected) == PlanMetrics.MovesOf(rest, current, expected);
      }
    }
  }

  ghost function ScoreDrop(ctx: PluginContext, o: Objective, expected: Placement): real {
    PlanMetrics.CurrentScore(ctx.replicas, o.scores, ctx.current)
    - PlanMetrics.ExpectedScore(ctx.replicas, o.scores, o.penalties, ctx.current, expected)
  }

  lemma DropIsAffine(ctx: PluginContext, o: Objective, raw: Scores, d: real, k: real, lo: real,
                     expected: Placement, from: real, to: real)
    requires AffinePairs(ctx, o.scores, raw, d, k, lo) && MovesAreFree(ctx, o.penalties)
    requires TotalOn(ctx, ctx.current) && TotalOn(ctx, expected)
    requires from == PlanMetrics.ScoreSum(ctx.replicas, raw, ctx.current)
    requires to == PlanMetrics.ScoreSum(ctx.replicas, raw, expected)
    ensures Proportional(ScoreDrop(ctx, o, expected), d, k, from, to)
  {
    var rs := ctx.replicas;
    PlacementIsAffine(ctx, o.scores, raw, d, k, lo, ctx.current);
    PlacementIsAffine(ctx, o.scores, raw, d, k, lo, expected);
    NoPenalties(rs, o.penalties, ctx.current, expected);
    AffineDifference(PlanMetrics.ScoreSum(rs, o.scores, ctx.current), PlanMetrics.ScoreSum(rs, o.scores, expected),
                     ScoreDrop(ctx, o, expected), d, k, from, to, Repeated(|rs|, lo));
  }

  lemma SingleGoalShape(ctx: PluginContext, g: Goal, ss: seq<Scoring>, o: Objective)
    requires Enabled(g) && LinearKind(g.kind) && ObjectiveOf(ctx, [g], ss, o) && !NothingToScore(ctx)
    ensures AffinePairs(ctx, o.scores, ss[0].raw, ss[0].hi - ss[0].lo, 100.0 * g.weight, ss[0].lo)
    ensures MovesAreFree(ctx, o.penalties)
  {
    SingleGoalPairs(ctx, g, ss, o);
    SingleGoalMovesFreely(ctx, g, ss, o);
  }

  lemma ShapeIsProportional(ctx: PluginContext, g: Goal, ss: seq<Scoring>, o: Objective, expected: Placement, from: real, to: real)
    requires |ss| == 1 && MovesAreFree(ctx, o.penalties)
    requires AffinePairs(ctx, o.scores, ss[0].raw, ss[0].hi - ss[0].lo, 100.0 * g.weight, ss[0].lo)
    requires TotalOn(ctx, ctx.current) && TotalOn(ctx, expected)
    requires from == PlanMetrics.ScoreSum(ctx.replicas, ss[0].raw, ctx.current)
    requires to == PlanMetrics.ScoreSum(ctx.replicas, ss[0].raw, expected)
    ensures Proportional(ScoreDrop(ctx, o, expected), ss[0].hi - ss[0].lo, 100.0 * g.weight, from, to)
  {
    DropIsAffine(ctx, o, ss[0].raw, ss[0].hi - ss[0].lo, 100.0 * g.weight, ss[0].lo, expected, from, to);
  }

  /** With a single linear goal the drop of the score, stretched by the range of raw values, is 100 times the
      weight times the drop of the raw total. */
  lemma SingleGoalProportional(ctx: PluginContext, g: Goal, ss: seq<Scoring>, o: Objective, expected: Placement, from: real, to: real)
    requires Enabled(g) && LinearKind(g.kind) && ObjectiveOf(ctx, [g], ss, o)
    requires !NothingToScore(ctx) && TotalOn(ctx, ctx.current) && TotalOn(ctx, expected)
    requires from == PlanMetrics.ScoreSum(ctx.replicas, ss[0].raw, ctx.current)
    requires to == PlanMetrics.ScoreSum(ctx.replicas, ss[0].raw, expected)
    ensures Proportional(ScoreDrop(ctx, o, expected), ss[0].hi - ss[0].lo, 100.0 * g.weight, from, to)
  {
    SingleGoalShape(ctx, g, ss, o);
    ShapeIsProportional(ctx, g, ss, o, expected, from, to);
  }

  // ------------------------------------------------------------------ units are raw values

  /** Overridden node regions agree with the regions of the nodes. */
  ghost predicate RegionsAgree(inputs: ObjectiveInputs) {
    forall i :: 0 <= i < |inputs.ctx.nodes| ==> RegionOf(inputs, inputs.ctx.nodes[i]) == inputs.ctx.nodes[i].region
  }

  lemma {:induction false} ValueAt(inputs: ObjectiveInputs, g: Goal, nodes: seq<NodeContext>, i: nat)
    requires AllValued(inputs, g, nodes) && Distinct(NodeIds(nodes)) && i < |nodes|
    ensures nodes[i].id in ValuesOf(inputs, g, nodes) && ValuesOf(inputs, g, nodes)[nodes[i].id] == NodeValue(inputs, g, nodes[i]).value
  {
    var k := |nodes| - 1;
    if i < k {
      assert NodeIds(nodes[..k]) == NodeIds(nodes)[..k];
      ValueAt(inputs, g, nodes[..k], i);
      assert NodeIds(nodes)[i] != NodeIds(nodes)[k];
    }
  }

  /** A raw score is the unit value of the node, scaled by the replica's factor. */
  lemma RawIsUnit(inputs: ObjectiveInputs, g: Goal, r: ReplicaKey, n: NodeContext)
    requires g.kind in {Cost, Energy, Latency} && RawValue(inputs, g, r, n).Ok?
    requires g.kind == Latency ==> RegionOf(inputs, n) == n.region
    ensures NodeValue(inputs, g, n).Ok? && NodeValue(inputs, g, n).value.Some?
    ensures RawValue(inputs, g, r, n).value == NodeValue(inputs, g, n).value.value * Factor(inputs, g, r)
  {
  }

  /** Both matrices agree on every candidate pair. */
  ghost predicate SamePairs(ctx: PluginContext, x: Scores, y: Scores) {
    forall r, n :: r in ctx.replicas && n in NodeIds(ctx.nodes) ==> Coefficient(x, r, n) == Coefficient(y, r, n)
  }

  ghost predicate AllPresent(ctx: PluginContext, values: NodeValues) {
    forall n :: n in NodeIds(ctx.nodes) ==> n in values && values[n].Some?
  }

  lemma UnitAt(inputs: ObjectiveInputs, g: Goal, values: NodeValues, r: ReplicaKey, id: NodeId)
    requires r in inputs.ctx.replicas && id in values && values[id].Some?
    ensures Coefficient(UnitMatrix(inputs, g, values), r, id) == values[id].value * Factor(inputs, g, r)
  {
  }

  lemma UnitMatches(inputs: ObjectiveInputs, g: Goal, values: NodeValues, v: real, r: ReplicaKey, n: NodeContext)
    requires g.kind in {Cost, Energy, Latency} && (g.kind == Latency ==> RegionOf(inputs, n) == n.region)
    requires r in inputs.ctx.replicas && RawValue(inputs, g, r, n) == Ok(v)
    requires n.id in values && NodeValue(inputs, g, n) == Ok(values[n.id])
    ensures values[n.id].Some? && Coefficient(UnitMatrix(inputs, g, values), r, n.id) == v
  {
    RawIsUnit(inputs, g, r, n);
    UnitAt(inputs, g, values, r, n.id);
  }

  lemma PairMatches(inputs: ObjectiveInputs, g: Goal, raw: Scores, r: ReplicaKey, i: nat)
    requires g.kind in {Cost, Energy, Latency} && Distinct(NodeIds(inputs.ctx.nodes)) && RawOf(inputs, g, raw)
    requires AllValued(inputs, g, inputs.ctx.nodes) && (g.kind == Latency ==> RegionsAgree(inputs))
    requires r in inputs.ctx.replicas && i < |inputs.ctx.nodes|
    ensures var values, n := ValuesOf(inputs, g, inputs.ctx.nodes), inputs.ctx.nodes[i].id;
            && n in values && values[n].Some?
            && Coefficient(UnitMatrix(inputs, g, values), r, n) == Coefficient(raw, r, n)
  {
    ValueAt(inputs, g, inputs.ctx.nodes, i);
    assert RawRowOf(inputs, g, r, raw[r]);
    UnitMatches(inputs, g, ValuesOf(inputs, g, inputs.ctx.nodes), Coefficient(raw, r, inputs.ctx.nodes[i].id), r, inputs.ctx.nodes[i]);
  }

  lemma RawMatchesUnits(inputs: ObjectiveInputs, g: Goal, raw: Scores)
    requires g.kind in {Cost, Energy, Latency} && Distinct(NodeIds(inputs.ctx.nodes)) && RawOf(inputs, g, raw)
    requires AllValued(inputs, g, inputs.ctx.nodes) && (g.kind == Latency ==> RegionsAgree(inputs))
    ensures SamePairs(inputs.ctx, UnitMatrix(inputs, g, ValuesOf(inputs, g, inputs.ctx.nodes)), raw)
  {
    var units := UnitMatrix(inputs, g, ValuesOf(inputs, g, inputs.ctx.nodes));
    forall r, n | r in inputs.ctx.replicas && n in NodeIds(inputs.ctx.nodes)
      ensures Coefficient(units, r, n) == Coefficient(raw, r, n)
    {
      var i :| 0 <= i < |inputs.ctx.nodes| && NodeIds(inputs.ctx.nodes)[i] == n;
      PairMatches(inputs, g, raw, r, i);
    }
  }

  lemma UnitsArePresent(inputs: ObjectiveInputs, g: Goal, raw: Scores)
    requires g.kind in {Cost, Energy, Latency} && Distinct(NodeIds(inputs.ctx.nodes)) && RawOf(inputs, g, raw)
    requires AllValued(inputs, g, inputs.ctx.nodes) && (g.kind == Latency ==> RegionsAgree(inputs))
    requires inputs.ctx.replicas != []
    ensures AllPresent(inputs.ctx, ValuesOf(inputs, g, inputs.ctx.nodes))
  {
    var values := ValuesOf(inputs, g, inputs.ctx.nodes);
    forall n | n in NodeIds(inputs.ctx.nodes) ensures n in values && values[n].Some? {
      var i :| 0 <= i < |inputs.ctx.nodes| && NodeIds(inputs.ctx.nodes)[i] == n;
      assert inputs.ctx.replicas[0] in inputs.ctx.replicas;
      PairMatches(inputs, g, raw, inputs.ctx.replicas[0], i);
    }
  }

  lemma {:induction false} SameSums(ctx: PluginContext, x: Scores, y: Scores, a: Placement, replicas: seq<ReplicaKey>)
    requires SamePairs(ctx, x, y) && TotalOn(ctx, a) && forall r :: r in replicas ==> r in ctx.replicas
    ensures PlanMetrics.ScoreSum(replicas, x, a) == PlanMetrics.ScoreSum(replicas, y, a)
  {
    if replicas != [] {
      SameSums(ctx, x, y, a, replicas[..|replicas| - 1]);
    }
  }

  lemma {:induction false} AllCounted(ctx: PluginContext, values: NodeValues, a: Placement, replicas: seq<ReplicaKey>)
    requires AllPresent(ctx, values) && TotalOn(ctx, a) && forall r :: r in replicas ==> r in ctx.replicas
    ensures UnitCount(values, a, replicas) == |replicas|
  {
    if replicas != [] {
      AllCounted(ctx, values, a, replicas[..|replicas| - 1]);
    }
  }

  lemma ScorableIsValued(inputs: ObjectiveInputs, g: Goal, raw: Scores)
    requires g.kind in {Cost, Energy, Latency} && RawOf(inputs, g, raw) && !NothingToScore(inputs.ctx)
    requires g.kind == Latency ==> RegionsAgree(inputs)
    ensures AllValued(inputs, g, inputs.ctx.nodes)
  {
    var r := inputs.ctx.replicas[0];
    forall i | 0 <= i < |inputs.ctx.nodes| ensures NodeValue(inputs, g, inputs.ctx.nodes[i]).Ok? {
      assert r in inputs.ctx.replicas;
      RawIsUnit(inputs, g, r, inputs.ctx.nodes[i]);
    }
  }

  /** The objective was built for the single goal g, and there is something to score. */
  ghost predicate BuiltFor(inputs: ObjectiveInputs, g: Goal, ss: seq<Scoring>, o: Objective) {
    && Proper(inputs) && inputs.goals == [g] && Enabled(g) && ObjectiveOf(inputs.ctx, [g], ss, o) && RawsOf(inputs, [g], ss)
    && !NothingToScore(inputs.ctx)
  }

  /** The single-goal situation both theorems below speak about. */
  ghost predicate SingleGoal(inputs: ObjectiveInputs, g: Goal, ss: seq<Scoring>, o: Objective, expected: Placement) {
    BuiltFor(inputs, g, ss, o) && TotalOn(inputs.ctx, inputs.ctx.current) && TotalOn(inputs.ctx, expected)
  }

  lemma SingleGoalUnits(inputs: ObjectiveInputs, g: Goal, ss: seq<Scoring>, o: Objective)
    requires BuiltFor(inputs, g, ss, o) && g.kind in {Cost, Energy, Latency}
    requires g.kind == Latency ==> RegionsAgree(inputs)
    ensures AllValued(inputs, g, inputs.ctx.nodes) && AllPresent(inputs.ctx, ValuesOf(inputs, g, inputs.ctx.nodes))
    ensures SamePairs(inputs.ctx, UnitMatrix(inputs, g, ValuesOf(inputs, g, inputs.ctx.nodes)), ss[0].raw)
  {
    assert RawFor(inputs, [g][0], ss[0]);
    ScorableIsValued(inputs, g, ss[0].raw);
    RawMatchesUnits(inputs, g, ss[0].raw);
    UnitsArePresent(inputs, g, ss[0].raw);
  }

  /** For a single Cost or Energy goal: score drop times value range = 100 times weight times the drop shown
      to users. */
  lemma TotalsAreProportional(inputs: ObjectiveInputs, g: Goal, ss: seq<Scoring>, o: Objective, expected: Placement)
    requires SingleGoal(inputs, g, ss, o, expected) && g.kind in {Cost, Energy}
    ensures AllValued(inputs, g, inputs.ctx.nodes)
    ensures var values := ValuesOf(inputs, g, inputs.ctx.nodes);
            Proportional(ScoreDrop(inputs.ctx, o, expected), ss[0].hi - ss[0].lo,
                         100.0 * g.weight, UnitSum(inputs, g, values, inputs.ctx.current), UnitSum(inputs, g, values, expected))
  {
    SingleGoalUnits(inputs, g, ss, o);
    var values := ValuesOf(inputs, g, inputs.ctx.nodes);
    SameSums(inputs.ctx, UnitMatrix(inputs, g, values), ss[0].raw, inputs.ctx.current, inputs.ctx.replicas);
    SameSums(inputs.ctx, UnitMatrix(inputs, g, values), ss[0].raw, expected, inputs.ctx.replicas);
    SingleGoalProportional(inputs.ctx, g, ss, o, expected, UnitSum(inputs, g, values, inputs.ctx.current), UnitSum(inputs, g, values, expected));
  }

  /** The latency average times the number of replicas. */
  ghost function LatencyTotal(inputs: ObjectiveInputs, g: Goal, a: Placement): real
    requires AllValued(inputs, g, inputs.ctx.nodes)
  {
    |inputs.ctx.replicas| as real * LatencyAverage(inputs, g, a)
  }

  /** For a single Latency goal the users see averages, so the number of replicas comes in. */
  lemma LatencyIsProportional(inputs: ObjectiveInputs, g: Goal, ss: seq<Scoring>, o: Objective, expected: Placement)
    requires SingleGoal(inputs, g, ss, o, expected) && g.kind == Latency && RegionsAgree(inputs)
    ensures AllValued(inputs, g, inputs.ctx.nodes)
    ensures Proportional(ScoreDrop(inputs.ctx, o, expected), ss[0].hi - ss[0].lo,
                         100.0 * g.weight, LatencyTotal(inputs, g, inputs.ctx.current), LatencyTotal(inputs, g, expected))
  {
    SingleGoalUnits(inputs, g, ss, o);
    AverageOfRaw(inputs, g, ss[0].raw, inputs.ctx.current);
    AverageOfRaw(inputs, g, ss[0].raw, expected);
    AverageTotal(inputs, g, inputs.ctx.current, PlanMetrics.ScoreSum(inputs.ctx.replicas, ss[0].raw, inputs.ctx.current));
    AverageTotal(inputs, g, expected, PlanMetrics.ScoreSum(inputs.ctx.replicas, ss[0].raw, expected));
    SingleGoalProportional(inputs.ctx, g, ss, o, expected, LatencyTotal(inputs, g, inputs.ctx.current), LatencyTotal(inputs, g, expected));
  }

  lemma AverageOfRaw(inputs: ObjectiveInputs, g: Goal, raw: Scores, a: Placement)
    requires AllValued(inputs, g, inputs.ctx.nodes) && TotalOn(inputs.ctx, a)
    requires AllPresent(inputs.ctx, ValuesOf(inputs, g, inputs.ctx.nodes))
    requires SamePairs(inputs.ctx, UnitMatrix(inputs, g, ValuesOf(inputs, g, inputs.ctx.nodes)), raw)
    ensures LatencyAverage(inputs, g, a) == Average(PlanMetrics.ScoreSum(inputs.ctx.replicas, raw, a), |inputs.ctx.replicas|)
  {
    var values := ValuesOf(inputs, g, inputs.ctx.nodes);
    SameSums(inputs.ctx, UnitMatrix(inputs, g, values), raw, a, inputs.ctx.replicas);
    AllCounted(inputs.ctx, values, a, inputs.ctx.replicas);
  }

  lemma AverageTotal(inputs: ObjectiveInputs, g: Goal, a: Placement, total: real)
    requires inputs.ctx.replicas != [] && AllValued(inputs, g, inputs.ctx.nodes)
    requires LatencyAverage(inputs, g, a) == Average(total, |inputs.ctx.replicas|)
    ensures LatencyTotal(inputs, g, a) == total
  {
    AverageScales(LatencyAverage(inputs, g, a), total, |inputs.ctx.replicas|);
  }

  lemma AverageScales(avg: real, s: real, k: nat)
    requires k > 0 && avg == Average(s, k)
    ensures k as real * avg == s
  {
    assert s / k as real * k as real == s;
  }
}
