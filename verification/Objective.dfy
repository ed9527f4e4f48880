/**
 The objective: enabled goals add up their scores by weight, and the Migration goal gives a penalty per
 replica.
 */
module Objective {
  import opened Prelude
  import opened OptimizerTypes
  import opened GoalScores

  // ------------------------------------------------------------------ aggregation

  const MIGRATION_PENALTY := 100.0

  predicate Enabled(g: Goal) { g.weight != 0.0 }

  predicate LinearKind(k: GoalKind) { k in {Cost, Latency, Communication, Energy} }

  datatype Objective = Objective(scores: Scores, penalties: Penalties)

  /** What a goal adds to the score of a pair. */
  function Contribution(g: Goal, part: Scores, r: ReplicaKey, n: NodeId): real {
    if Enabled(g) && LinearKind(g.kind) then g.weight * Coefficient(part, r, n) else 0.0
  }

  /** What a goal adds to the cost of moving a replica. */
  function PenaltyShare(g: Goal): real { if Enabled(g) && g.kind == Migration then g.weight else 0.0 }

  /** Weighted sum of the goals' scores for one pair. */
  function Aggregate(goals: seq<Goal>, parts: seq<Scores>, r: ReplicaKey, n: NodeId): real
    requires |goals| == |parts|
  {
    if goals == [] then 0.0
    else
      var k := |goals| - 1;
      Aggregate(goals[..k], parts[..k], r, n) + Contribution(goals[k], parts[k], r, n)
  }

  function MigrationWeight(goals: seq<Goal>): real {
    if goals == [] then 0.0
    else MigrationWeight(goals[..|goals| - 1]) + PenaltyShare(goals[|goals| - 1])
  }

  predicate Acceptable(inputs: ObjectiveInputs, g: Goal) {
    Enabled(g) ==>
      && g.weight > 0.0
      && (g.kind == Migration || (LinearKind(g.kind) && (NothingToScore(inputs.ctx) || Scorable(inputs, g))))
  }

  /** scores has exactly one entry per pair. */
  ghost predicate Covering(ctx: PluginContext, scores: Scores) {
    && (forall r {:trigger r in scores} :: r in scores <==> r in ctx.replicas)
    && (forall r, n {:trigger n in scores[r]} :: r in scores ==> (n in scores[r] <==> n in NodeIds(ctx.nodes)))
  }

  /** The objective of a goal list: the matrix, the penalties, and what each goal contributed. */
  ghost predicate ObjectiveOf(ctx: PluginContext, goals: seq<Goal>, ss: seq<Scoring>, o: Objective) {
    && |ss| == |goals|
    && (forall k :: 0 <= k < |goals| && Enabled(goals[k]) && LinearKind(goals[k].kind) ==> Normalised(ctx, ss[k]))
    && Covering(ctx, o.scores)
    && (forall r, n {:trigger Coefficient(o.scores, r, n)} :: r in ctx.replicas && n in NodeIds(ctx.nodes) ==>
          Coefficient(o.scores, r, n) == Aggregate(goals, Parts(ss), r, n))
    && (forall r :: r in o.penalties ==> r in ctx.replicas)
    && (forall r {:trigger PenaltyOf(o.penalties, r)} :: r in ctx.replicas ==>
          PenaltyOf(o.penalties, r) == MIGRATION_PENALTY * MigrationWeight(goals))
  }

  /** The raw values behind a goal's scores are those of the goal. */
  ghost predicate RawFor(inputs: ObjectiveInputs, g: Goal, s: Scoring) {
    Enabled(g) && LinearKind(g.kind) ==> ScoredFrom(inputs, g, s)
  }

  ghost predicate RawsOf(inputs: ObjectiveInputs, goals: seq<Goal>, ss: seq<Scoring>) {
    |ss| == |goals| && forall k :: 0 <= k < |goals| ==> RawFor(inputs, goals[k], ss[k])
  }

  function Parts(ss: seq<Scoring>): (ps: seq<Scores>)
    ensures |ps| == |ss|
  {
    seq(|ss|, i requires 0 <= i < |ss| => ss[i].part)
  }

  function AddedRow(row: map<NodeId, real>, add: map<NodeId, real>, weight: real): map<NodeId, real> {
    map n | n in row.Keys + add.Keys ::
      (if n in row then row[n] else 0.0) + (if n in add then weight * add[n] else 0.0)
  }

  method AccumulateRow(row: map<NodeId, real>, add: map<NodeId, real>, weight: real) returns (out: map<NodeId, real>)
    ensures out == AddedRow(row, add, weight)
  {
    out := row;
    var left := add.Keys;
    while left != {}
      invariant left <= add.Keys && out.Keys == row.Keys + (add.Keys - left)
      invariant forall n :: n in out ==>
                  out[n] == (if n in row then row[n] else 0.0) + (if n in add && n !in left then weight * add[n] else 0.0)
      decreases left
    {
      var n :| n in left;
      out := out[n := (if n in out then out[n] else 0.0) + weight * add[n]];
      left := left - {n};
    }
    assert out.Keys == AddedRow(row, add, weight).Keys;
    assert forall n :: n in out ==> out[n] == AddedRow(row, add, weight)[n];
  }

  /** Adds weighted scores into the matrix, making rows that are missing. */
  method AccumulatePlacementScores(dst: Scores, add: Scores, weight: real) returns (out: Scores)
    ensures Accumulated(dst, add, weight, out)
  {
    out := dst;
    var left := add.Keys;
    while left != {}
      invariant left <= add.Keys && out.Keys == dst.Keys + (add.Keys - left)
      invariant forall r :: r in out ==>
                  out[r] == if r in add && r !in left then AddedRow(if r in dst then dst[r] else map[], add[r], weight) else dst[r]
      decreases left
    {
      var r :| r in left;
      var row := AccumulateRow(if r in out then out[r] else map[], add[r], weight);
      out := out[r := row];
      left := left - {r};
    }
  }

  // ------------------------------------------------------------------ the whole objective

  method ZeroScores(ctx: PluginContext) returns (scores: Scores)
    ensures Covering(ctx, scores)
    ensures forall r, n :: r in scores && n in scores[r] ==> scores[r][n] == 0.0
  {
    scores := map[];
    for i := 0 to |ctx.replicas|
      invariant forall r :: r in scores <==> r in ctx.replicas[..i]
      invariant forall r, n :: r in scores ==> (n in scores[r] <==> n in NodeIds(ctx.nodes))
      invariant forall r, n :: r in scores && n in scores[r] ==> scores[r][n] == 0.0
    {
      assert ctx.replicas[..i + 1] == ctx.replicas[..i] + [ctx.replicas[i]];
      scores := scores[ctx.replicas[i] := map n | n in NodeIds(ctx.nodes) :: 0.0];
    }
    assert ctx.replicas[..|ctx.replicas|] == ctx.replicas;
  }

  method AddPenalties(ctx: PluginContext, penalties: Penalties, add: real) returns (out: Penalties)
    requires Distinct(ctx.replicas) && forall r :: r in penalties ==> r in ctx.replicas
    ensures forall r :: r in out <==> r in ctx.replicas
    ensures forall r :: r in out ==> out[r] == (if r in penalties then penalties[r] else 0.0) + add
  {
    out := penalties;
    for i := 0 to |ctx.replicas|
      invariant forall r :: r in out <==> r in penalties || r in ctx.replicas[..i]
      invariant forall r :: r in out ==>
                  out[r] == (if r in penalties then penalties[r] else 0.0) + (if r in ctx.replicas[..i] then add else 0.0)
    {
      var r := ctx.replicas[i];
      assert ctx.replicas[..i + 1] == ctx.replicas[..i] + [r];
      assert r !in ctx.replicas[..i];
      out := out[r := (if r in out then out[r] else 0.0) + add];
    }
    assert ctx.replicas[..|ctx.replicas|] == ctx.replicas;
  }

  lemma PartsPush(ss: seq<Scoring>, s: Scoring)
    ensures Parts(ss + [s])[..|ss|] == Parts(ss) && Parts(ss + [s])[|ss|] == s.part
  {
  }

  /** One goal turns the objective before into after, through the scoring s. */
  ghost predicate GoalAdded(ctx: PluginContext, g: Goal, s: Scoring, before: Objective, after: Objective) {
    && (Enabled(g) && LinearKind(g.kind) ==> Normalised(ctx, s))
    && Covering(ctx, after.scores)
    && (forall r :: r in after.penalties ==> r in ctx.replicas)
    && (forall r, n {:trigger Coefficient(after.scores, r, n)} :: r in ctx.replicas && n in NodeIds(ctx.nodes) ==>
          Coefficient(after.scores, r, n) == Coefficient(before.scores, r, n) + Contribution(g, s.part, r, n))
    && (forall r {:trigger PenaltyOf(after.penalties, r)} :: r in ctx.replicas ==>
          PenaltyOf(after.penalties, r) == PenaltyOf(before.penalties, r) + MIGRATION_PENALTY * PenaltyShare(g))
  }

  lemma AggregateStep(goals: seq<Goal>, k: nat, ss: seq<Scoring>, s: Scoring, r: ReplicaKey, n: NodeId)
    requires k < |goals| && |ss| == k
    ensures Aggregate(goals[..k + 1], Parts(ss + [s]), r, n)
            == Aggregate(goals[..k], Parts(ss), r, n) + Contribution(goals[k], s.part, r, n)
    ensures MigrationWeight(goals[..k + 1]) == MigrationWeight(goals[..k]) + PenaltyShare(goals[k])
  {
    PartsPush(ss, s);
    assert goals[..k + 1][..k] == goals[..k];
  }

  lemma ObjectiveStep(ctx: PluginContext, goals: seq<Goal>, k: nat, ss: seq<Scoring>, s: Scoring, before: Objective, after: Objective)
    requires k < |goals| && ObjectiveOf(ctx, goals[..k], ss, before) && GoalAdded(ctx, goals[k], s, before, after)
    ensures ObjectiveOf(ctx, goals[..k + 1], ss + [s], after)
  {
    forall r, n | r in ctx.replicas && n in NodeIds(ctx.nodes)
      ensures Coefficient(after.scores, r, n) == Aggregate(goals[..k + 1], Parts(ss + [s]), r, n)
    {
      AggregateStep(goals, k, ss, s, r, n);
    }
    forall r | r in ctx.replicas
      ensures PenaltyOf(after.penalties, r) == MIGRATION_PENALTY * MigrationWeight(goals[..k + 1])
    {
      AggregateStep(goals, k, ss, s, r, NodeId("", ""));
      PenaltyGrows(PenaltyOf(before.penalties, r), PenaltyOf(after.penalties, r),
                   MigrationWeight(goals[..k]), PenaltyShare(goals[k]), MigrationWeight(goals[..k + 1]));
    }
  }

  lemma PenaltyGrows(before: real, after: real, w: real, share: real, sum: real)
    requires before == MIGRATION_PENALTY * w && after == before + MIGRATION_PENALTY * share && sum == w + share
    ensures after == MIGRATION_PENALTY * sum
  {
  }

  /** after is before with the weighted entries of part added. */
  ghost predicate Accumulated(before: Scores, part: Scores, weight: real, after: Scores) {
    && after.Keys == before.Keys + part.Keys
    && forall r :: r in after ==>
         after[r] == if r in part then AddedRow(if r in before then before[r] else map[], part[r], weight) else before[r]
  }

  lemma AccumulatedAt(before: Scores, part: Scores, weight: real, after: Scores, r: ReplicaKey, n: NodeId)
    requires Accumulated(before, part, weight, after)
    ensures Coefficient(after, r, n) == Coefficient(before, r, n) + weight * Coefficient(part, r, n)
    ensures r in after && n in after[r] <==> (r in before && n in before[r]) || (r in part && n in part[r])
  {
  }

  lemma AccumulateContributes(ctx: PluginContext, g: Goal, part: Scores, before: Scores, after: Scores)
    requires Enabled(g) && LinearKind(g.kind) && Accumulated(before, part, g.weight, after)
    ensures forall r, n :: r in ctx.replicas && n in NodeIds(ctx.nodes) ==>
              Coefficient(after, r, n) == Coefficient(before, r, n) + Contribution(g, part, r, n)
  {
    forall r, n | r in ctx.replicas && n in NodeIds(ctx.nodes)
      ensures Coefficient(after, r, n) == Coefficient(before, r, n) + Contribution(g, part, r, n)
    {
      AccumulatedAt(before, part, g.weight, after, r, n);
    }
  }

  /** The scores of a goal keep a covering matrix covering. */
  lemma AccumulateCovers(ctx: PluginContext, g: Goal, s: Scoring, before: Scores, after: Scores)
    requires Normalised(ctx, s) && Covering(ctx, before) && Accumulated(before, s.part, g.weight, after)
    ensures Covering(ctx, after)
  {
    assert forall r :: r in s.part ==> r in ctx.replicas;
    forall r, n | r in after ensures n in after[r] <==> n in NodeIds(ctx.nodes) {
      AccumulatedAt(before, s.part, g.weight, after, r, n);
    }
  }

  lemma LinearAdded(ctx: PluginContext, g: Goal, s: Scoring, before: Objective, scores: Scores)
    requires Enabled(g) && LinearKind(g.kind) && Normalised(ctx, s) && Accumulated(before.scores, s.part, g.weight, scores)
    requires Covering(ctx, before.scores) && forall r :: r in before.penalties ==> r in ctx.replicas
    ensures GoalAdded(ctx, g, s, before, Objective(scores, before.penalties))
  {
    AccumulateCovers(ctx, g, s, before.scores, scores);
    AccumulateContributes(ctx, g, s.part, before.scores, scores);
  }

  lemma MigrationAdded(ctx: PluginContext, g: Goal, s: Scoring, before: Objective, penalties: Penalties)
    requires Enabled(g) && g.kind == Migration && Covering(ctx, before.scores)
    requires forall r :: r in penalties <==> r in ctx.replicas
    requires forall r :: r in penalties ==> penalties[r] == PenaltyOf(before.penalties, r) + g.weight * MIGRATION_PENALTY
    ensures GoalAdded(ctx, g, s, before, Objective(before.scores, penalties))
  {
  }

  lemma DisabledAdds(ctx: PluginContext, g: Goal, s: Scoring, o: Objective)
    requires !Enabled(g) && Covering(ctx, o.scores) && forall r :: r in o.penalties ==> r in ctx.replicas
    ensures GoalAdded(ctx, g, s, o, o)
  {
    assert PenaltyShare(g) == 0.0 && forall r, n :: Contribution(g, s.part, r, n) == 0.0;
  }

  /** Scores one enabled linear goal and adds it in. */
  method AddLinearGoal(inputs: ObjectiveInputs, g: Goal, before: Objective)
    returns (after: Result<Objective, ObjectiveError>, ghost s: Scoring)
    requires Proper(inputs) && Enabled(g) && LinearKind(g.kind)
    requires Covering(inputs.ctx, before.scores) && forall r :: r in before.penalties ==> r in inputs.ctx.replicas
    ensures after.Ok? <==> NothingToScore(inputs.ctx) || Scorable(inputs, g)
    ensures after.Ok? ==> GoalAdded(inputs.ctx, g, s, before, after.value) && RawFor(inputs, g, s)
  {
    var part;
    part, s := ScorePlacement(inputs, g);
    if part.Err? {
      return Err(part.error), s;
    }
    var scores := AccumulatePlacementScores(before.scores, part.value, g.weight);
    LinearAdded(inputs.ctx, g, s, before, scores);
    return Ok(Objective(scores, before.penalties)), s;
  }

  /** Adds one goal: a disabled one changes nothing, a linear one adds scores, Migration adds penalties. */
  method AddGoal(inputs: ObjectiveInputs, g: Goal, before: Objective)
    returns (after: Result<Objective, ObjectiveError>, ghost s: Scoring)
    requires Proper(inputs) && Covering(inputs.ctx, before.scores) && forall r :: r in before.penalties ==> r in inputs.ctx.replicas
    ensures after.Ok? <==> Acceptable(inputs, g)
    ensures after.Ok? ==> GoalAdded(inputs.ctx, g, s, before, after.value) && RawFor(inputs, g, s)
  {
    s := Scoring(map[], 0.0, 0.0, map[]);
    if g.weight == 0.0 {
      DisabledAdds(inputs.ctx, g, s, before);
      return Ok(before), s;
    }
    if g.weight < 0.0 {
      return Err(NegativeWeight), s;
    }
    match g.kind {
      case Cost | Latency | Communication | Energy =>
        after, s := AddLinearGoal(inputs, g, before);
      case Migration =>
        var penalties := AddPenalties(inputs.ctx, before.penalties, g.weight * MIGRATION_PENALTY);
        MigrationAdded(inputs.ctx, g, s, before, penalties);
        return Ok(Objective(before.scores, penalties)), s;
      case OtherGoal =>
        return Err(UnknownGoal), s;
    }
  }

  /** The objective after the first k goals. */
  ghost predicate Built(inputs: ObjectiveInputs, k: nat, ss: seq<Scoring>, o: Objective) {
    && k <= |inputs.goals| && ObjectiveOf(inputs.ctx, inputs.goals[..k], ss, o) && RawsOf(inputs, inputs.goals[..k], ss)
    && forall i :: 0 <= i < k ==> Acceptable(inputs, inputs.goals[i])
  }

  lemma BuiltStart(inputs: ObjectiveInputs, scores: Scores)
    requires Covering(inputs.ctx, scores) && forall r, n :: r in scores && n in scores[r] ==> scores[r][n] == 0.0
    ensures Built(inputs, 0, [], Objective(scores, map[]))
  {
  }

  lemma BuiltStep(inputs: ObjectiveInputs, k: nat, ss: seq<Scoring>, s: Scoring, o: Objective, next: Objective)
    requires k < |inputs.goals| && Built(inputs, k, ss, o)
    requires Acceptable(inputs, inputs.goals[k]) && GoalAdded(inputs.ctx, inputs.goals[k], s, o, next) && RawFor(inputs, inputs.goals[k], s)
    ensures Built(inputs, k + 1, ss + [s], next)
  {
    ObjectiveStep(inputs.ctx, inputs.goals, k, ss, s, o, next);
    forall i | 0 <= i < k + 1 ensures RawFor(inputs, inputs.goals[..k + 1][i], (ss + [s])[i]) {
      if i < k {
        assert RawFor(inputs, inputs.goals[..k][i], ss[i]);
      }
    }
  }

  /** Aggregates the enabled goals in order.  It fails exactly when an enabled goal has a negative weight, an
      unknown kind, or misses data; a success weighs every goal's normalised scores. */
  method BuildObjective(inputs: ObjectiveInputs) returns (out: Result<Objective, ObjectiveError>, ghost ss: seq<Scoring>)
    requires Proper(inputs)
    ensures out.Ok? <==> forall k :: 0 <= k < |inputs.goals| ==> Acceptable(inputs, inputs.goals[k])
    ensures out.Ok? ==> ObjectiveOf(inputs.ctx, inputs.goals, ss, out.value) && RawsOf(inputs, inputs.goals, ss)
  {
    var scores := ZeroScores(inputs.ctx);
    var o := Objective(scores, map[]);
    ss := [];
    BuiltStart(inputs, scores);
    for k := 0 to |inputs.goals|
      invariant Built(inputs, k, ss, o)
    {
      var next, s := AddGoal(inputs, inputs.goals[k], o);
      if next.Err? {
        return Err(next.error), ss;
      }
      BuiltStep(inputs, k, ss, s, o, next.value);
      o, ss := next.value, ss + [s];
    }
    assert inputs.goals[..|inputs.goals|] == inputs.goals;
    return Ok(o), ss;
  }

  // ------------------------------------------------------------------ the objective on its goals

  datatype ScoredGoal = ScoredGoal(goal: Goal, part: Scores)

  function ScoredGoals(goals: seq<Goal>, ss: seq<Scoring>): (gs: seq<ScoredGoal>)
    requires |goals| == |ss|
    ensures |gs| == |goals| && forall k :: 0 <= k < |gs| ==> gs[k] == ScoredGoal(goals[k], ss[k].part)
  {
    seq(|goals|, k requires 0 <= k < |goals| => ScoredGoal(goals[k], ss[k].part))
  }

  /** What a goal says about a pair, by its weight; Migration goals say nothing about pairs. */
  function Says(r: ReplicaKey, n: NodeId): ScoredGoal -> real {
    (s: ScoredGoal) =>
      if s.goal.kind in {Cost, Latency, Communication, Energy} && r in s.part && n in s.part[r]
      then s.goal.weight * s.part[r][n] else 0.0
  }

  function MigrationShare(): Goal -> real {
    (g: Goal) => if g.kind == Migration then g.weight else 0.0
  }

  lemma {:induction false} AggregatesAreSums(goals: seq<Goal>, ss: seq<Scoring>, r: ReplicaKey, n: NodeId)
    requires |goals| == |ss|
    ensures Aggregate(goals, Parts(ss), r, n) == RealSum(ScoredGoals(goals, ss), Says(r, n))
    ensures MigrationWeight(goals) == RealSum(goals, MigrationShare())
  {
    if goals != [] {
      var k := |goals| - 1;
      AggregatesAreSums(goals[..k], ss[..k], r, n);
      assert Parts(ss)[..k] == Parts(ss[..k]);
      assert ScoredGoals(goals, ss)[..k] == ScoredGoals(goals[..k], ss[..k]);
    }
  }

  /** The objective scores a pair with the weighted sum of what the goals score it, and a move with a hundred times the
      weight of the Migration goals. */
  lemma ObjectiveExactly(ctx: PluginContext, goals: seq<Goal>, ss: seq<Scoring>, o: Objective, r: ReplicaKey, n: NodeId)
    requires ObjectiveOf(ctx, goals, ss, o) && r in ctx.replicas && n in NodeIds(ctx.nodes)
    ensures r in o.scores && n in o.scores[r] && o.scores[r][n] == RealSum(ScoredGoals(goals, ss), Says(r, n))
    ensures PenaltyOf(o.penalties, r) == 100.0 * RealSum(goals, MigrationShare())
  {
    AggregatesAreSums(goals, ss, r, n);
    assert Coefficient(o.scores, r, n) == Aggregate(goals, Parts(ss), r, n);
  }

  /** Which goals are acceptable: a goal of weight zero always, one of negative weight or unknown kind never, a Migration
      goal of positive weight always, any other when there is nothing to score or it can be scored. */
  lemma AcceptableExactly(inputs: ObjectiveInputs, g: Goal)
    ensures g.weight == 0.0 ==> Acceptable(inputs, g)
    ensures g.weight < 0.0 || (g.weight != 0.0 && g.kind == OtherGoal) ==> !Acceptable(inputs, g)
    ensures g.weight > 0.0 && g.kind == Migration ==> Acceptable(inputs, g)
    ensures g.weight > 0.0 && g.kind != Migration && g.kind != OtherGoal ==>
              (Acceptable(inputs, g) <==> inputs.ctx.replicas == [] || inputs.ctx.nodes == [] || Scorable(inputs, g))
  {
  }
}
