/**
 Plan metrics and moves from a score matrix, the adjustment of the scores by migration penalties that the
 integer program minimises, and the agreement of the two.
 */
module PlanMetrics {
  import opened Prelude
  import opened OptimizerTypes
  import opened IlpModel
  import opened EncodingCorrect

  datatype MoveLite = MoveLite(replica: ReplicaKey, source: NodeId, destination: NodeId)

  datatype Metrics = Metrics(
    currentScore: real, expectedScore: real, improvement: real, improvementPct: real, podsToMove: int)

  // ------------------------------------------------------------------ metrics

  /** Score of the placement, skipping replicas without a known place or score. */
  function ScoreSum(replicas: seq<ReplicaKey>, scores: Scores, a: Placement): real {
    if replicas == [] then 0.0
    else
      var r := replicas[|replicas| - 1];
      ScoreSum(replicas[..|replicas| - 1], scores, a) + (if r in a then Coefficient(scores, r, a[r]) else 0.0)
  }

  predicate MovesReplica(current: Placement, expected: Placement, r: ReplicaKey) {
    r in current && r in expected && current[r] != expected[r]
  }

  /** One move per replica whose expected node differs from its current one, in replica order. */
  function MovesOf(replicas: seq<ReplicaKey>, current: Placement, expected: Placement): seq<MoveLite> {
    if replicas == [] then []
    else
      var r := replicas[|replicas| - 1];
      MovesOf(replicas[..|replicas| - 1], current, expected) +
      (if MovesReplica(current, expected, r) then [MoveLite(r, current[r], expected[r])] else [])
  }

  function MovePenalties(moves: seq<MoveLite>, penalties: Penalties): real {
    if moves == [] then 0.0
    else MovePenalties(moves[..|moves| - 1], penalties) + PenaltyOf(penalties, moves[|moves| - 1].replica)
  }

  function CurrentScore(replicas: seq<ReplicaKey>, scores: Scores, current: Placement): real {
    ScoreSum(replicas, scores, current)
  }

  function ExpectedScore(replicas: seq<ReplicaKey>, scores: Scores, penalties: Penalties,
                         current: Placement, expected: Placement): real {
    ScoreSum(replicas, scores, expected) + MovePenalties(MovesOf(replicas, current, expected), penalties)
  }

  function Clamped(v: real): real { if v < 0.0 then 0.0 else v }

  method BuildPlanMetricsAndMoves(replicas: seq<ReplicaKey>, scores: Scores, penalties: Penalties,
                                  current: Placement, expected: Placement)
    returns (m: Metrics, moves: seq<MoveLite>)
    ensures moves == MovesOf(replicas, current, expected)
    ensures m.podsToMove == |moves|
    ensures m.currentScore == CurrentScore(replicas, scores, current)
    ensures m.expectedScore == ExpectedScore(replicas, scores, penalties, current, expected)
    ensures m.improvement == if m.expectedScore < m.currentScore then m.currentScore - m.expectedScore else 0.0
    ensures m.improvementPct == if m.currentScore > 0.0 then m.improvement * 100.0 / m.currentScore else 0.0
  {
    var cur, exp;
    cur, exp, moves := SumScores(replicas, scores, current, expected);
    exp := AddMovePenalties(exp, moves, penalties);
    var improvement := cur - exp;
    if improvement < 0.0 {
      improvement := 0.0;
    }
    var pct := 0.0;
    if cur > 0.0 {
      pct := improvement * 100.0 / cur;
    }
    m := Metrics(cur, exp, improvement, pct, |moves|);
  }

  method SumScores(replicas: seq<ReplicaKey>, scores: Scores, current: Placement, expected: Placement)
    returns (cur: real, exp: real, moves: seq<MoveLite>)
    ensures cur == ScoreSum(replicas, scores, current) && exp == ScoreSum(replicas, scores, expected)
    ensures moves == MovesOf(replicas, current, expected)
  {
    cur, exp, moves := 0.0, 0.0, [];
    for i := 0 to |replicas|
      invariant cur == ScoreSum(replicas[..i], scores, current)
      invariant exp == ScoreSum(replicas[..i], scores, expected)
      invariant moves == MovesOf(replicas[..i], current, expected)
    {
      var r := replicas[i];
      assert replicas[..i + 1][..i] == replicas[..i];
      if r in current && r in scores && current[r] in scores[r] {
        cur := cur + scores[r][current[r]];
      }
      if r in expected && r in scores && expected[r] in scores[r] {
        exp := exp + scores[r][expected[r]];
      }
      if r in current && r in expected && current[r] != expected[r] {
        moves := moves + [MoveLite(r, current[r], expected[r])];
      }
    }
    assert replicas[..|replicas|] == replicas;
  }

  method AddMovePenalties(base: real, moves: seq<MoveLite>, penalties: Penalties) returns (exp: real)
    ensures exp == base + MovePenalties(moves, penalties)
  {
    exp := base;
    for k := 0 to |moves|
      invariant exp == base + MovePenalties(moves[..k], penalties)
    {
      assert moves[..k + 1][..k] == moves[..k];
      if moves[k].replica in penalties {
        exp := exp + penalties[moves[k].replica];
      }
    }
    assert moves[..|moves|] == moves;
  }

  /** What a replica scores under a placement, and what it costs to move it from one placement to another. */
  function ScoreUnder(scores: Scores, a: Placement): ReplicaKey -> real {
    r => if r in a && r in scores && a[r] in scores[r] then scores[r][a[r]] else 0.0
  }

  function MoveCost(penalties: Penalties, current: Placement, expected: Placement): ReplicaKey -> real {
    r => if r in current && r in expected && current[r] != expected[r] && r in penalties then penalties[r] else 0.0
  }

  /** The current score adds up what replicas score where they are, the expected score what they score where they will be
      and what it costs to move those that change their node. */
  lemma {:induction false} ScoresAreSums(replicas: seq<ReplicaKey>, scores: Scores, penalties: Penalties,
                                         current: Placement, expected: Placement)
    ensures CurrentScore(replicas, scores, current) == RealSum(replicas, ScoreUnder(scores, current))
    ensures ExpectedScore(replicas, scores, penalties, current, expected)
            == RealSum(replicas, ScoreUnder(scores, expected)) + RealSum(replicas, MoveCost(penalties, current, expected))
  {
    if replicas != [] {
      var rest, r := replicas[..|replicas| - 1], replicas[|replicas| - 1];
      ScoresAreSums(rest, scores, penalties, current, expected);
      if MovesReplica(current, expected, r) {
        var mv := MoveLite(r, current[r], expected[r]);
        PenaltiesAppend(MovesOf(rest, current, expected), [mv], penalties);
        OnePenalty(mv, penalties);
      } else {
        assert MovesOf(replicas, current, expected) == MovesOf(rest, current, expected);
      }
    }
  }

  // ------------------------------------------------------------------ coefficients of the integer program

  /** Every node of the row gets dearer by the penalty, the current node does not; a current node outside
      the row gets an entry of its own. */
  function AdjustedRow(row: map<NodeId, real>, penalty: real, cur: NodeId): map<NodeId, real> {
    (map n | n in row :: row[n] + penalty)[cur := if cur in row then row[cur] else -penalty]
  }

  predicate Adjusts(penalties: Penalties, current: Placement, r: ReplicaKey) {
    r in penalties && penalties[r] != 0.0 && r in current
  }

  function AdjustedScores(scores: Scores, penalties: Penalties, current: Placement): Scores {
    map r | r in scores ::
      if Adjusts(penalties, current, r) then AdjustedRow(scores[r], penalties[r], current[r]) else scores[r]
  }

  /** Adds the penalties in place, replica by replica, in any order. */
  method ApplyMigrationPenalty(scores: Scores, penalties: Penalties, current: Placement) returns (coeff: Scores)
    ensures coeff == AdjustedScores(scores, penalties, current)
  {
    coeff := scores;
    var left := penalties.Keys;
    while left != {}
      invariant left <= penalties.Keys && coeff.Keys == scores.Keys
      invariant forall r :: r in scores ==>
                  coeff[r] == if r !in left then AdjustedScores(scores, penalties, current)[r] else scores[r]
      decreases left
    {
      var r :| r in left;
      left := left - {r};
      if penalties[r] == 0.0 || r !in current || r !in coeff {
        continue;
      }
      var pen, row := penalties[r], coeff[r];
      row := map n | n in row :: row[n] + pen;
      row := row[current[r] := (if current[r] in row then row[current[r]] else 0.0) - pen];
      assert row == AdjustedRow(scores[r], pen, current[r]);
      coeff := coeff[r := row];
    }
  }

  // ------------------------------------------------------------------ objective = expected score

  lemma {:induction false} DotAppend(s: seq<Term>, t: seq<Term>, x: Solution)
    ensures Dot(s + t, x) == Dot(s, x) + Dot(t, x)
  {
    if t == [] {
      assert s + t == s;
    } else {
      assert (s + t)[..|s + t| - 1] == s + t[..|t| - 1];
      DotAppend(s, t[..|t| - 1], x);
    }
  }

  lemma {:induction false} RowObjectiveSum(p: Problem, coeffs: Scores, x: Solution, a: Placement, r: ReplicaKey, k: nat)
    requires Distinct(p.nodes) && Encodes(p, x, a) && r in p.replicas && k <= |p.nodes|
    ensures Dot(RowObjective(coeffs, r, p.nodes[..k]), x)
            == if a[r] in p.nodes[..k] then Coefficient(coeffs, r, a[r]) else 0.0
  {
    if k > 0 {
      var n := p.nodes[k - 1];
      RowObjectiveSum(p, coeffs, x, a, r, k - 1);
      assert p.nodes[..k] == p.nodes[..k - 1] + [n];
      assert n in p.nodes && n !in p.nodes[..k - 1];
      RowObjectivePush(p, coeffs, x, r, k);
      assert Var(r, n) in x && (x[Var(r, n)] == 1 <==> a[r] == n);
    }
  }

  lemma RowObjectivePush(p: Problem, coeffs: Scores, x: Solution, r: ReplicaKey, k: nat)
    requires 0 < k <= |p.nodes| && Var(r, p.nodes[k - 1]) in x && x[Var(r, p.nodes[k - 1])] in {0, 1}
    ensures Dot(RowObjective(coeffs, r, p.nodes[..k]), x)
            == Dot(RowObjective(coeffs, r, p.nodes[..k - 1]), x)
               + (if x[Var(r, p.nodes[k - 1])] == 1 then Coefficient(coeffs, r, p.nodes[k - 1]) else 0.0)
  {
    var n := p.nodes[k - 1];
    var c := Coefficient(coeffs, r, n);
    assert p.nodes[..k][..k - 1] == p.nodes[..k - 1];
    DotAppend(RowObjective(coeffs, r, p.nodes[..k - 1]), if c == 0.0 then [] else [Term(c, Var(r, n))], x);
    OneTerm(c, Var(r, n), x);
    assert Dot([], x) == 0.0;
  }

  lemma OneTerm(c: real, v: Var, x: Solution)
    requires v in x && x[v] in {0, 1}
    ensures Dot([Term(c, v)], x) == if x[v] == 1 then c else 0.0
  {
    assert [Term(c, v)][..0] == [];
    assert Dot([], x) == 0.0;
    assert Val(x, v) == 0.0 || Val(x, v) == 1.0;
  }

  lemma {:induction false} ObjectiveSum(p: Problem, coeffs: Scores, x: Solution, a: Placement, k: nat)
    requires Distinct(p.nodes) && Encodes(p, x, a) && k <= |p.replicas|
    ensures Dot(ObjectiveOf(coeffs, p.replicas[..k], p.nodes), x) == ScoreSum(p.replicas[..k], coeffs, a)
  {
    if k > 0 {
      ObjectiveSum(p, coeffs, x, a, k - 1);
      ObjectivePush(p, coeffs, x, k);
      WholeRowSum(p, coeffs, x, a, p.replicas[k - 1]);
      assert p.replicas[..k][..k - 1] == p.replicas[..k - 1];
      assert p.replicas[k - 1] in p.replicas;
    }
  }

  lemma ObjectivePush(p: Problem, coeffs: Scores, x: Solution, k: nat)
    requires 0 < k <= |p.replicas|
    ensures Dot(ObjectiveOf(coeffs, p.replicas[..k], p.nodes), x)
            == Dot(ObjectiveOf(coeffs, p.replicas[..k - 1], p.nodes), x) + Dot(RowObjective(coeffs, p.replicas[k - 1], p.nodes), x)
  {
    assert p.replicas[..k][..k - 1] == p.replicas[..k - 1];
    DotAppend(ObjectiveOf(coeffs, p.replicas[..k - 1], p.nodes), RowObjective(coeffs, p.replicas[k - 1], p.nodes), x);
  }

  lemma WholeRowSum(p: Problem, coeffs: Scores, x: Solution, a: Placement, r: ReplicaKey)
    requires Distinct(p.nodes) && Encodes(p, x, a) && r in p.replicas
    ensures a[r] in p.nodes && Dot(RowObjective(coeffs, r, p.nodes), x) == Coefficient(coeffs, r, a[r])
  {
    RowObjectiveSum(p, coeffs, x, a, r, |p.nodes|);
    assert p.nodes[..|p.nodes|] == p.nodes;
  }

  /** Penalties of replicas expected on a node their score row does not cover. */
  function UncoveredPenalties(replicas: seq<ReplicaKey>, scores: Scores, penalties: Penalties,
                              current: Placement, expected: Placement): real {
    if replicas == [] then 0.0
    else
      var r := replicas[|replicas| - 1];
      UncoveredPenalties(replicas[..|replicas| - 1], scores, penalties, current, expected) +
      (if r in current && r in expected && r in scores && expected[r] !in scores[r]
       then PenaltyOf(penalties, r) else 0.0)
  }

  lemma {:induction false} PenaltiesAppend(s: seq<MoveLite>, t: seq<MoveLite>, penalties: Penalties)
    ensures MovePenalties(s + t, penalties) == MovePenalties(s, penalties) + MovePenalties(t, penalties)
  {
    if t == [] {
      assert s + t == s;
    } else {
      assert (s + t)[..|s + t| - 1] == s + t[..|t| - 1];
      PenaltiesAppend(s, t[..|t| - 1], penalties);
    }
  }

  lemma OnePenalty(mv: MoveLite, penalties: Penalties)
    ensures MovePenalties([mv], penalties) == PenaltyOf(penalties, mv.replica)
  {
    assert [mv][..0] == [];
  }

  lemma {:induction false} AdjustedSum(replicas: seq<ReplicaKey>, scores: Scores, penalties: Penalties,
                                       current: Placement, expected: Placement)
    requires forall r :: r in replicas ==> r in scores
    ensures ScoreSum(replicas, AdjustedScores(scores, penalties, current), expected)
            + UncoveredPenalties(replicas, scores, penalties, current, expected)
            == ExpectedScore(replicas, scores, penalties, current, expected)
  {
    if replicas != [] {
      var rest, r := replicas[..|replicas| - 1], replicas[|replicas| - 1];
      AdjustedSum(rest, scores, penalties, current, expected);
      if MovesReplica(current, expected, r) {
        var mv := MoveLite(r, current[r], expected[r]);
        PenaltiesAppend(MovesOf(rest, current, expected), [mv], penalties);
        OnePenalty(mv, penalties);
      } else {
        assert MovesOf(replicas, current, expected) == MovesOf(rest, current, expected);
      }
      OneAdjusted(scores, penalties, current, expected, r);
    }
  }

  lemma OneAdjusted(scores: Scores, penalties: Penalties, current: Placement, expected: Placement, r: ReplicaKey)
    requires r in scores
    ensures var adjusted := AdjustedScores(scores, penalties, current);
            r in expected ==>
              Coefficient(adjusted, r, expected[r])
              == Coefficient(scores, r, expected[r])
                 + (if MovesReplica(current, expected, r) then PenaltyOf(penalties, r) else 0.0)
                 - (if r in current && expected[r] !in scores[r] then PenaltyOf(penalties, r) else 0.0)
  {
  }

  /** The objective the solver minimises is the plan's expected score, less the penalties of replicas on
      nodes that no score row covers. */
  lemma ObjectiveIsExpectedScore(p: Problem, scores: Scores, penalties: Penalties, x: Solution)
    requires DistinctProblem(p) && Solves(p, x) && forall r :: r in p.replicas ==> r in scores
    ensures var a := Decode(p, x);
            Dot(ModelOf(p, Some(AdjustedScores(scores, penalties, p.current))).objective, x)
            + UncoveredPenalties(p.replicas, scores, penalties, p.current, a)
            == ExpectedScore(p.replicas, scores, penalties, p.current, a)
  {
    var a := Decode(p, x);
    EncodingIsSound(p, x);
    ObjectiveSum(p, AdjustedScores(scores, penalties, p.current), x, a, |p.replicas|);
    assert p.replicas[..|p.replicas|] == p.replicas;
    AdjustedSum(p.replicas, scores, penalties, p.current, a);
  }

  /** Every candidate node has a score for every replica. */
  predicate Covers(p: Problem, scores: Scores) {
    forall r, n :: r in p.replicas && n in p.nodes ==> r in scores && n in scores[r]
  }

  /** r would pay a penalty on a node its score row does not cover. */
  predicate PaysUncovered(scores: Scores, penalties: Penalties, current: Placement, a: Placement, r: ReplicaKey) {
    r in current && r in a && r in scores && a[r] !in scores[r] && PenaltyOf(penalties, r) != 0.0
  }

  lemma {:induction false} UncoveredZeroIff(replicas: seq<ReplicaKey>, scores: Scores, penalties: Penalties,
                                            current: Placement, a: Placement)
    requires forall r :: r in penalties ==> penalties[r] >= 0.0
    ensures UncoveredPenalties(replicas, scores, penalties, current, a) >= 0.0
    ensures UncoveredPenalties(replicas, scores, penalties, current, a) == 0.0 <==>
            forall r :: r in replicas ==> !PaysUncovered(scores, penalties, current, a, r)
  {
    if replicas != [] {
      var rest, last := replicas[..|replicas| - 1], replicas[|replicas| - 1];
      UncoveredZeroIff(rest, scores, penalties, current, a);
      assert replicas == rest + [last];
      assert (forall r :: r in replicas ==> !PaysUncovered(scores, penalties, current, a, r)) <==>
             (forall r :: r in rest ==> !PaysUncovered(scores, penalties, current, a, r))
             && !PaysUncovered(scores, penalties, current, a, last);
    }
  }

  /** Objective and expected score agree exactly when no replica with a penalty and a known current node is
      placed on a node its score row does not cover; a covering score matrix rules that out. */
  lemma ObjectiveAgreesIff(p: Problem, scores: Scores, penalties: Penalties, x: Solution)
    requires DistinctProblem(p) && Solves(p, x) && (forall r :: r in p.replicas ==> r in scores)
    requires forall r :: r in penalties ==> penalties[r] >= 0.0
    ensures var a := Decode(p, x);
            Dot(ModelOf(p, Some(AdjustedScores(scores, penalties, p.current))).objective, x)
              == ExpectedScore(p.replicas, scores, penalties, p.current, a)
            <==> forall r :: r in p.replicas ==> !PaysUncovered(scores, penalties, p.current, a, r)
    ensures Covers(p, scores) ==> forall r :: r in p.replicas ==> !PaysUncovered(scores, penalties, p.current, Decode(p, x), r)
  {
    ObjectiveIsExpectedScore(p, scores, penalties, x);
    UncoveredZeroIff(p.replicas, scores, penalties, p.current, Decode(p, x));
    EncodingIsSound(p, x);
  }

  const OnlyReplica := ReplicaKey("ns", "gd", 0)

  const ScoredNode := NodeId("c", "n1")

  const UnscoredNode := NodeId("c", "n2")

  /** One replica, two candidate nodes, and a context for one of them. */
  const HalfCovered := Problem(
    [OnlyReplica], [ScoredNode, UnscoredNode], map[OnlyReplica := ScoredNode],
    [NodeContext(ScoredNode, "t", "r", 1, 1)], map[], map[], Some([Goal(Migration, 1.0, "")]), 0, false, false)

  /** An accepted problem and a solution on which they disagree: moving the replica to the node without a score
      costs the objective nothing and the plan the whole penalty. */
  lemma UncoveredExample()
    ensures var r, p := OnlyReplica, HalfCovered;
            var scores, penalties := map[r := map[ScoredNode := 0.0]], map[r := 100.0];
            var x := map[Var(r, ScoredNode) := 0, Var(r, UnscoredNode) := 1];
            && WellFormed(p) && DistinctProblem(p) && Solves(p, x)
            && Dot(ModelOf(p, Some(AdjustedScores(scores, penalties, p.current))).objective, x) == 0.0
            && ExpectedScore(p.replicas, scores, penalties, p.current, Decode(p, x)) == 100.0
  {
    var r, p := OnlyReplica, HalfCovered;
    var scores, penalties := map[r := map[ScoredNode := 0.0]], map[r := 100.0];
    var x := map[Var(r, ScoredNode) := 0, Var(r, UnscoredNode) := 1];
    HalfCoveredIsAccepted();
    HalfCoveredSolution(x);
    ObjectiveIsExpectedScore(p, scores, penalties, x);
    HalfCoveredScore(scores, penalties, Decode(p, x));
  }

  lemma HalfCoveredIsAccepted()
    ensures WellFormed(HalfCovered) && DistinctProblem(HalfCovered)
  {
    assert HalfCovered.nodes[0] == ScoredNode && OnlyReplica in HalfCovered.current;
    assert ObjectiveOk(HalfCovered) && |HalfCovered.replicas| * |HalfCovered.nodes| == 2;
    assert ScoredNode.name[1] != UnscoredNode.name[1];
    assert forall res :: !Required(HalfCovered, res) by {
      forall res ensures !Required(HalfCovered, res) {
        match res
        case Cpu =>
        case Memory =>
      }
    }
  }

  lemma HalfCoveredSolution(x: Solution)
    requires x == map[Var(OnlyReplica, ScoredNode) := 0, Var(OnlyReplica, UnscoredNode) := 1]
    ensures Solves(HalfCovered, x) && Decode(HalfCovered, x) == map[OnlyReplica := UnscoredNode]
  {
    var a := map[OnlyReplica := UnscoredNode];
    assert Encodes(HalfCovered, x, a);
    HalfCoveredIsAccepted();
    assert Feasible(HalfCovered, a) by {
      FeasibleByResource(HalfCovered, a);
    }
    RowsMeanCapacity(HalfCovered, x, a);
    EncodingIsSound(HalfCovered, x);
    var b := Decode(HalfCovered, x);
    assert OnlyReplica in HalfCovered.replicas;
    assert x[Var(OnlyReplica, UnscoredNode)] == 1;
  }

  lemma HalfCoveredScore(scores: Scores, penalties: Penalties, a: Placement)
    requires scores == map[OnlyReplica := map[ScoredNode := 0.0]] && penalties == map[OnlyReplica := 100.0]
    requires a == map[OnlyReplica := UnscoredNode]
    ensures UncoveredPenalties([OnlyReplica], scores, penalties, HalfCovered.current, a) == 100.0
    ensures ExpectedScore([OnlyReplica], scores, penalties, HalfCovered.current, a) == 100.0
  {
    var rs, cur := [OnlyReplica], HalfCovered.current;
    assert ScoredNode.name[1] != UnscoredNode.name[1];
    assert Coefficient(scores, OnlyReplica, UnscoredNode) == 0.0;
    assert rs[..0] == [];
    assert UncoveredPenalties([], scores, penalties, cur, a) == 0.0 && ScoreSum([], scores, a) == 0.0;
    assert MovesOf([], cur, a) == [];
    assert MovesOf(rs, cur, a) == [MoveLite(OnlyReplica, ScoredNode, UnscoredNode)];
    OnePenalty(MoveLite(OnlyReplica, ScoredNode, UnscoredNode), penalties);
  }

  /** x is a solution of least objective. */
  ghost predicate Optimal(p: Problem, coeffs: Scores, x: Solution) {
    Solves(p, x) &&
    forall y :: Solves(p, y) ==> Dot(ModelOf(p, Some(coeffs)).objective, x) <= Dot(ModelOf(p, Some(coeffs)).objective, y)
  }

  lemma {:induction false} ExpectedDependsOn(replicas: seq<ReplicaKey>, scores: Scores, penalties: Penalties,
                                             current: Placement, a: Placement, b: Placement)
    requires forall r :: r in replicas ==> r in a && r in b && a[r] == b[r]
    ensures ScoreSum(replicas, scores, a) == ScoreSum(replicas, scores, b)
    ensures MovesOf(replicas, current, a) == MovesOf(replicas, current, b)
  {
    if replicas != [] {
      ExpectedDependsOn(replicas[..|replicas| - 1], scores, penalties, current, a, b);
    }
  }

  lemma {:induction false} CoveredHasNone(p: Problem, replicas: seq<ReplicaKey>, scores: Scores, penalties: Penalties, a: Placement)
    requires Covers(p, scores) && forall r :: r in replicas ==> r in p.replicas && (r in a ==> a[r] in p.nodes)
    ensures UncoveredPenalties(replicas, scores, penalties, p.current, a) == 0.0
  {
    if replicas != [] {
      CoveredHasNone(p, replicas[..|replicas| - 1], scores, penalties, a);
    }
  }

  lemma CoveredObjective(p: Problem, scores: Scores, penalties: Penalties, x: Solution)
    requires DistinctProblem(p) && Covers(p, scores) && Solves(p, x)
    ensures Dot(ModelOf(p, Some(AdjustedScores(scores, penalties, p.current))).objective, x)
            == ExpectedScore(p.replicas, scores, penalties, p.current, Decode(p, x))
  {
    EncodingIsSound(p, x);
    forall r | r in p.replicas ensures r in scores {
      assert Decode(p, x)[r] in p.nodes;
    }
    ObjectiveIsExpectedScore(p, scores, penalties, x);
    CoveredHasNone(p, p.replicas, scores, penalties, Decode(p, x));
  }

  /** An optimal solution's expected score is least among all feasible placements. */
  lemma OptimalIsLeast(p: Problem, scores: Scores, penalties: Penalties, x: Solution, b: Placement)
    requires DistinctProblem(p) && Covers(p, scores) && Feasible(p, b)
    requires Optimal(p, AdjustedScores(scores, penalties, p.current), x)
    ensures ExpectedScore(p.replicas, scores, penalties, p.current, Decode(p, x))
            <= ExpectedScore(p.replicas, scores, penalties, p.current, b)
  {
    var y := Encode(p, b);
    EncodingIsComplete(p, b);
    CoveredObjective(p, scores, penalties, x);
    CoveredObjective(p, scores, penalties, y);
    ExpectedDependsOn(p.replicas, scores, penalties, p.current, Decode(p, y), b);
  }

  lemma {:induction false} StayingCostsNothing(replicas: seq<ReplicaKey>, scores: Scores, penalties: Penalties, current: Placement)
    ensures ExpectedScore(replicas, scores, penalties, current, current) == CurrentScore(replicas, scores, current)
    ensures MovesOf(replicas, current, current) == []
  {
    if replicas != [] {
      StayingCostsNothing(replicas[..|replicas| - 1], scores, penalties, current);
    }
  }

  /** When the current placement is feasible, an optimal plan is never worse than doing nothing, so the
      reported improvement is the plain difference of the two scores. */
  lemma OptimalNeverWorse(p: Problem, scores: Scores, penalties: Penalties, x: Solution)
    requires DistinctProblem(p) && Covers(p, scores) && Feasible(p, p.current)
    requires Optimal(p, AdjustedScores(scores, penalties, p.current), x)
    ensures var cur := CurrentScore(p.replicas, scores, p.current);
            var exp := ExpectedScore(p.replicas, scores, penalties, p.current, Decode(p, x));
            exp <= cur && Clamped(cur - exp) == cur - exp
  {
    OptimalIsLeast(p, scores, penalties, x, p.current);
    StayingCostsNothing(p.replicas, scores, penalties, p.current);
  }

  // ------------------------------------------------------------------ moves = placement difference

  /** Carries out moves in order. */
  function Carried(a: Placement, moves: seq<MoveLite>): Placement {
    if moves == [] then a
    else Carried(a, moves[..|moves| - 1])[moves[|moves| - 1].replica := moves[|moves| - 1].destination]
  }

  lemma {:induction false} CarriedAppend(a: Placement, s: seq<MoveLite>, t: seq<MoveLite>)
    ensures Carried(a, s + t) == Carried(Carried(a, s), t)
  {
    if t == [] {
      assert s + t == s;
    } else {
      assert (s + t)[..|s + t| - 1] == s + t[..|t| - 1];
      CarriedAppend(a, s, t[..|t| - 1]);
    }
  }

  /** Carrying out the moves turns the current placement into the expected one on every replica that has
      both, and leaves every other entry alone. */
  lemma {:induction false} MovesReachExpected(replicas: seq<ReplicaKey>, current: Placement, expected: Placement)
    ensures var after := Carried(current, MovesOf(replicas, current, expected));
            && after.Keys == current.Keys
            && (forall r :: r in current ==> after[r] == if r in replicas && r in expected then expected[r] else current[r])
  {
    if replicas != [] {
      var rest, r := replicas[..|replicas| - 1], replicas[|replicas| - 1];
      MovesReachExpected(rest, current, expected);
      if MovesReplica(current, expected, r) {
        var mv := MoveLite(r, current[r], expected[r]);
        CarriedAppend(current, MovesOf(rest, current, expected), [mv]);
        assert [mv][..0] == [];
      } else {
        assert MovesOf(replicas, current, expected) == MovesOf(rest, current, expected);
      }
    }
  }

  lemma {:induction false} MovesComeFrom(replicas: seq<ReplicaKey>, current: Placement, expected: Placement)
    ensures forall mv :: mv in MovesOf(replicas, current, expected) ==>
              && mv.replica in replicas && MovesReplica(current, expected, mv.replica)
              && mv == MoveLite(mv.replica, current[mv.replica], expected[mv.replica])
    ensures forall r :: r in replicas && MovesReplica(current, expected, r) ==>
              MoveLite(r, current[r], expected[r]) in MovesOf(replicas, current, expected)
  {
    if replicas != [] {
      var rest, last := replicas[..|replicas| - 1], replicas[|replicas| - 1];
      MovesComeFrom(rest, current, expected);
      assert replicas == rest + [last];
    }
  }

  /** Each move leaves its replica's current node for a different one, no replica has two moves, and every
      replica whose placement changes has one. */
  lemma {:induction false} MovesAreTheDifference(replicas: seq<ReplicaKey>, current: Placement, expected: Placement)
    requires Distinct(replicas)
    ensures var moves := MovesOf(replicas, current, expected);
            && (forall i :: 0 <= i < |moves| ==>
                  && moves[i].replica in replicas && moves[i].replica in current && moves[i].replica in expected
                  && moves[i].source == current[moves[i].replica]
                  && moves[i].destination == expected[moves[i].replica]
                  && moves[i].source != moves[i].destination)
            && (forall i, j :: 0 <= i < j < |moves| ==> moves[i].replica != moves[j].replica)
            && (forall r :: r in replicas && MovesReplica(current, expected, r) ==>
                  MoveLite(r, current[r], expected[r]) in moves)
  {
    MovesComeFrom(replicas, current, expected);
    var all := MovesOf(replicas, current, expected);
    assert forall i :: 0 <= i < |all| ==> all[i] in all;
    if replicas != [] {
      var rest, last := replicas[..|replicas| - 1], replicas[|replicas| - 1];
      MovesAreTheDifference(rest, current, expected);
      MovesComeFrom(rest, current, expected);
      assert last !in rest;
      assert forall i :: 0 <= i < |MovesOf(rest, current, expected)| ==> MovesOf(rest, current, expected)[i].replica in rest;
    }
  }
}
