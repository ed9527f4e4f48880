/**
 A Communication goal with two nearest regions: the solver's build and the plan's build of the objective take
 different ones, and an optimal plan shows a loss that clamping turns into an improvement of zero.
 */
module TieExample {
  import opened Prelude
  import opened OptimizerTypes
  import opened ServiceCentroid
  import opened CentroidOrder
  import opened GoalScores
  import opened Objective
  import opened TwoBuilds
  import opened PlacementPipeline
  import ScoreProportion
  import ScoreBounds
  import IlpModel
  import EncodingCorrect
  import PlanMetrics

  const FirstCallee := ReplicaKey("ns", "k", 0)

  const SecondCallee := ReplicaKey("ns", "k", 1)

  const Caller := ReplicaKey("ns", "s", 0)

  const NodeA := NodeId("a", "n")

  const NodeB := NodeId("b", "n")

  const CalleeService := Service("", "k")

  const CallerService := Service("", "s")

  const Near := map["A" := map["A" := 0.0, "B" := 10.0], "B" := map["A" := 10.0, "B" := 0.0]]

  const Replicas := [FirstCallee, SecondCallee, Caller]

  const Current: Placement := map[FirstCallee := NodeA, SecondCallee := NodeB, Caller := NodeB]

  const Nodes := [NodeContext(NodeA, "t", "A", 1000, 1000), NodeContext(NodeB, "t", "B", 1000, 1000)]

  const Requests := map[FirstCallee := Quantity(1, 1), SecondCallee := Quantity(1, 1), Caller := Quantity(1, 1)]

  const Context := PluginContext(Replicas, Nodes, Requests, Current)

  const CommunicationGoal := Goal(Communication, 1.0, "")

  const Services := map[FirstCallee := CalleeService, SecondCallee := CalleeService, Caller := CallerService]

  /** A caller in region B of a service with one replica in A and one in B, and a walk over the regions. */
  function Tie(cands: seq<string>): ObjectiveInputs {
    ObjectiveInputs([CommunicationGoal], Context, map[], map[], map[CallerService := [CalleeService]], Near, Services, map[],
                    map[], map[CalleeService := Walk(Replicas, cands)])
  }

  const FromA := ["A", "B"]

  const FromB := ["B", "A"]

  // ------------------------------------------------------------------ the inputs are proper

  lemma Names()
    ensures "A" != "B" && "A" != "" && "B" != "" && NodeA != NodeB && CalleeService != CallerService
    ensures FirstCallee != SecondCallee && FirstCallee != Caller && SecondCallee != Caller
  {
    assert "A"[0] != "B"[0] && NodeA.cluster[0] != NodeB.cluster[0];
    assert CalleeService.name[0] != CallerService.name[0] && FirstCallee.name[0] != Caller.name[0];
  }

  lemma ReplicasListed()
    ensures Distinct(Replicas) && Lists(Replicas, Services.Keys) && Distinct(NodeIds(Nodes))
    ensures forall n :: n in NodeIds(Nodes) <==> n == NodeA || n == NodeB
  {
    Names();
    assert Replicas[0] == FirstCallee && Replicas[1] == SecondCallee && Replicas[2] == Caller;
    assert NodeIds(Nodes)[0] == NodeA && NodeIds(Nodes)[1] == NodeB;
  }

  lemma WalksListed()
    ensures Lists(FromA, Near.Keys) && Lists(FromB, Near.Keys)
  {
    Names();
    assert FromA[0] == "A" && FromA[1] == "B" && FromB[0] == "B" && FromB[1] == "A";
  }

  lemma TieIsProper(cands: seq<string>)
    requires cands in {FromA, FromB}
    ensures Proper(Tie(cands)) && Dependees(Tie(cands)) == {CalleeService}
  {
    ReplicasListed();
    WalksListed();
    var a := Tie(cands);
    assert CallerService in a.dependencies && a.dependencies[CallerService][0] == CalleeService;
    assert CalleeService in a.dependencies[CallerService];
    assert CalleeService in Dependees(a);
    forall dep | dep in Dependees(a) ensures dep == CalleeService {
    }
    assert ProperWalk(a.walks[CalleeService], a.services, a.regionLatency);
  }

  // ------------------------------------------------------------------ both regions are nearest

  const Whereabouts: map<ReplicaKey, string> := map[FirstCallee := "A", SecondCallee := "B", Caller := "B"]

  lemma WhereTheyAre(cands: seq<string>)
    ensures CurrentRegions(Tie(cands)) == Whereabouts
  {
    Names();
    assert Nodes[..1] == [Nodes[0]];
    assert FindNode(Nodes, NodeB) == Some(Nodes[1]);
    assert FindNode(Nodes[..1], NodeA) == Some(Nodes[0]);
    assert FindNode(Nodes, NodeA) == Some(Nodes[0]);
    var m := CurrentRegions(Tie(cands));
    assert m.Keys == Whereabouts.Keys;
    forall r | r in Whereabouts ensures m[r] == Whereabouts[r] {
      assert r == FirstCallee || r == SecondCallee || r == Caller;
    }
  }

  lemma CalleeRegions(region: map<ReplicaKey, string>)
    requires region == Whereabouts
    ensures LocatedRegions(CalleeService, region, Services, Replicas) == ["A", "B"]
  {
    Names();
    assert Replicas[..2] == [FirstCallee, SecondCallee] && Replicas[..2][..1] == [FirstCallee] && [FirstCallee][..0] == [];
    assert LocatedRegions(CalleeService, region, Services, []) == [];
    assert LocatedRegions(CalleeService, region, Services, [FirstCallee]) == ["A"];
    assert LocatedRegions(CalleeService, region, Services, Replicas[..2]) == ["A", "B"];
  }

  lemma Average(c: string)
    requires c in {"A", "B"}
    ensures Readable(Near, c, ["A", "B"]) && AverageLatency(Near, c, ["A", "B"]) == 5.0
  {
    Names();
    var both := ["A", "B"];
    forall r | r in both ensures LookupRegionLatency(Near, c, r).Ok? {
      assert r == "A" || r == "B";
    }
    assert both[..1] == ["A"] && ["A"][..0] == [];
    assert Readable(Near, c, ["A"]);
    assert TotalLatency(Near, c, []) == 0.0;
    assert TotalLatency(Near, c, ["A"]) == Near[c]["A"];
    assert TotalLatency(Near, c, both) == Near[c]["A"] + Near[c]["B"];
  }

  lemma BothAreTied()
    ensures Comparable(Near, ["A", "B"]) && Tied(Near, ["A", "B"], "A") && Tied(Near, ["A", "B"], "B")
  {
    Names();
    forall c | c in Near ensures Readable(Near, c, ["A", "B"]) && AverageLatency(Near, c, ["A", "B"]) == 5.0 {
      Average(c);
    }
  }

  /** The centroid is the region that the walk meets first. */
  lemma FirstIsCentroid(cands: seq<string>)
    requires cands in {FromA, FromB}
    ensures CentroidOf(Tie(cands), CalleeService) == Some(cands[0])
  {
    Names();
    WalksListed();
    WhereTheyAre(cands);
    CalleeRegions(CurrentRegions(Tie(cands)));
    BothAreTied();
    ScanKeepsFirst(Near, ["A", "B"], cands);
  }

  // ------------------------------------------------------------------ raw values

  lemma LatencyToCallee(cands: seq<string>, region: string)
    requires cands in {FromA, FromB} && region in {"A", "B"}
    ensures LatencyTo(Tie(cands), region, CalleeService) == Ok(if region == cands[0] then 0.0 else 10.0)
  {
    Names();
    FirstIsCentroid(cands);
  }

  lemma OneDependency(a: ObjectiveInputs, region: string, dep: Service)
    ensures DependencyCost(a, region, [dep]) == LatencyTo(a, region, dep)
  {
    assert [dep][..0] == [];
    assert DependencyCost(a, region, []) == Ok(0.0);
  }

  lemma CallerRaw(cands: seq<string>, n: NodeContext)
    requires cands in {FromA, FromB} && n in Nodes
    ensures RawValue(Tie(cands), CommunicationGoal, Caller, n) == Ok(if n.region == cands[0] then 0.0 else 10.0)
  {
    var a := Tie(cands);
    Names();
    assert n == Nodes[0] || n == Nodes[1];
    CommunicationRaw(a, CommunicationGoal, Caller, n);
    OneDependency(a, n.region, CalleeService);
    LatencyToCallee(cands, n.region);
  }

  lemma CalleeRaw(cands: seq<string>, r: ReplicaKey, n: NodeContext)
    requires r in {FirstCallee, SecondCallee}
    ensures RawValue(Tie(cands), CommunicationGoal, r, n) == Ok(0.0)
  {
    Names();
  }

  lemma TieHasInputs(cands: seq<string>)
    ensures var a := Tie(cands);
            && a.dependencies != map[] && a.regionLatency != map[] && a.services != map[] && !NothingToScore(Context)
            && forall n :: n in a.ctx.nodes ==> RegionOf(a, n) != ""
  {
    Names();
    assert CallerService in Tie(cands).dependencies && "A" in Near && Caller in Services;
    forall n | n in Nodes ensures RegionOf(Tie(cands), n) != "" {
      assert n == Nodes[0] || n == Nodes[1];
    }
  }

  lemma NothingMissing(a: ObjectiveInputs, g: Goal)
    requires g.kind == Communication && a.dependencies != map[] && a.regionLatency != map[] && a.services != map[]
    requires forall n :: n in a.ctx.nodes ==> RegionOf(a, n) != ""
    requires forall dep :: dep in Dependees(a) ==> CentroidOf(a, dep).Some?
    ensures MissingData(a, g).None?
  {
  }

  lemma TieHasData(cands: seq<string>)
    requires cands in {FromA, FromB}
    ensures MissingData(Tie(cands), CommunicationGoal).None?
  {
    TieHasInputs(cands);
    TieIsProper(cands);
    FirstIsCentroid(cands);
    NothingMissing(Tie(cands), CommunicationGoal);
  }

  lemma TieRowIsScorable(cands: seq<string>, r: ReplicaKey)
    requires cands in {FromA, FromB} && r in Replicas
    ensures RowScorable(Tie(cands), CommunicationGoal, r)
  {
    forall i | 0 <= i < |Nodes| ensures RawValue(Tie(cands), CommunicationGoal, r, Nodes[i]).Ok? {
      if r == Caller {
        CallerRaw(cands, Nodes[i]);
      } else {
        assert r == Replicas[0] || r == Replicas[1];
        CalleeRaw(cands, r, Nodes[i]);
      }
    }
  }

  lemma TieIsScorable(cands: seq<string>)
    requires cands in {FromA, FromB}
    ensures Scorable(Tie(cands), CommunicationGoal)
  {
    TieHasData(cands);
    forall r | r in Replicas ensures RowScorable(Tie(cands), CommunicationGoal, r) {
      TieRowIsScorable(cands, r);
    }
  }

  // ------------------------------------------------------------------ scores

  /** What the scoring of the tie gives, whatever build it comes from. */
  lemma TieRaws(cands: seq<string>, s: Scoring)
    requires cands in {FromA, FromB} && RawOf(Tie(cands), CommunicationGoal, s.raw)
    ensures Coefficient(s.raw, FirstCallee, NodeA) == Coefficient(s.raw, FirstCallee, NodeB) == 0.0
    ensures Coefficient(s.raw, SecondCallee, NodeA) == Coefficient(s.raw, SecondCallee, NodeB) == 0.0
    ensures Coefficient(s.raw, Caller, NodeA) == if cands == FromA then 0.0 else 10.0
    ensures Coefficient(s.raw, Caller, NodeB) == if cands == FromA then 10.0 else 0.0
  {
    Names();
    assert Replicas[0] == FirstCallee && Replicas[1] == SecondCallee && Replicas[2] == Caller;
    forall i | i in {0, 1} ensures Coefficient(s.raw, FirstCallee, Nodes[i].id) == Coefficient(s.raw, SecondCallee, Nodes[i].id) == 0.0 {
      RawCoefficient(Tie(cands), CommunicationGoal, s.raw, FirstCallee, i);
      RawCoefficient(Tie(cands), CommunicationGoal, s.raw, SecondCallee, i);
      CalleeRaw(cands, FirstCallee, Nodes[i]);
      CalleeRaw(cands, SecondCallee, Nodes[i]);
    }
    forall i | i in {0, 1} ensures Coefficient(s.raw, Caller, Nodes[i].id) == if Nodes[i].region == cands[0] then 0.0 else 10.0 {
      RawCoefficient(Tie(cands), CommunicationGoal, s.raw, Caller, i);
      CallerRaw(cands, Nodes[i]);
    }
    assert Nodes[0].id == NodeA && Nodes[1].id == NodeB;
  }

  /** A range that is attained by values 0 and 10, both of which occur. */
  lemma RangeOfTwo(ctx: PluginContext, s: Scoring, r: ReplicaKey, q: ReplicaKey, n: NodeId, m: NodeId)
    requires NormalForm(ctx.replicas, NodeIds(ctx.nodes), s.raw, s.lo, s.hi, s.part)
    requires Attained(ctx.replicas, NodeIds(ctx.nodes), s.raw, s.lo, s.hi)
    requires forall r, n {:trigger Coefficient(s.raw, r, n)} :: r in ctx.replicas && n in NodeIds(ctx.nodes) ==>
               Coefficient(s.raw, r, n) == 0.0 || Coefficient(s.raw, r, n) == 10.0
    requires r in ctx.replicas && q in ctx.replicas && n in NodeIds(ctx.nodes) && m in NodeIds(ctx.nodes)
    requires Coefficient(s.raw, r, n) == 0.0 && Coefficient(s.raw, q, m) == 10.0
    ensures s.lo == 0.0 && s.hi == 10.0
  {
  }

  lemma TieRawsAreTwo(cands: seq<string>, s: Scoring, r: ReplicaKey, n: NodeId)
    requires cands in {FromA, FromB} && RawOf(Tie(cands), CommunicationGoal, s.raw)
    requires r in Replicas && n in NodeIds(Nodes)
    ensures Coefficient(s.raw, r, n) == 0.0 || Coefficient(s.raw, r, n) == 10.0
  {
    TieRaws(cands, s);
    ReplicasListed();
    assert r == Replicas[0] || r == Replicas[1] || r == Replicas[2];
  }

  lemma TieRange(cands: seq<string>, s: Scoring)
    requires cands in {FromA, FromB} && ScoredFrom(Tie(cands), CommunicationGoal, s) && Normalised(Context, s)
    ensures s.lo == 0.0 && s.hi == 10.0
  {
    TieHasInputs(cands);
    TieRaws(cands, s);
    ReplicasListed();
    Names();
    assert Replicas[0] in Replicas && Replicas[2] in Replicas;
    forall r, n | r in Replicas && n in NodeIds(Nodes) ensures Coefficient(s.raw, r, n) == 0.0 || Coefficient(s.raw, r, n) == 10.0 {
      TieRawsAreTwo(cands, s, r, n);
    }
    RangeOfTwo(Context, s, FirstCallee, Caller, NodeA, if cands == FromA then NodeB else NodeA);
  }

  lemma TenTimes(c: real, v: real)
    requires ScoreProportion.Proportional(c, 10.0 - 0.0, 100.0 * CommunicationGoal.weight, v, 0.0)
    ensures c == 10.0 * v
  {
  }

  lemma TieScoring(cands: seq<string>, ss: seq<Scoring>, o: Objective)
    requires cands in {FromA, FromB} && BuiltFrom(Tie(cands), ss, o)
    ensures |ss| == 1 && RawOf(Tie(cands), CommunicationGoal, ss[0].raw) && ss[0].lo == 0.0 && ss[0].hi == 10.0
    ensures ObjectiveOf(Context, [CommunicationGoal], ss, o)
  {
    TieHasInputs(cands);
    ScoreProportion.SingleIsNormalised(Context, CommunicationGoal, ss, o);
    assert RawFor(Tie(cands), [CommunicationGoal][0], ss[0]);
    TieRange(cands, ss[0]);
  }

  lemma TieScore(cands: seq<string>, ss: seq<Scoring>, o: Objective, r: ReplicaKey, n: NodeId)
    requires cands in {FromA, FromB} && r in Replicas && n in {NodeA, NodeB}
    ensures BuiltFrom(Tie(cands), ss, o) ==> |ss| == 1 && Coefficient(o.scores, r, n) == 10.0 * Coefficient(ss[0].raw, r, n)
  {
    if BuiltFrom(Tie(cands), ss, o) {
      TieHasInputs(cands);
      TieScoring(cands, ss, o);
      ReplicasListed();
      ScoreProportion.SinglePair(Context, CommunicationGoal, ss, o, r, n);
      TenTimes(Coefficient(o.scores, r, n), Coefficient(ss[0].raw, r, n));
    }
  }

  /** What a build gives: the caller is drawn to the region that the walk met first, the callees stay put. */
  ghost predicate DrawnTo(o: Objective, cands: seq<string>) {
    && Coefficient(o.scores, FirstCallee, NodeA) == Coefficient(o.scores, SecondCallee, NodeB) == 0.0
    && Coefficient(o.scores, Caller, NodeA) == (if cands == FromA then 0.0 else 100.0)
    && Coefficient(o.scores, Caller, NodeB) == (if cands == FromA then 100.0 else 0.0)
    && ScoreProportion.MovesAreFree(Context, o.penalties)
  }

  lemma TieRawScores(cands: seq<string>, ss: seq<Scoring>, o: Objective)
    requires cands in {FromA, FromB} && |ss| == 1 && RawOf(Tie(cands), CommunicationGoal, ss[0].raw)
    requires ScoreProportion.MovesAreFree(Context, o.penalties)
    requires forall r, n {:trigger Coefficient(o.scores, r, n)} :: r in Replicas && n in {NodeA, NodeB} ==>
               Coefficient(o.scores, r, n) == 10.0 * Coefficient(ss[0].raw, r, n)
    ensures DrawnTo(o, cands)
  {
    assert Replicas[0] == FirstCallee && Replicas[1] == SecondCallee && Replicas[2] == Caller;
    TieRaws(cands, ss[0]);
  }

  lemma TieScores(cands: seq<string>, ss: seq<Scoring>, o: Objective)
    requires cands in {FromA, FromB} && BuiltFrom(Tie(cands), ss, o)
    ensures DrawnTo(o, cands)
  {
    TieScoring(cands, ss, o);
    ScoreProportion.SingleGoalMovesFreely(Context, CommunicationGoal, ss, o);
    forall r, n | r in Replicas && n in {NodeA, NodeB} ensures Coefficient(o.scores, r, n) == 10.0 * Coefficient(ss[0].raw, r, n) {
      TieScore(cands, ss, o, r, n);
    }
    TieRawScores(cands, ss, o);
  }

  lemma SumOfThree(scores: Scores, a: Placement)
    requires FirstCallee in a && SecondCallee in a && Caller in a
    ensures PlanMetrics.ScoreSum(Replicas, scores, a)
            == Coefficient(scores, FirstCallee, a[FirstCallee]) + Coefficient(scores, SecondCallee, a[SecondCallee])
               + Coefficient(scores, Caller, a[Caller])
  {
    assert Replicas[..2] == [FirstCallee, SecondCallee] && Replicas[..2][..1] == [FirstCallee] && [FirstCallee][..0] == [];
    assert PlanMetrics.ScoreSum([], scores, a) == 0.0;
    assert PlanMetrics.ScoreSum([FirstCallee], scores, a) == Coefficient(scores, FirstCallee, a[FirstCallee]);
  }

  /** With the callees where they are, a placement costs what the caller costs. */
  lemma CallerDecides(cands: seq<string>, o: Objective, a: Placement)
    requires cands in {FromA, FromB} && DrawnTo(o, cands)
    requires FirstCallee in a && SecondCallee in a && Caller in a && a[FirstCallee] == NodeA && a[SecondCallee] == NodeB
    ensures PlanMetrics.ScoreSum(Replicas, o.scores, a) == Coefficient(o.scores, Caller, a[Caller])
    ensures PlanMetrics.ExpectedScore(Replicas, o.scores, o.penalties, Current, a) == Coefficient(o.scores, Caller, a[Caller])
  {
    SumOfThree(o.scores, a);
    FreeScore(Context, o, a);
  }

  // ------------------------------------------------------------------ the integer program

  const TieProblem := IlpModel.Problem(
    Replicas, [NodeA, NodeB], Current, Nodes, Requests, map[NodeA := Quantity(9, 9), NodeB := Quantity(9, 9)],
    Some([CommunicationGoal]), 0, true, true)

  const Moved: Placement := Current[Caller := NodeA]

  lemma {:induction false} SmallLoad(replicas: seq<ReplicaKey>, a: Placement, n: NodeId, res: Resource)
    ensures 0 <= IlpModel.Load(TieProblem, replicas, a, n, res) <= |replicas|
  {
    if replicas != [] {
      SmallLoad(replicas[..|replicas| - 1], a, n, res);
      match res
      case Cpu =>
      case Memory =>
    }
  }

  lemma TieAccepted()
    ensures IlpModel.WellFormed(TieProblem) && Aligned(Context, TieProblem)
  {
    Names();
    ReplicasListed();
    assert TieProblem.nodes[0] == NodeA && TieProblem.nodes[1] == NodeB;
    forall res ensures IlpModel.Supplied(TieProblem, res) {
      forall r | r in Replicas ensures r in Requests {
        assert r == Replicas[0] || r == Replicas[1] || r == Replicas[2];
      }
      match res
      case Cpu =>
      case Memory =>
    }
    assert FirstCallee in Current;
    assert IlpModel.ObjectiveOk(TieProblem) && |TieProblem.replicas| * |TieProblem.nodes| == 6;
  }

  lemma TieFeasible(a: Placement)
    requires a.Keys == {FirstCallee, SecondCallee, Caller} && a.Values <= {NodeA, NodeB}
    ensures IlpModel.Feasible(TieProblem, a)
  {
    assert TieProblem.nodes[0] == NodeA && TieProblem.nodes[1] == NodeB;
    forall r | r in Replicas ensures r in a && a[r] in TieProblem.nodes {
      assert r == Replicas[0] || r == Replicas[1] || r == Replicas[2];
      assert a[r] in a.Values;
    }
    forall res, n | n in TieProblem.nodes
      ensures IlpModel.Load(TieProblem, Replicas, a, n, res) <= IlpModel.Capacity(TieProblem, n, res)
    {
      SmallLoad(Replicas, a, n, res);
      match res
      case Cpu =>
      case Memory =>
    }
  }

  lemma PlacementsAreFeasible()
    ensures IlpModel.Feasible(TieProblem, Current) && IlpModel.Feasible(TieProblem, Moved)
  {
    Names();
    TieFeasible(Current);
    assert Moved.Keys == {FirstCallee, SecondCallee, Caller};
    TieFeasible(Moved);
  }

  lemma ReadBack(p: IlpModel.Problem, a: Placement)
    requires EncodingCorrect.DistinctProblem(p) && IlpModel.Feasible(p, a) && forall r :: r in a ==> r in p.replicas
    ensures IlpModel.Solves(p, IlpModel.Encode(p, a)) && IlpModel.Decode(p, IlpModel.Encode(p, a)) == a
  {
    EncodingCorrect.EncodingIsComplete(p, a);
  }

  /** The solution that moves the caller to node A is read back as that placement. */
  lemma MovedSolution(x: IlpModel.Solution)
    requires x == IlpModel.Encode(TieProblem, Moved)
    ensures IlpModel.Solves(TieProblem, x) && IlpModel.Decode(TieProblem, x) == Moved
  {
    PlacementsAreFeasible();
    TieAccepted();
    assert Replicas[0] == FirstCallee && Replicas[1] == SecondCallee && Replicas[2] == Caller;
    ReadBack(TieProblem, Moved);
  }

  lemma ScoresNotNegative(cands: seq<string>, ss: seq<Scoring>, o: Objective, a: Placement)
    requires cands in {FromA, FromB} && BuiltFrom(Tie(cands), ss, o)
    ensures 0.0 <= PlanMetrics.ExpectedScore(Replicas, o.scores, o.penalties, Current, a)
  {
    TieIsScorable(cands);
    var inputs := Tie(cands);
    forall k | 0 <= k < |inputs.goals| ensures Acceptable(inputs, inputs.goals[k]) {
      assert inputs.goals[k] == CommunicationGoal;
    }
    ScoreBounds.ScoresInRange(inputs, ss, o, 100.0 * ScoreBounds.TotalWeight(inputs.goals), Current, a);
  }

  /** What the solver pays for a solution. */
  ghost function SolverValue(o: Objective, x: IlpModel.Solution): real {
    IlpModel.Dot(IlpModel.ModelOf(TieProblem, Some(PlanMetrics.AdjustedScores(o.scores, o.penalties, Current))).objective, x)
  }

  lemma ObjectiveNotNegative(cands: seq<string>, ss: seq<Scoring>, o: Objective, y: IlpModel.Solution)
    requires cands in {FromA, FromB} && BuiltFrom(Tie(cands), ss, o) && IlpModel.Solves(TieProblem, y)
    ensures 0.0 <= SolverValue(o, y)
  {
    TieAccepted();
    BuiltObjectiveAgrees(Context, [CommunicationGoal], ss, o, TieProblem, y);
    ScoresNotNegative(cands, ss, o, IlpModel.Decode(TieProblem, y));
  }

  lemma MoveCostsNothing(ss: seq<Scoring>, o: Objective, x: IlpModel.Solution)
    requires BuiltFrom(Tie(FromA), ss, o) && x == IlpModel.Encode(TieProblem, Moved)
    ensures IlpModel.Solves(TieProblem, x) && SolverValue(o, x) == 0.0
  {
    Names();
    TieAccepted();
    MovedSolution(x);
    TieScores(FromA, ss, o);
    CallerDecides(FromA, o, Moved);
    BuiltObjectiveAgrees(Context, [CommunicationGoal], ss, o, TieProblem, x);
  }

  /** The solver, which met region A first, finds the move optimal. */
  lemma MoveIsOptimal(ss: seq<Scoring>, o: Objective, x: IlpModel.Solution)
    requires BuiltFrom(Tie(FromA), ss, o) && x == IlpModel.Encode(TieProblem, Moved)
    ensures OptimalFor(o, TieProblem, x) && IlpModel.Decode(TieProblem, x) == Moved && SolverValue(o, x) == 0.0
  {
    MovedSolution(x);
    MoveCostsNothing(ss, o, x);
    forall y | IlpModel.Solves(TieProblem, y) ensures SolverValue(o, x) <= SolverValue(o, y) {
      ObjectiveNotNegative(FromA, ss, o, y);
    }
  }

  /** The plan, which met region B first, shows a loss, and clamping hides it. */
  lemma MoveShowsLoss(tt: seq<Scoring>, o: Objective)
    requires BuiltFrom(Tie(FromB), tt, o)
    ensures PlanMetrics.CurrentScore(Replicas, o.scores, Current) == 0.0
    ensures PlanMetrics.ExpectedScore(Replicas, o.scores, o.penalties, Current, Moved) == 100.0
  {
    Names();
    TieScores(FromB, tt, o);
    CallerDecides(FromB, o, Moved);
    CallerDecides(FromB, o, Current);
  }

  /** Both inputs can be built, and they differ only in the order of the regions. */
  lemma BothBuildsSucceed()
    ensures Reordered(Tie(FromA), Tie(FromB)) && !OrderFree(Tie(FromA))
    ensures Acceptable(Tie(FromA), CommunicationGoal) && Acceptable(Tie(FromB), CommunicationGoal)
  {
    TieIsProper(FromA);
    TieIsProper(FromB);
    TieIsScorable(FromA);
    TieIsScorable(FromB);
    if OrderFree(Tie(FromA)) {
      ScorableCarries(Tie(FromA), Tie(FromB), CommunicationGoal);
      CallerRaw(FromA, Nodes[0]);
      CallerRaw(FromB, Nodes[0]);
      assert Replicas[2] == Caller;
      Names();
      assert false;
    }
  }

  /** Whatever the two builds return: the problem is accepted and staying is feasible, moving the caller is optimal
      and costs the solver nothing; the plan shows an expected score of 100 over a current score of 0, and
      clamping shows an improvement of 0. */
  lemma TieHidesLoss(ss: seq<Scoring>, forSolver: Objective, tt: seq<Scoring>, forPlan: Objective)
    requires BuiltFrom(Tie(FromA), ss, forSolver) && BuiltFrom(Tie(FromB), tt, forPlan)
    ensures IlpModel.WellFormed(TieProblem) && Aligned(Context, TieProblem) && IlpModel.Feasible(TieProblem, Current)
    ensures var x := IlpModel.Encode(TieProblem, Moved);
            OptimalFor(forSolver, TieProblem, x) && IlpModel.Decode(TieProblem, x) == Moved && SolverValue(forSolver, x) == 0.0
    ensures var cur := PlanMetrics.CurrentScore(Replicas, forPlan.scores, Current);
            var exp := PlanMetrics.ExpectedScore(Replicas, forPlan.scores, forPlan.penalties, Current, Moved);
            cur == 0.0 && exp == 100.0 && PlanMetrics.Clamped(cur - exp) == 0.0
  {
    TieAccepted();
    PlacementsAreFeasible();
    MoveIsOptimal(ss, forSolver, IlpModel.Encode(TieProblem, Moved));
    MoveShowsLoss(tt, forPlan);
  }
}
