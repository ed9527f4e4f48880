/**
 The from/to figures shown to users: price, average latency, watts, and moves.
 */
module ReadableMetrics {
  import opened Prelude
  import opened OptimizerTypes
  import opened GoalScores
  import PlanMetrics

  datatype FromTo = FromTo(from: real, to: real)

  // ------------------------------------------------------------------ unit value of a node

  /** What a node is worth in the unit of the goal: its price, the latency of its region, or its watts per
      core.  A region without a latency has no value but is no error. */
  function NodeValue(inputs: ObjectiveInputs, g: Goal, n: NodeContext): Result<Option<real>, ObjectiveError> {
    match g.kind
    case Cost => Present(PriceOf(inputs.prices, n))
    case Energy => Present(WattsOf(inputs.power, n))
    case Latency =>
      if RegionOf(inputs, n) == "" then Err(MissingRegion(n.id))
      else if g.sourceCity !in inputs.cityLatency then Err(MissingLatencyRow)
      else if RegionOf(inputs, n) in inputs.cityLatency[g.sourceCity]
        then Ok(Some(inputs.cityLatency[g.sourceCity][RegionOf(inputs, n)]))
      else Ok(None)
    case _ => Err(UnknownGoal)
  }

  function Present(r: Result<real, ObjectiveError>): Result<Option<real>, ObjectiveError> {
    match r
    case Ok(v) => Ok(Some(v))
    case Err(e) => Err(e)
  }

  type NodeValues = map<NodeId, Option<real>>

  predicate AllValued(inputs: ObjectiveInputs, g: Goal, nodes: seq<NodeContext>) {
    forall i :: 0 <= i < |nodes| ==> NodeValue(inputs, g, nodes[i]).Ok?
  }

  /** A later node with the same id overrides an earlier one. */
  function ValuesOf(inputs: ObjectiveInputs, g: Goal, nodes: seq<NodeContext>): NodeValues
    requires AllValued(inputs, g, nodes)
  {
    if nodes == [] then map[]
    else
      var n := nodes[|nodes| - 1];
      ValuesOf(inputs, g, nodes[..|nodes| - 1])[n.id := NodeValue(inputs, g, n).value]
  }

  method BuildNodeValues(inputs: ObjectiveInputs, g: Goal, nodes: seq<NodeContext>)
    returns (values: Result<NodeValues, ObjectiveError>)
    ensures values.Ok? <==> AllValued(inputs, g, nodes)
    ensures values.Ok? ==> values.value == ValuesOf(inputs, g, nodes)
  {
    var out: NodeValues := map[];
    for i := 0 to |nodes|
      invariant AllValued(inputs, g, nodes[..i]) && out == ValuesOf(inputs, g, nodes[..i])
    {
      var v := NodeValue(inputs, g, nodes[i]);
      if v.Err? {
        return Err(v.error);
      }
      assert nodes[..i + 1][..i] == nodes[..i];
      out := out[nodes[i].id := v.value];
    }
    assert nodes[..|nodes|] == nodes;
    return Ok(out);
  }

  // ------------------------------------------------------------------ totals over a placement

  predicate Valued(values: NodeValues, a: Placement, r: ReplicaKey) {
    r in a && a[r] in values && values[a[r]].Some?
  }

  /** Watts are per core and scale with the request; the other units do not. */
  function Factor(inputs: ObjectiveInputs, g: Goal, r: ReplicaKey): real {
    if g.kind == Energy then Cores(inputs.ctx.requests, r) else 1.0
  }

  /** What every pair is worth in the unit of the goal. */
  function UnitMatrix(inputs: ObjectiveInputs, g: Goal, values: NodeValues): Scores {
    map r | r in inputs.ctx.replicas :: UnitRow(values, Factor(inputs, g, r))
  }

  function UnitRow(values: NodeValues, factor: real): map<NodeId, real> {
    map n | n in values && values[n].Some? :: values[n].value * factor
  }

  /** The unit total of a placement. */
  function UnitSum(inputs: ObjectiveInputs, g: Goal, values: NodeValues, a: Placement): real {
    PlanMetrics.ScoreSum(inputs.ctx.replicas, UnitMatrix(inputs, g, values), a)
  }

  function UnitCount(values: NodeValues, a: Placement, replicas: seq<ReplicaKey>): nat {
    if replicas == [] then 0
    else UnitCount(values, a, replicas[..|replicas| - 1]) + (if Valued(values, a, replicas[|replicas| - 1]) then 1 else 0)
  }

  /** Total over a placement, for the goals whose figure is a total. */
  method SumPlacement(inputs: ObjectiveInputs, g: Goal, values: NodeValues, a: Placement) returns (sum: real, count: nat)
    ensures sum == UnitSum(inputs, g, values, a)
    ensures count == UnitCount(values, a, inputs.ctx.replicas)
  {
    sum, count := 0.0, 0;
    var replicas := inputs.ctx.replicas;
    for i := 0 to |replicas|
      invariant sum == PlanMetrics.ScoreSum(replicas[..i], UnitMatrix(inputs, g, values), a)
      invariant count == UnitCount(values, a, replicas[..i])
    {
      var r := replicas[i];
      assert replicas[..i + 1][..i] == replicas[..i] && r in replicas;
      if r in a && a[r] in values && values[a[r]].Some? {
        sum := sum + values[a[r]].value * Factor(inputs, g, r);
        count := count + 1;
      }
    }
    assert replicas[..|replicas|] == replicas;
  }

  predicate CostReadable(inputs: ObjectiveInputs, g: Goal) {
    inputs.prices != map[] && inputs.ctx.nodes != [] && AllValued(inputs, g, inputs.ctx.nodes)
  }

  /** Total price of the current and the expected placement. */
  method ComputeCostTotal(inputs: ObjectiveInputs, g: Goal, expected: Placement) returns (out: Result<FromTo, ObjectiveError>)
    requires g.kind == Cost
    ensures out.Ok? <==> inputs.ctx.replicas == [] || CostReadable(inputs, g)
    ensures out.Ok? && inputs.ctx.replicas != [] ==>
              var values := ValuesOf(inputs, g, inputs.ctx.nodes);
              out.value == FromTo(UnitSum(inputs, g, values, inputs.ctx.current),
                                  UnitSum(inputs, g, values, expected))
    ensures out.Ok? && inputs.ctx.replicas == [] ==> out.value == FromTo(0.0, 0.0)
  {
    if inputs.ctx.replicas == [] {
      return Ok(FromTo(0.0, 0.0));
    }
    if inputs.prices == map[] || inputs.ctx.nodes == [] {
      return Err(EmptyInput);
    }
    var values := BuildNodeValues(inputs, g, inputs.ctx.nodes);
    if values.Err? {
      return Err(values.error);
    }
    var from, _ := SumPlacement(inputs, g, values.value, inputs.ctx.current);
    var to, _ := SumPlacement(inputs, g, values.value, expected);
    return Ok(FromTo(from, to));
  }

  predicate EnergyReadable(inputs: ObjectiveInputs, g: Goal) {
    inputs.power != map[] && AllValued(inputs, g, inputs.ctx.nodes)
  }

  /** Total marginal watts of the current and the expected placement; without any map of requests there is no
      such figure. */
  method ComputeEnergyTotalW(inputs: ObjectiveInputs, g: Goal, hasRequests: bool, expected: Placement)
    returns (out: Result<FromTo, ObjectiveError>)
    requires g.kind == Energy && (!hasRequests ==> inputs.ctx.requests == map[])
    ensures out.Ok? <==> inputs.ctx.replicas == [] || (hasRequests && EnergyReadable(inputs, g))
    ensures out.Ok? && inputs.ctx.replicas != [] ==>
              var values := ValuesOf(inputs, g, inputs.ctx.nodes);
              out.value == FromTo(UnitSum(inputs, g, values, inputs.ctx.current),
                                  UnitSum(inputs, g, values, expected))
    ensures out.Ok? && inputs.ctx.replicas == [] ==> out.value == FromTo(0.0, 0.0)
  {
    if inputs.ctx.replicas == [] {
      return Ok(FromTo(0.0, 0.0));
    }
    if inputs.power == map[] || !hasRequests {
      return Err(EmptyInput);
    }
    var values := BuildNodeValues(inputs, g, inputs.ctx.nodes);
    if values.Err? {
      return Err(values.error);
    }
    var from, _ := SumPlacement(inputs, g, values.value, inputs.ctx.current);
    var to, _ := SumPlacement(inputs, g, values.value, expected);
    return Ok(FromTo(from, to));
  }

  predicate LatencyReadable(inputs: ObjectiveInputs, g: Goal) {
    && g.sourceCity != "" && g.sourceCity in inputs.cityLatency && inputs.cityLatency[g.sourceCity] != map[]
    && AllValued(inputs, g, inputs.ctx.nodes)
  }

  /** The plain total when nothing was counted. */
  function Average(sum: real, count: nat): real { if count > 0 then sum / count as real else sum }

  function LatencyAverage(inputs: ObjectiveInputs, g: Goal, a: Placement): real
    requires AllValued(inputs, g, inputs.ctx.nodes)
  {
    var values := ValuesOf(inputs, g, inputs.ctx.nodes);
    Average(UnitSum(inputs, g, values, a), UnitCount(values, a, inputs.ctx.replicas))
  }

  /** Average latency over the replicas whose region has a latency. */
  method ComputeLatencyAvgMs(inputs: ObjectiveInputs, g: Goal, expected: Placement) returns (out: Result<FromTo, ObjectiveError>)
    requires g.kind == Latency
    ensures out.Ok? <==> inputs.ctx.replicas == [] || LatencyReadable(inputs, g)
    ensures out.Ok? && inputs.ctx.replicas != [] ==>
              out.value == FromTo(LatencyAverage(inputs, g, inputs.ctx.current), LatencyAverage(inputs, g, expected))
    ensures out.Ok? && inputs.ctx.replicas == [] ==> out.value == FromTo(0.0, 0.0)
  {
    if inputs.ctx.replicas == [] {
      return Ok(FromTo(0.0, 0.0));
    }
    if g.sourceCity == "" {
      return Err(NoSourceCity);
    }
    if g.sourceCity !in inputs.cityLatency || inputs.cityLatency[g.sourceCity] == map[] {
      return Err(MissingLatencyRow);
    }
    var values := BuildNodeValues(inputs, g, inputs.ctx.nodes);
    if values.Err? {
      return Err(values.error);
    }
    var from, nFrom := SumPlacement(inputs, g, values.value, inputs.ctx.current);
    var to, nTo := SumPlacement(inputs, g, values.value, expected);
    if nFrom > 0 {
      from := from / nFrom as real;
    }
    if nTo > 0 {
      to := to / nTo as real;
    }
    return Ok(FromTo(from, to));
  }

  // ------------------------------------------------------------------ moves

  /** What a read of a Cluster object gives: its trimmed name annotation and its own name. */
  datatype ClusterMeta = ClusterMeta(annotation: string, name: string)

  /** What the j-th read of a Cluster object would give; it may fail. */
  type ClusterReads = (nat, string) -> Option<ClusterMeta>

  function DisplayName(read: Option<ClusterMeta>, id: string): string {
    if read.Some? && read.value.annotation != "" then read.value.annotation
    else if read.Some? && read.value.name != "" then read.value.name
    else id
  }

  datatype PlanMove = PlanMove(move: PlanMetrics.MoveLite, sourceName: string, destinationName: string)

  /** Every cluster in names is named by one of the first j reads. */
  ghost predicate NamedByReads(names: map<string, string>, answers: ClusterReads, j: nat) {
    forall id :: id in names ==> exists k :: 0 <= k < j && names[id] == DisplayName(answers(k, id), id)
  }

  predicate ShowsName(pm: PlanMove, names: map<string, string>) {
    var from, to := pm.move.source.cluster, pm.move.destination.cluster;
    from in names && to in names && pm.sourceName == names[from] && pm.destinationName == names[to]
  }

  /** A cluster is read once and then keeps its name. */
  method GetClusterName(names: map<string, string>, answers: ClusterReads, j: nat, id: string)
    returns (name: string, names1: map<string, string>, j1: nat)
    requires NamedByReads(names, answers, j)
    ensures NamedByReads(names1, answers, j1) && id in names1 && name == names1[id]
    ensures forall c :: c in names ==> c in names1 && names1[c] == names[c]
  {
    if id in names {
      return names[id], names, j;
    }
    name := DisplayName(answers(j, id), id);
    names1, j1 := names[id := name], j + 1;
    forall c | c in names1 ensures exists k :: 0 <= k < j1 && names1[c] == DisplayName(answers(k, c), c) {
      if c == id {
        assert names1[c] == DisplayName(answers(j, c), c);
      }
    }
  }

  function Bare(moves: seq<PlanMove>): (bare: seq<PlanMetrics.MoveLite>)
    ensures |bare| == |moves| && forall i :: 0 <= i < |moves| ==> bare[i] == moves[i].move
  {
    seq(|moves|, i requires 0 <= i < |moves| => moves[i].move)
  }

  predicate AllNamed(moves: seq<PlanMove>, names: map<string, string>) {
    forall i :: 0 <= i < |moves| ==> ShowsName(moves[i], names)
  }

  /** One move named, whatever is named already. */
  method NameMove(mv: PlanMetrics.MoveLite, names: map<string, string>, answers: ClusterReads, j: nat, ghost moves: seq<PlanMove>)
    returns (pm: PlanMove, names1: map<string, string>, j1: nat)
    requires NamedByReads(names, answers, j) && AllNamed(moves, names)
    ensures NamedByReads(names1, answers, j1) && AllNamed(moves + [pm], names1) && pm.move == mv
  {
    var source, destination;
    source, names1, j1 := GetClusterName(names, answers, j, mv.source.cluster);
    destination, names1, j1 := GetClusterName(names1, answers, j1, mv.destination.cluster);
    pm := PlanMove(mv, source, destination);
  }

  lemma MovesPush(stable: seq<ReplicaKey>, i: nat, current: Placement, assignment: Placement, moves: seq<PlanMove>, pm: PlanMove)
    requires i < |stable| && Bare(moves) == PlanMetrics.MovesOf(stable[..i], current, assignment)
    ensures var r := stable[i];
            if PlanMetrics.MovesReplica(current, assignment, r)
            then pm.move == PlanMetrics.MoveLite(r, current[r], assignment[r]) ==>
                   Bare(moves + [pm]) == PlanMetrics.MovesOf(stable[..i + 1], current, assignment)
            else Bare(moves) == PlanMetrics.MovesOf(stable[..i + 1], current, assignment)
  {
    assert stable[..i + 1][..i] == stable[..i];
    assert Bare(moves + [pm]) == Bare(moves) + [pm.move];
  }

  /** The moves a plan is given, one per stable replica whose assignment differs from its current node, with
      the clusters' display names.  Whatever the reads give, a cluster has one name throughout the plan. */
  method GenerateMoves(stable: seq<ReplicaKey>, current: Placement, assignment: Placement, answers: ClusterReads)
    returns (moves: seq<PlanMove>, names: map<string, string>, ghost count: nat)
    ensures Bare(moves) == PlanMetrics.MovesOf(stable, current, assignment)
    ensures AllNamed(moves, names) && NamedByReads(names, answers, count)
  {
    moves, names := [], map[];
    var j := 0;
    for i := 0 to |stable|
      invariant Bare(moves) == PlanMetrics.MovesOf(stable[..i], current, assignment)
      invariant AllNamed(moves, names) && NamedByReads(names, answers, j)
    {
      var r := stable[i];
      if r !in current || r !in assignment || current[r] == assignment[r] {
        MovesPush(stable, i, current, assignment, moves, PlanMove(PlanMetrics.MoveLite(r, NodeId("", ""), NodeId("", "")), "", ""));
        continue;
      }
      var pm;
      pm, names, j := NameMove(PlanMetrics.MoveLite(r, current[r], assignment[r]), names, answers, j, moves);
      MovesPush(stable, i, current, assignment, moves, pm);
      moves := moves + [pm];
    }
    assert stable[..|stable|] == stable;
    count := j;
  }

  /** The Migration figure counts exactly the moves of the plan. */
  method ComputeMigrationMoves(inputs: ObjectiveInputs, expected: Placement) returns (out: FromTo)
    ensures out == FromTo(0.0, |PlanMetrics.MovesOf(inputs.ctx.replicas, inputs.ctx.current, expected)| as real)
  {
    var moves, replicas := 0, inputs.ctx.replicas;
    for i := 0 to |replicas|
      invariant moves == |PlanMetrics.MovesOf(replicas[..i], inputs.ctx.current, expected)|
    {
      var r := replicas[i];
      assert replicas[..i + 1][..i] == replicas[..i];
      if r in inputs.ctx.current && r in expected && inputs.ctx.current[r] != expected[r] {
        moves := moves + 1;
      }
    }
    assert replicas[..|replicas|] == replicas;
    return FromTo(0.0, moves as real);
  }

  // ------------------------------------------------------------------ the figures on the fields

  /** What a replica adds to a figure under a placement: the value of its node, for Energy times the cores it requests;
      nothing when it is not placed, or on a node without a value. */
  function Worth(inputs: ObjectiveInputs, g: Goal, values: NodeValues, a: Placement): ReplicaKey -> real {
    r =>
      if r in a && a[r] in values && values[a[r]].Some? then
        if g.kind != Energy then values[a[r]].value
        else if r in inputs.ctx.requests then values[a[r]].value * (inputs.ctx.requests[r].cpu as real / 1000.0)
        else 0.0
      else 0.0
  }

  lemma WorthAt(inputs: ObjectiveInputs, g: Goal, values: NodeValues, a: Placement, r: ReplicaKey)
    requires r in inputs.ctx.replicas
    ensures Worth(inputs, g, values, a)(r) == if r in a then Coefficient(UnitMatrix(inputs, g, values), r, a[r]) else 0.0
  {
  }

  lemma {:induction false} SumsOfWorth(inputs: ObjectiveInputs, g: Goal, values: NodeValues, a: Placement, k: nat)
    requires k <= |inputs.ctx.replicas|
    ensures PlanMetrics.ScoreSum(inputs.ctx.replicas[..k], UnitMatrix(inputs, g, values), a)
            == RealSum(inputs.ctx.replicas[..k], Worth(inputs, g, values, a))
  {
    if k > 0 {
      var replicas := inputs.ctx.replicas;
      SumsOfWorth(inputs, g, values, a, k - 1);
      assert replicas[..k][..k - 1] == replicas[..k - 1] && replicas[k - 1] in replicas;
      WorthAt(inputs, g, values, a, replicas[k - 1]);
    }
  }

  /** The replicas that are placed on a node with a value. */
  function Counted(values: NodeValues, a: Placement, replicas: seq<ReplicaKey>): set<ReplicaKey> {
    set r | r in replicas && r in a && a[r] in values && values[a[r]].Some?
  }

  lemma {:induction false} CountIsCardinality(values: NodeValues, a: Placement, replicas: seq<ReplicaKey>)
    requires Distinct(replicas)
    ensures UnitCount(values, a, replicas) == |Counted(values, a, replicas)|
  {
    if replicas != [] {
      var rest, r := replicas[..|replicas| - 1], replicas[|replicas| - 1];
      CountIsCardinality(values, a, rest);
      assert replicas == rest + [r] && r !in rest;
      assert Counted(values, a, replicas) == if Valued(values, a, r) then Counted(values, a, rest) + {r} else Counted(values, a, rest);
    }
  }

  /** avg is the average of n values that add up to sum; with no values it is the sum. */
  predicate IsAverage(avg: real, sum: real, n: nat) {
    if n == 0 then avg == sum else avg * n as real == sum
  }

  lemma AverageIs(sum: real, count: nat)
    ensures IsAverage(Average(sum, count), sum, count)
  {
  }

  lemma SumIsWorth(inputs: ObjectiveInputs, g: Goal, values: NodeValues, a: Placement)
    ensures UnitSum(inputs, g, values, a) == RealSum(inputs.ctx.replicas, Worth(inputs, g, values, a))
  {
    SumsOfWorth(inputs, g, values, a, |inputs.ctx.replicas|);
    assert inputs.ctx.replicas[..|inputs.ctx.replicas|] == inputs.ctx.replicas;
  }

  /** A figure adds up what its replicas are worth; the latency average is their sum divided by how many have one. */
  lemma FiguresExactly(inputs: ObjectiveInputs, g: Goal, a: Placement)
    requires AllValued(inputs, g, inputs.ctx.nodes)
    ensures var values := ValuesOf(inputs, g, inputs.ctx.nodes);
            UnitSum(inputs, g, values, a) == RealSum(inputs.ctx.replicas, Worth(inputs, g, values, a))
    ensures Distinct(inputs.ctx.replicas) ==>
              var values := ValuesOf(inputs, g, inputs.ctx.nodes);
              IsAverage(LatencyAverage(inputs, g, a), RealSum(inputs.ctx.replicas, Worth(inputs, g, values, a)),
                        |Counted(values, a, inputs.ctx.replicas)|)
  {
    var values := ValuesOf(inputs, g, inputs.ctx.nodes);
    SumIsWorth(inputs, g, values, a);
    if Distinct(inputs.ctx.replicas) {
      CountIsCardinality(values, a, inputs.ctx.replicas);
      AverageIs(UnitSum(inputs, g, values, a), UnitCount(values, a, inputs.ctx.replicas));
    }
  }

  /** What a node is worth: the price of its instance type, whatever its sign; the latency from the city to its region,
      which may be missing; the watts that a replica requesting one core would be scored with. */
  lemma NodeValueExactly(inputs: ObjectiveInputs, g: Goal, n: NodeContext, r: ReplicaKey)
    ensures g.kind == Cost ==>
              (NodeValue(inputs, g, n).Ok? <==> n.instanceType != "" && n.instanceType in inputs.prices)
              && (NodeValue(inputs, g, n).Ok? ==> NodeValue(inputs, g, n).value == Some(inputs.prices[n.instanceType]))
    ensures g.kind == Latency && g.sourceCity in inputs.cityLatency ==>
              var region, row := (if n.id in inputs.nodeRegion then inputs.nodeRegion[n.id] else n.region), inputs.cityLatency[g.sourceCity];
              (NodeValue(inputs, g, n).Ok? <==> region != "")
              && (NodeValue(inputs, g, n).Ok? ==> NodeValue(inputs, g, n).value == if region in row then Some(row[region]) else None)
    ensures g.kind == Energy && r in inputs.ctx.requests && inputs.ctx.requests[r].cpu == 1000 ==>
              (NodeValue(inputs, g, n).Ok? <==> RawValue(inputs, g, r, n).Ok?)
              && (NodeValue(inputs, g, n).Ok? ==> NodeValue(inputs, g, n).value == Some(RawValue(inputs, g, r, n).value))
  {
  }

  /** A cluster is shown by its annotation, else by its name, else by its ID. */
  lemma ShownByName(annotation: string, name: string, id: string)
    ensures annotation != "" ==> DisplayName(Some(ClusterMeta(annotation, name)), id) == annotation
    ensures annotation == "" && name != "" ==> DisplayName(Some(ClusterMeta(annotation, name)), id) == name
    ensures annotation == "" && name == "" ==> DisplayName(Some(ClusterMeta(annotation, name)), id) == id
    ensures DisplayName(None, id) == id
  {
  }

  /** When the figures can be told at all. */
  lemma ReadableExactly(inputs: ObjectiveInputs, g: Goal, r: ReplicaKey)
    ensures g.kind == Cost ==>
              (CostReadable(inputs, g) <==>
               && inputs.prices != map[] && inputs.ctx.nodes != []
               && forall n :: n in inputs.ctx.nodes ==> n.instanceType != "" && n.instanceType in inputs.prices)
    ensures g.kind == Energy && r in inputs.ctx.requests && inputs.ctx.requests[r].cpu > 0 ==>
              (EnergyReadable(inputs, g) <==> inputs.power != map[] && forall n :: n in inputs.ctx.nodes ==> RawValue(inputs, g, r, n).Ok?)
    ensures g.kind == Latency ==>
              (LatencyReadable(inputs, g) <==>
               && g.sourceCity != "" && g.sourceCity in inputs.cityLatency && inputs.cityLatency[g.sourceCity] != map[]
               && forall n :: n in inputs.ctx.nodes ==> (if n.id in inputs.nodeRegion then inputs.nodeRegion[n.id] else n.region) != "")
  {
    AllValuedByNode(inputs, g);
    if g.kind == Latency && g.sourceCity in inputs.cityLatency {
      forall n ensures NodeValue(inputs, g, n).Ok? <==> (if n.id in inputs.nodeRegion then inputs.nodeRegion[n.id] else n.region) != "" {
      }
    }
  }

  lemma AllValuedByNode(inputs: ObjectiveInputs, g: Goal)
    ensures AllValued(inputs, g, inputs.ctx.nodes) <==> forall n :: n in inputs.ctx.nodes ==> NodeValue(inputs, g, n).Ok?
  {
    if AllValued(inputs, g, inputs.ctx.nodes) {
      forall n | n in inputs.ctx.nodes ensures NodeValue(inputs, g, n).Ok? {
        var i :| 0 <= i < |inputs.ctx.nodes| && inputs.ctx.nodes[i] == n;
      }
    }
  }
}
