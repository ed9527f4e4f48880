/**
 The integer program: which problems are accepted, the rows built for them, and how a 0/1 solution is read
 back as an assignment.
 */
module IlpModel {
  import opened Prelude
  import opened OptimizerTypes

  datatype Problem = Problem(
    replicas: seq<ReplicaKey>,
    nodes: seq<NodeId>,
    current: Placement,
    contexts: seq<NodeContext>,
    requests: map<ReplicaKey, Quantity>,
    capacities: map<NodeId, Quantity>,
    goals: Option<seq<Goal>>,        // the objective, when there is one
    maximumVariables: int,
    requireCpu: bool,
    requireMemory: bool)

  function Amount(q: Quantity, res: Resource): int {
    match res
    case Cpu => q.cpu
    case Memory => q.memory
  }

  predicate Required(p: Problem, res: Resource) {
    match res
    case Cpu => p.requireCpu
    case Memory => p.requireMemory
  }

  const DEFAULT_MAXIMUM_VARIABLES := 10_000

  // ------------------------------------------------------------------ accepted problems

  datatype ModelError =
    | NoNodes | TooManyVariables(vars: int, limit: int)
    | MissingRequest(r: ReplicaKey) | InvalidRequest(r: ReplicaKey)
    | MissingCapacity(n: NodeId) | InvalidCapacity(n: NodeId)
    | NoContexts | ForeignContext(n: NodeId) | NoCurrentPlacement

  datatype Counts = Counts(vars: nat, constraints: nat)

  function Limit(p: Problem): int {
    if p.maximumVariables <= 0 then DEFAULT_MAXIMUM_VARIABLES else p.maximumVariables
  }

  /** Every replica has a positive request and every node a positive capacity of this resource. */
  predicate Supplied(p: Problem, res: Resource) {
    && (forall r :: r in p.replicas ==> r in p.requests && Amount(p.requests[r], res) > 0)
    && (forall n :: n in p.nodes ==> n in p.capacities && Amount(p.capacities[n], res) > 0)
  }

  predicate ObjectiveOk(p: Problem) {
    p.goals.Some? ==>
      && p.contexts != []
      && (forall i :: 0 <= i < |p.contexts| ==> p.contexts[i].id in p.nodes)
      && (forall g :: g in p.goals.value && g.weight != 0.0 && g.kind == Migration ==> p.current != map[])
  }

  predicate WellFormed(p: Problem) {
    p.replicas == [] ||
    (&& p.nodes != []
     && |p.replicas| * |p.nodes| <= Limit(p)
     && (forall res :: Required(p, res) ==> Supplied(p, res))
     && ObjectiveOk(p))
  }

  method CheckResource(p: Problem, res: Resource) returns (err: Option<ModelError>)
    ensures err.None? <==> Supplied(p, res)
  {
    for i := 0 to |p.replicas|
      invariant forall k :: 0 <= k < i ==> p.replicas[k] in p.requests && Amount(p.requests[p.replicas[k]], res) > 0
    {
      var r := p.replicas[i];
      if r !in p.requests {
        return Some(MissingRequest(r));
      }
      if Amount(p.requests[r], res) <= 0 {
        return Some(InvalidRequest(r));
      }
    }
    for j := 0 to |p.nodes|
      invariant forall k :: 0 <= k < j ==> p.nodes[k] in p.capacities && Amount(p.capacities[p.nodes[k]], res) > 0
    {
      var n := p.nodes[j];
      if n !in p.capacities {
        return Some(MissingCapacity(n));
      }
      if Amount(p.capacities[n], res) <= 0 {
        return Some(InvalidCapacity(n));
      }
    }
    return None;
  }

  method CheckObjective(p: Problem) returns (err: Option<ModelError>)
    ensures err.None? <==> ObjectiveOk(p)
  {
    if p.goals.None? {
      return None;
    }
    if p.contexts == [] {
      return Some(NoContexts);
    }
    for i := 0 to |p.contexts|
      invariant forall k :: 0 <= k < i ==> p.contexts[k].id in p.nodes
    {
      if p.contexts[i].id !in p.nodes {
        return Some(ForeignContext(p.contexts[i].id));
      }
    }
    var goals := p.goals.value;
    for i := 0 to |goals|
      invariant forall k :: 0 <= k < i && goals[k].weight != 0.0 && goals[k].kind == Migration ==> p.current != map[]
    {
      if goals[i].weight != 0.0 && goals[i].kind == Migration && p.current == map[] {
        return Some(NoCurrentPlacement);
      }
    }
    return None;
  }

  /** Accepts exactly the well-formed problems, with the size of the model that Compile builds for them. */
  method BuildIlpModel(p: Problem) returns (r: Result<Counts, ModelError>)
    ensures r.Ok? <==> WellFormed(p)
    ensures r.Ok? && p.replicas != [] ==> r.value == Counts(|Variables(p)|, |Rows(p)|)
    ensures p.replicas == [] ==> r == Ok(Counts(0, 0))
    ensures r.Ok? && p.replicas != [] ==>
              && r.value.vars == |p.replicas| * |p.nodes|
              && r.value.constraints ==
                 |p.replicas| + (if p.requireCpu then |p.nodes| else 0) + (if p.requireMemory then |p.nodes| else 0)
  {
    if p.replicas == [] {
      return Ok(Counts(0, 0));
    }
    if p.nodes == [] {
      return Err(NoNodes);
    }
    var vars := |p.replicas| * |p.nodes|;
    if vars > Limit(p) {
      return Err(TooManyVariables(vars, Limit(p)));
    }
    assert Required(p, Cpu) == p.requireCpu && Required(p, Memory) == p.requireMemory;
    if p.requireCpu {
      var err := CheckResource(p, Cpu);
      if err.Some? {
        return Err(err.value);
      }
    }
    if p.requireMemory {
      var err := CheckResource(p, Memory);
      if err.Some? {
        return Err(err.value);
      }
    }
    var err := CheckObjective(p);
    if err.Some? {
      return Err(err.value);
    }
    assert forall res :: Required(p, res) ==> Supplied(p, res) by {
      forall res | Required(p, res) ensures Supplied(p, res) {
        match res
        case Cpu =>
        case Memory =>
      }
    }
    var constraints := |p.replicas|;
    if p.requireCpu {
      constraints := constraints + |p.nodes|;
    }
    if p.requireMemory {
      constraints := constraints + |p.nodes|;
    }
    VariableCount(p.replicas, p.nodes);
    return Ok(Counts(vars, constraints));
  }

  // ------------------------------------------------------------------ the model

  datatype Var = Var(r: ReplicaKey, n: NodeId)

  datatype Term = Term(coeff: real, v: Var)

  /** lo <= sum of the terms <= hi; no lo means minus infinity. */
  datatype Row = Row(lo: Option<real>, hi: real, terms: seq<Term>)

  datatype Model = Model(vars: seq<Var>, objective: seq<Term>, rows: seq<Row>)

  type Solution = map<Var, int>

  function RowVariables(r: ReplicaKey, nodes: seq<NodeId>): (vs: seq<Var>)
    ensures |vs| == |nodes|
  {
    seq(|nodes|, j requires 0 <= j < |nodes| => Var(r, nodes[j]))
  }

  function VariablesOf(replicas: seq<ReplicaKey>, nodes: seq<NodeId>): seq<Var> {
    if replicas == [] then []
    else VariablesOf(replicas[..|replicas| - 1], nodes) + RowVariables(replicas[|replicas| - 1], nodes)
  }

  function Variables(p: Problem): seq<Var> { VariablesOf(p.replicas, p.nodes) }

  lemma {:induction false} VariableCount(replicas: seq<ReplicaKey>, nodes: seq<NodeId>)
    ensures |VariablesOf(replicas, nodes)| == |replicas| * |nodes|
    ensures forall v :: v in VariablesOf(replicas, nodes) <==> v.r in replicas && v.n in nodes
  {
    if replicas != [] {
      var rest, r := replicas[..|replicas| - 1], replicas[|replicas| - 1];
      VariableCount(rest, nodes);
      assert |replicas| * |nodes| == |rest| * |nodes| + |nodes|;
      forall v: Var | v.r == r && v.n in nodes ensures v in RowVariables(r, nodes) {
        var j :| 0 <= j < |nodes| && nodes[j] == v.n;
        assert RowVariables(r, nodes)[j] == v;
      }
    }
  }

  /** Each replica is placed exactly once. */
  function AssignmentRow(p: Problem, r: ReplicaKey): Row {
    Row(Some(1.0), 1.0, seq(|p.nodes|, j requires 0 <= j < |p.nodes| => Term(1.0, Var(r, p.nodes[j]))))
  }

  function Demand(p: Problem, r: ReplicaKey, res: Resource): int {
    if r in p.requests then Amount(p.requests[r], res) else 0
  }

  function Capacity(p: Problem, n: NodeId, res: Resource): int {
    if n in p.capacities then Amount(p.capacities[n], res) else 0
  }

  /** The requests placed on a node stay within its capacity. */
  function CapacityRow(p: Problem, n: NodeId, res: Resource): Row {
    Row(None, Capacity(p, n, res) as real,
        seq(|p.replicas|, i requires 0 <= i < |p.replicas| =>
          Term(Demand(p, p.replicas[i], res) as real, Var(p.replicas[i], n))))
  }

  function CapacityRows(p: Problem, res: Resource): seq<Row> {
    if Required(p, res) then seq(|p.nodes|, j requires 0 <= j < |p.nodes| => CapacityRow(p, p.nodes[j], res)) else []
  }

  function Rows(p: Problem): seq<Row> {
    seq(|p.replicas|, i requires 0 <= i < |p.replicas| => AssignmentRow(p, p.replicas[i]))
    + CapacityRows(p, Cpu) + CapacityRows(p, Memory)
  }

  /** Objective terms of one replica; zero coefficients are not set. */
  function RowObjective(coeffs: Scores, r: ReplicaKey, nodes: seq<NodeId>): seq<Term> {
    if nodes == [] then []
    else
      var n := nodes[|nodes| - 1];
      var c := Coefficient(coeffs, r, n);
      RowObjective(coeffs, r, nodes[..|nodes| - 1]) + (if c == 0.0 then [] else [Term(c, Var(r, n))])
  }

  function ObjectiveOf(coeffs: Scores, replicas: seq<ReplicaKey>, nodes: seq<NodeId>): seq<Term> {
    if replicas == [] then []
    else
      ObjectiveOf(coeffs, replicas[..|replicas| - 1], nodes) + RowObjective(coeffs, replicas[|replicas| - 1], nodes)
  }

  /** The model for coefficients coeffs (none when there is no objective). */
  function ModelOf(p: Problem, coeffs: Option<Scores>): Model {
    Model(Variables(p),
          if coeffs.Some? then ObjectiveOf(coeffs.value, p.replicas, p.nodes) else [],
          Rows(p))
  }

  method CompileCapacity(p: Problem, res: Resource) returns (rows: seq<Row>)
    requires Supplied(p, res)
    ensures rows == seq(|p.nodes|, j requires 0 <= j < |p.nodes| => CapacityRow(p, p.nodes[j], res))
  {
    rows := [];
    for j := 0 to |p.nodes|
      invariant |rows| == j
      invariant forall k :: 0 <= k < j ==> rows[k] == CapacityRow(p, p.nodes[k], res)
    {
      var n := p.nodes[j];
      var row := Row(None, Amount(p.capacities[n], res) as real, []);
      for i := 0 to |p.replicas|
        invariant row.lo == None && row.hi == Capacity(p, n, res) as real
        invariant row.terms == CapacityRow(p, n, res).terms[..i]
      {
        var r := p.replicas[i];
        row := row.(terms := row.terms + [Term(Amount(p.requests[r], res) as real, Var(r, n))]);
      }
      rows := rows + [row];
    }
  }

  method CompileVariables(replicas: seq<ReplicaKey>, nodes: seq<NodeId>) returns (vars: seq<Var>)
    ensures vars == VariablesOf(replicas, nodes)
  {
    vars := [];
    for i := 0 to |replicas|
      invariant vars == VariablesOf(replicas[..i], nodes)
    {
      assert replicas[..i + 1][..i] == replicas[..i];
      for j := 0 to |nodes|
        invariant vars == VariablesOf(replicas[..i], nodes) + RowVariables(replicas[i], nodes)[..j]
      {
        vars := vars + [Var(replicas[i], nodes[j])];
      }
    }
    assert replicas[..|replicas|] == replicas;
  }

  method CompileAssignment(p: Problem) returns (rows: seq<Row>)
    ensures rows == seq(|p.replicas|, i requires 0 <= i < |p.replicas| => AssignmentRow(p, p.replicas[i]))
  {
    rows := [];
    for i := 0 to |p.replicas|
      invariant |rows| == i && forall k :: 0 <= k < i ==> rows[k] == AssignmentRow(p, p.replicas[k])
    {
      var row := Row(Some(1.0), 1.0, []);
      for j := 0 to |p.nodes|
        invariant row.lo == Some(1.0) && row.hi == 1.0 && row.terms == AssignmentRow(p, p.replicas[i]).terms[..j]
      {
        row := row.(terms := row.terms + [Term(1.0, Var(p.replicas[i], p.nodes[j]))]);
      }
      rows := rows + [row];
    }
  }

  method Compile(p: Problem, coeffs: Option<Scores>) returns (m: Model)
    requires WellFormed(p) && p.replicas != []
    ensures m == ModelOf(p, coeffs)
  {
    var vars := CompileVariables(p.replicas, p.nodes);
    var objective: seq<Term> := [];
    if coeffs.Some? {
      objective := CompileObjective(coeffs.value, p.replicas, p.nodes);
    }
    var rows := CompileAssignment(p);
    assert Required(p, Cpu) == p.requireCpu && Required(p, Memory) == p.requireMemory;
    var cpu, memory: seq<Row> := [], [];
    if p.requireCpu {
      cpu := CompileCapacity(p, Cpu);
    }
    if p.requireMemory {
      memory := CompileCapacity(p, Memory);
    }
    m := Model(vars, objective, rows + cpu + memory);
  }

  method CompileObjective(coeffs: Scores, replicas: seq<ReplicaKey>, nodes: seq<NodeId>) returns (objective: seq<Term>)
    ensures objective == ObjectiveOf(coeffs, replicas, nodes)
  {
    objective := [];
    for i := 0 to |replicas|
      invariant objective == ObjectiveOf(coeffs, replicas[..i], nodes)
    {
      assert replicas[..i + 1][..i] == replicas[..i];
      for j := 0 to |nodes|
        invariant objective == ObjectiveOf(coeffs, replicas[..i], nodes) + RowObjective(coeffs, replicas[i], nodes[..j])
      {
        assert nodes[..j + 1][..j] == nodes[..j];
        var c := Coefficient(coeffs, replicas[i], nodes[j]);
        if c != 0.0 {
          objective := objective + [Term(c, Var(replicas[i], nodes[j]))];
        }
      }
      assert nodes[..|nodes|] == nodes;
    }
    assert replicas[..|replicas|] == replicas;
  }

  // ------------------------------------------------------------------ what a solution satisfies

  function Val(x: Solution, v: Var): real {
    if v in x then x[v] as real else 0.0
  }

  function Dot(terms: seq<Term>, x: Solution): real {
    if terms == [] then 0.0
    else Dot(terms[..|terms| - 1], x) + terms[|terms| - 1].coeff * Val(x, terms[|terms| - 1].v)
  }

  predicate RowHolds(row: Row, x: Solution) {
    (row.lo.Some? ==> row.lo.value <= Dot(row.terms, x)) && Dot(row.terms, x) <= row.hi
  }

  predicate AllHold(rows: seq<Row>, x: Solution) {
    forall i :: 0 <= i < |rows| ==> RowHolds(rows[i], x)
  }

  predicate Binary(p: Problem, x: Solution) {
    forall r, n :: r in p.replicas && n in p.nodes ==> Var(r, n) in x && x[Var(r, n)] in {0, 1}
  }

  /** A 0/1 solution of the rows. */
  predicate Solves(p: Problem, x: Solution) {
    Binary(p, x) && AllHold(Rows(p), x)
  }

  /** The total demand an assignment puts on a node. */
  function Load(p: Problem, replicas: seq<ReplicaKey>, a: Placement, n: NodeId, res: Resource): int {
    if replicas == [] then 0
    else
      var r := replicas[|replicas| - 1];
      Load(p, replicas[..|replicas| - 1], a, n, res) + (if r in a && a[r] == n then Demand(p, r, res) else 0)
  }

  predicate Total(p: Problem, a: Placement) {
    forall r :: r in p.replicas ==> r in a && a[r] in p.nodes
  }

  /** The placement problem itself: every replica on a candidate node, every required capacity kept. */
  predicate Feasible(p: Problem, a: Placement) {
    && Total(p, a)
    && forall res, n :: Required(p, res) && n in p.nodes ==> Load(p, p.replicas, a, n, res) <= Capacity(p, n, res)
  }

  /** x has a one exactly where a places. */
  predicate Encodes(p: Problem, x: Solution, a: Placement) {
    && Total(p, a)
    && forall r, n :: r in p.replicas && n in p.nodes ==> Var(r, n) in x && x[Var(r, n)] == if a[r] == n then 1 else 0
  }

  function Encode(p: Problem, a: Placement): Solution {
    map v | v in set r, n | r in p.replicas && n in p.nodes :: Var(r, n) :: if v.r in a && a[v.r] == v.n then 1 else 0
  }

  /** The first node whose variable is set. */
  function FirstChosen(x: Solution, r: ReplicaKey, nodes: seq<NodeId>): Option<NodeId> {
    if nodes == [] then None
    else
      var before := FirstChosen(x, r, nodes[..|nodes| - 1]);
      var n := nodes[|nodes| - 1];
      if before.Some? then before
      else if Val(x, Var(r, n)) >= 0.5 then Some(n)
      else None
  }

  function Decode(p: Problem, x: Solution): Placement {
    map r | r in p.replicas && FirstChosen(x, r, p.nodes).Some? :: FirstChosen(x, r, p.nodes).value
  }

  /** Reads the assignment off a solution; None when some replica has no chosen node. */
  method Extract(p: Problem, x: Solution) returns (a: Option<Placement>)
    ensures a.Some? <==> forall r :: r in p.replicas ==> FirstChosen(x, r, p.nodes).Some?
    ensures a.Some? ==> a.value == Decode(p, x)
  {
    var out: Placement := map[];
    for i := 0 to |p.replicas|
      invariant forall r :: r in out <==> r in p.replicas[..i]
      invariant forall r :: r in p.replicas[..i] ==> Some(out[r]) == FirstChosen(x, r, p.nodes)
    {
      var r := p.replicas[i];
      assert p.replicas[..i + 1] == p.replicas[..i] + [r];
      var chosen, j := false, 0;
      while j < |p.nodes| && !chosen
        invariant 0 <= j <= |p.nodes|
        invariant chosen <==> FirstChosen(x, r, p.nodes[..j]).Some?
        invariant chosen ==> r in out && FirstChosen(x, r, p.nodes[..j]) == Some(out[r])
        invariant forall q :: q in out <==> q in p.replicas[..i] || (chosen && q == r)
        invariant forall q :: q in p.replicas[..i] ==> Some(out[q]) == FirstChosen(x, q, p.nodes)
        decreases |p.nodes| - j, !chosen
      {
        assert p.nodes[..j + 1][..j] == p.nodes[..j];
        if Val(x, Var(r, p.nodes[j])) >= 0.5 {
          FirstChosenStays(x, r, p.nodes, j + 1);
          out := out[r := p.nodes[j]];
          chosen := true;
        }
        j := j + 1;
      }
      if !chosen {
        assert p.nodes[..j] == p.nodes;
        return None;
      }
      FirstChosenStays(x, r, p.nodes, j);
    }
    assert p.replicas[..|p.replicas|] == p.replicas;
    return Some(out);
  }

  lemma {:induction false} FirstChosenStays(x: Solution, r: ReplicaKey, nodes: seq<NodeId>, j: nat)
    requires j <= |nodes| && FirstChosen(x, r, nodes[..j]).Some?
    ensures FirstChosen(x, r, nodes) == FirstChosen(x, r, nodes[..j])
    decreases |nodes|
  {
    if j < |nodes| {
      assert nodes[..|nodes| - 1][..j] == nodes[..j];
      FirstChosenStays(x, r, nodes[..|nodes| - 1], j);
    } else {
      assert nodes[..j] == nodes;
    }
  }
}
