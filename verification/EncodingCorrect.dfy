/**
 The integer program means the placement problem: its 0/1 solutions and the feasible placements correspond
 one to one.
 */
module EncodingCorrect {
  import opened Prelude
  import opened OptimizerTypes
  import opened IlpModel

  predicate DistinctProblem(p: Problem) {
    Distinct(p.replicas) && Distinct(p.nodes)
  }

  lemma {:induction false} AssignmentSum(p: Problem, x: Solution, a: Placement, r: ReplicaKey, k: nat)
    requires Distinct(p.nodes) && Encodes(p, x, a) && r in p.replicas && k <= |p.nodes|
    ensures Dot(AssignmentRow(p, r).terms[..k], x) == if a[r] in p.nodes[..k] then 1.0 else 0.0
  {
    if k > 0 {
      var terms := AssignmentRow(p, r).terms;
      AssignmentSum(p, x, a, r, k - 1);
      assert terms[..k][..k - 1] == terms[..k - 1];
      assert p.nodes[..k] == p.nodes[..k - 1] + [p.nodes[k - 1]];
      assert p.nodes[k - 1] !in p.nodes[..k - 1];
    }
  }

  lemma DotPush(terms: seq<Term>, k: nat, x: Solution)
    requires k < |terms|
    ensures Dot(terms[..k + 1], x) == Dot(terms[..k], x) + terms[k].coeff * Val(x, terms[k].v)
  {
    assert terms[..k + 1][..k] == terms[..k];
  }

  lemma LoadPush(p: Problem, replicas: seq<ReplicaKey>, k: nat, a: Placement, n: NodeId, res: Resource)
    requires k < |replicas| && replicas[k] in a
    ensures Load(p, replicas[..k + 1], a, n, res)
            == Load(p, replicas[..k], a, n, res) + (if a[replicas[k]] == n then Demand(p, replicas[k], res) else 0)
  {
    assert replicas[..k + 1][..k] == replicas[..k];
  }

  lemma CapacityTerm(p: Problem, x: Solution, a: Placement, r: ReplicaKey, n: NodeId, res: Resource)
    requires Encodes(p, x, a) && n in p.nodes && r in p.replicas
    ensures Demand(p, r, res) as real * Val(x, Var(r, n)) == (if a[r] == n then Demand(p, r, res) else 0) as real
  {
    assert Val(x, Var(r, n)) == if a[r] == n then 1.0 else 0.0;
  }

  lemma {:induction false} CapacitySum(p: Problem, x: Solution, a: Placement, n: NodeId, res: Resource, k: nat)
    requires Encodes(p, x, a) && n in p.nodes && k <= |p.replicas|
    ensures Dot(CapacityRow(p, n, res).terms[..k], x) == Load(p, p.replicas[..k], a, n, res) as real
  {
    if k > 0 {
      CapacitySum(p, x, a, n, res, k - 1);
      DotPush(CapacityRow(p, n, res).terms, k - 1, x);
      LoadPush(p, p.replicas, k - 1, a, n, res);
      CapacityTerm(p, x, a, p.replicas[k - 1], n, res);
    }
  }

  lemma AssignmentRowHolds(p: Problem, x: Solution, a: Placement, r: ReplicaKey)
    requires Distinct(p.nodes) && Encodes(p, x, a) && r in p.replicas
    ensures RowHolds(AssignmentRow(p, r), x)
  {
    AssignmentSum(p, x, a, r, |p.nodes|);
    assert p.nodes[..|p.nodes|] == p.nodes;
    assert AssignmentRow(p, r).terms[..|p.nodes|] == AssignmentRow(p, r).terms;
  }

  lemma AllHoldConcat(rows: seq<Row>, more: seq<Row>, x: Solution)
    ensures AllHold(rows + more, x) <==> AllHold(rows, x) && AllHold(more, x)
  {
    if AllHold(rows + more, x) {
      forall i | 0 <= i < |rows| ensures RowHolds(rows[i], x) {
        assert (rows + more)[i] == rows[i];
      }
      forall i | 0 <= i < |more| ensures RowHolds(more[i], x) {
        assert (rows + more)[|rows| + i] == more[i];
      }
    }
  }

  /** Under an encoded assignment the rows hold exactly when the required capacities are kept. */
  lemma RowsMeanCapacity(p: Problem, x: Solution, a: Placement)
    requires DistinctProblem(p) && Encodes(p, x, a)
    ensures AllHold(Rows(p), x) <==> Feasible(p, a)
  {
    var rows := seq(|p.replicas|, i requires 0 <= i < |p.replicas| => AssignmentRow(p, p.replicas[i]));
    forall i | 0 <= i < |rows| ensures RowHolds(rows[i], x) {
      AssignmentRowHolds(p, x, a, p.replicas[i]);
    }
    AllHoldConcat(rows + CapacityRows(p, Cpu), CapacityRows(p, Memory), x);
    AllHoldConcat(rows, CapacityRows(p, Cpu), x);
    CapacityRowsMean(p, x, a, Cpu);
    CapacityRowsMean(p, x, a, Memory);
    FeasibleByResource(p, a);
  }

  predicate KeepsCapacity(p: Problem, a: Placement, res: Resource) {
    Required(p, res) ==> forall n :: n in p.nodes ==> Load(p, p.replicas, a, n, res) <= Capacity(p, n, res)
  }

  lemma FeasibleByResource(p: Problem, a: Placement)
    ensures Feasible(p, a) <==> Total(p, a) && KeepsCapacity(p, a, Cpu) && KeepsCapacity(p, a, Memory)
  {
    if Total(p, a) && KeepsCapacity(p, a, Cpu) && KeepsCapacity(p, a, Memory) {
      forall res, n | Required(p, res) && n in p.nodes ensures Load(p, p.replicas, a, n, res) <= Capacity(p, n, res) {
        match res
        case Cpu =>
        case Memory =>
      }
    }
  }

  lemma CapacityRowMeans(p: Problem, x: Solution, a: Placement, n: NodeId, res: Resource)
    requires Encodes(p, x, a) && n in p.nodes
    ensures RowHolds(CapacityRow(p, n, res), x) <==> Load(p, p.replicas, a, n, res) <= Capacity(p, n, res)
  {
    CapacitySum(p, x, a, n, res, |p.replicas|);
    assert p.replicas[..|p.replicas|] == p.replicas;
    assert CapacityRow(p, n, res).terms[..|p.replicas|] == CapacityRow(p, n, res).terms;
  }

  lemma CapacityRowsMean(p: Problem, x: Solution, a: Placement, res: Resource)
    requires Encodes(p, x, a)
    ensures AllHold(CapacityRows(p, res), x) <==> KeepsCapacity(p, a, res)
  {
    if Required(p, res) {
      var rows := CapacityRows(p, res);
      forall j | 0 <= j < |rows|
        ensures RowHolds(rows[j], x) <==> Load(p, p.replicas, a, p.nodes[j], res) <= Capacity(p, p.nodes[j], res)
      {
        CapacityRowMeans(p, x, a, p.nodes[j], res);
      }
      if AllHold(rows, x) {
        forall n | n in p.nodes ensures Load(p, p.replicas, a, n, res) <= Capacity(p, n, res) {
          var j :| 0 <= j < |p.nodes| && p.nodes[j] == n;
          assert RowHolds(rows[j], x);
        }
      }
    }
  }

  /** In a 0/1 solution the assignment row of r counts the chosen nodes. */
  lemma {:induction false} OneChosen(p: Problem, x: Solution, r: ReplicaKey, k: nat)
    requires Distinct(p.nodes) && Binary(p, x) && r in p.replicas && k <= |p.nodes|
    ensures var d := Dot(AssignmentRow(p, r).terms[..k], x);
            var first := FirstChosen(x, r, p.nodes[..k]);
            && (first.None? <==> d == 0.0) && (first.Some? ==> d >= 1.0 && first.value in p.nodes[..k])
            && (d <= 1.0 ==> forall j :: 0 <= j < k ==> (x[Var(r, p.nodes[j])] == 1 <==> first == Some(p.nodes[j])))
  {
    if k > 0 {
      var terms, n := AssignmentRow(p, r).terms, p.nodes[k - 1];
      OneChosen(p, x, r, k - 1);
      assert terms[..k][..k - 1] == terms[..k - 1];
      assert p.nodes[..k][..k - 1] == p.nodes[..k - 1];
      assert Var(r, n) in x && x[Var(r, n)] in {0, 1};
      assert Val(x, Var(r, n)) in {0.0, 1.0};
      assert n !in p.nodes[..k - 1];
    }
  }

  /** Every 0/1 solution of the rows is read back as a total assignment into candidate nodes that keeps
      every required capacity, and it has a one exactly where that assignment places. */
  lemma EncodingIsSound(p: Problem, x: Solution)
    requires DistinctProblem(p) && Solves(p, x)
    ensures forall r :: r in p.replicas ==> FirstChosen(x, r, p.nodes).Some?
    ensures Encodes(p, x, Decode(p, x))
    ensures Feasible(p, Decode(p, x))
  {
    var a := Decode(p, x);
    forall r | r in p.replicas
      ensures FirstChosen(x, r, p.nodes).Some? && FirstChosen(x, r, p.nodes).value in p.nodes
      ensures forall n :: n in p.nodes ==> (x[Var(r, n)] == 1 <==> FirstChosen(x, r, p.nodes) == Some(n))
    {
      var i :| 0 <= i < |p.replicas| && p.replicas[i] == r;
      assert Rows(p)[i] == AssignmentRow(p, r) && RowHolds(Rows(p)[i], x);
      OneChosen(p, x, r, |p.nodes|);
      assert AssignmentRow(p, r).terms[..|p.nodes|] == AssignmentRow(p, r).terms;
      assert p.nodes[..|p.nodes|] == p.nodes;
    }
    assert Encodes(p, x, a);
    RowsMeanCapacity(p, x, a);
  }

  /** Every feasible placement is a 0/1 solution of the rows, and is what that solution is read back as. */
  lemma EncodingIsComplete(p: Problem, a: Placement)
    requires DistinctProblem(p) && Feasible(p, a)
    ensures Solves(p, Encode(p, a))
    ensures forall r :: r in p.replicas ==> r in Decode(p, Encode(p, a)) && Decode(p, Encode(p, a))[r] == a[r]
  {
    var x := Encode(p, a);
    assert Encodes(p, x, a);
    RowsMeanCapacity(p, x, a);
    EncodingIsSound(p, x);
    forall r | r in p.replicas ensures Decode(p, x)[r] == a[r] {
      assert x[Var(r, a[r])] == 1;
    }
  }

  /** Re-encoding what was read back gives the same solution on every variable of the model. */
  lemma EncodingRoundTrip(p: Problem, x: Solution)
    requires DistinctProblem(p) && Solves(p, x)
    ensures forall v :: v in Variables(p) ==>
              v in x && v in Encode(p, Decode(p, x)) && Encode(p, Decode(p, x))[v] == x[v]
  {
    EncodingIsSound(p, x);
    VariableCount(p.replicas, p.nodes);
  }

  /** The program has a solution exactly when some placement is feasible. */
  lemma SolvableIffPlaceable(p: Problem)
    requires DistinctProblem(p)
    ensures (exists x :: Solves(p, x)) <==> (exists a :: Feasible(p, a))
  {
    if x :| Solves(p, x) {
      EncodingIsSound(p, x);
    }
    if a :| Feasible(p, a) {
      EncodingIsComplete(p, a);
    }
  }

  // ------------------------------------------------------------------ the same on the fields

  /** The CPU and the memory that a replica asks of node n under assignment a. */
  function CpuAsked(p: Problem, a: Placement, n: NodeId): ReplicaKey -> int {
    r => if r in a && a[r] == n && r in p.requests then p.requests[r].cpu else 0
  }

  function MemoryAsked(p: Problem, a: Placement, n: NodeId): ReplicaKey -> int {
    r => if r in a && a[r] == n && r in p.requests then p.requests[r].memory else 0
  }

  lemma {:induction false} LoadsAreSums(p: Problem, replicas: seq<ReplicaKey>, a: Placement, n: NodeId)
    ensures Load(p, replicas, a, n, Cpu) == Sum(replicas, CpuAsked(p, a, n))
    ensures Load(p, replicas, a, n, Memory) == Sum(replicas, MemoryAsked(p, a, n))
  {
    if replicas != [] {
      LoadsAreSums(p, replicas[..|replicas| - 1], a, n);
    }
  }

  /** Everything a node is asked for stays within what it has, of either resource that is required. */
  predicate Hosts(p: Problem, a: Placement, n: NodeId) {
    && (p.requireCpu ==> n in p.capacities && Sum(p.replicas, CpuAsked(p, a, n)) <= p.capacities[n].cpu)
    && (p.requireMemory ==> n in p.capacities && Sum(p.replicas, MemoryAsked(p, a, n)) <= p.capacities[n].memory)
  }

  lemma FeasibleIsHosting(p: Problem, a: Placement)
    requires WellFormed(p) && p.replicas != []
    ensures Feasible(p, a) <==>
            && (forall r :: r in p.replicas ==> r in a && a[r] in p.nodes)
            && (forall n :: n in p.nodes ==> Hosts(p, a, n))
  {
    forall n | n in p.nodes
      ensures Load(p, p.replicas, a, n, Cpu) == Sum(p.replicas, CpuAsked(p, a, n))
      ensures Load(p, p.replicas, a, n, Memory) == Sum(p.replicas, MemoryAsked(p, a, n))
    {
      LoadsAreSums(p, p.replicas, a, n);
    }
    assert Required(p, Cpu) == p.requireCpu && Required(p, Memory) == p.requireMemory;
    assert p.requireCpu ==> Supplied(p, Cpu);
    assert p.requireMemory ==> Supplied(p, Memory);
    FeasibleByResource(p, a);
    if Feasible(p, a) {
      forall n | n in p.nodes ensures Hosts(p, a, n) {
        assert p.requireCpu ==> Load(p, p.replicas, a, n, Cpu) <= Capacity(p, n, Cpu);
        assert p.requireMemory ==> Load(p, p.replicas, a, n, Memory) <= Capacity(p, n, Memory);
      }
    }
  }

  /** For an accepted problem, the rows accept an assignment exactly when it puts every replica on a candidate node and
      no candidate node is asked for more CPU or memory than it has; and every 0/1 solution is read back as such
      an assignment. */
  lemma SolutionsMeetRequests(p: Problem, x: Solution, a: Placement)
    requires DistinctProblem(p) && WellFormed(p) && p.replicas != []
    ensures (forall r :: r in p.replicas ==> r in a && a[r] in p.nodes) ==>
              (Solves(p, Encode(p, a)) <==> forall n :: n in p.nodes ==> Hosts(p, a, n))
    ensures Solves(p, x) ==>
              && (forall r :: r in p.replicas ==> r in Decode(p, x) && Decode(p, x)[r] in p.nodes)
              && (forall n :: n in p.nodes ==> Hosts(p, Decode(p, x), n))
  {
    FeasibleIsHosting(p, a);
    FeasibleIsHosting(p, Decode(p, x));
    if Total(p, a) {
      assert Encodes(p, Encode(p, a), a);
      RowsMeanCapacity(p, Encode(p, a), a);
    }
    if Solves(p, x) {
      EncodingIsSound(p, x);
    }
  }

  /** Exactly which problems are accepted. */
  lemma AcceptedExactly(p: Problem)
    ensures WellFormed(p) <==>
            p.replicas == [] ||
            (&& p.nodes != []
             && |p.replicas| * |p.nodes| <= (if p.maximumVariables > 0 then p.maximumVariables else 10_000)
             && (p.requireCpu ==>
                   && (forall r :: r in p.replicas ==> r in p.requests && p.requests[r].cpu > 0)
                   && (forall n :: n in p.nodes ==> n in p.capacities && p.capacities[n].cpu > 0))
             && (p.requireMemory ==>
                   && (forall r :: r in p.replicas ==> r in p.requests && p.requests[r].memory > 0)
                   && (forall n :: n in p.nodes ==> n in p.capacities && p.capacities[n].memory > 0))
             && (p.goals.Some? ==>
                   && p.contexts != [] && (forall c :: c in p.contexts ==> c.id in p.nodes)
                   && ((exists g :: g in p.goals.value && g.weight != 0.0 && g.kind == Migration) ==> p.current != map[])))
  {
    assert Required(p, Cpu) == p.requireCpu && Required(p, Memory) == p.requireMemory;
    assert (forall res :: Required(p, res) ==> Supplied(p, res)) <==>
           (p.requireCpu ==> Supplied(p, Cpu)) && (p.requireMemory ==> Supplied(p, Memory)) by {
      if (p.requireCpu ==> Supplied(p, Cpu)) && (p.requireMemory ==> Supplied(p, Memory)) {
        forall res | Required(p, res) ensures Supplied(p, res) {
          match res
          case Cpu =>
          case Memory =>
        }
      }
    }
  }
}
