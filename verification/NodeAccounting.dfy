/**
 Accounting of a cluster's nodes: pod requests summed up per node, and free resources per node.
 */
module NodeAccounting {
  import opened Prelude

  /** A container may leave either request out. */
  datatype Container = Container(cpu: Option<int>, memory: Option<int>) {
    function Request(res: Resource): Option<int> {
      match res
      case Cpu => cpu
      case Memory => memory
    }
  }

  datatype PodPhase = PodSucceeded | PodFailed | PodActive

  datatype Pod = Pod(node: string, phase: PodPhase, containers: seq<Container>, initContainers: seq<Container>)

  datatype Resources = Resources(cpu: int, memory: int, pods: int) {
    function Amount(res: Resource): int {
      match res
      case Cpu => cpu
      case Memory => memory
    }
  }

  const NONE := Resources(0, 0, 0)

  // ------------------------------------------------------------------ requests per node

  /** Container requests are added. */
  function AddAll(agg: int, cs: seq<Container>, res: Resource): int {
    if cs == [] then agg
    else
      var before := AddAll(agg, cs[..|cs| - 1], res);
      match cs[|cs| - 1].Request(res)
      case None => before
      case Some(q) => before + q
  }

  /** Each init container lifts the running total of the node to at least its own request. */
  function LiftAll(agg: int, cs: seq<Container>, res: Resource): int {
    if cs == [] then agg
    else
      var before := LiftAll(agg, cs[..|cs| - 1], res);
      match cs[|cs| - 1].Request(res)
      case None => before
      case Some(q) => if before < q then q else before
  }

  predicate Counted(p: Pod, node: string) {
    p.node == node && node != "" && p.phase == PodActive
  }

  /** Running total of a node over a list of pods. */
  function Total(pods: seq<Pod>, node: string, res: Resource): int {
    if pods == [] then 0
    else
      var before, p := Total(pods[..|pods| - 1], node, res), pods[|pods| - 1];
      if Counted(p, node) then LiftAll(AddAll(before, p.containers, res), p.initContainers, res) else before
  }

  function PodCount(pods: seq<Pod>, node: string): nat {
    if pods == [] then 0
    else PodCount(pods[..|pods| - 1], node) + (if Counted(pods[|pods| - 1], node) then 1 else 0)
  }

  function TotalsOf(pods: seq<Pod>, node: string): Resources {
    Resources(Total(pods, node, Cpu), Total(pods, node, Memory), PodCount(pods, node))
  }

  method AddContainers(agg: Resources, cs: seq<Container>) returns (out: Resources)
    ensures out == Resources(AddAll(agg.cpu, cs, Cpu), AddAll(agg.memory, cs, Memory), agg.pods)
  {
    var cpu, memory := agg.cpu, agg.memory;
    for i := 0 to |cs|
      invariant cpu == AddAll(agg.cpu, cs[..i], Cpu) && memory == AddAll(agg.memory, cs[..i], Memory)
    {
      assert cs[..i + 1][..i] == cs[..i];
      if cs[i].cpu.Some? {
        cpu := cpu + cs[i].cpu.value;
      }
      if cs[i].memory.Some? {
        memory := memory + cs[i].memory.value;
      }
    }
    assert cs[..|cs|] == cs;
    return Resources(cpu, memory, agg.pods);
  }

  method LiftToInitContainers(agg: Resources, cs: seq<Container>) returns (out: Resources)
    ensures out == Resources(LiftAll(agg.cpu, cs, Cpu), LiftAll(agg.memory, cs, Memory), agg.pods)
  {
    var cpu, memory := agg.cpu, agg.memory;
    for i := 0 to |cs|
      invariant cpu == LiftAll(agg.cpu, cs[..i], Cpu) && memory == LiftAll(agg.memory, cs[..i], Memory)
    {
      assert cs[..i + 1][..i] == cs[..i];
      if cs[i].cpu.Some? && cpu < cs[i].cpu.value {
        cpu := cs[i].cpu.value;
      }
      if cs[i].memory.Some? && memory < cs[i].memory.value {
        memory := cs[i].memory.value;
      }
    }
    assert cs[..|cs|] == cs;
    return Resources(cpu, memory, agg.pods);
  }

  /** The requests of all pods that are bound to a node and not finished, node by node. */
  method SumPodRequestsByNode(pods: seq<Pod>) returns (res: map<string, Resources>)
    ensures forall node :: node in res <==> PodCount(pods, node) > 0
    ensures forall node :: node in res ==> res[node] == TotalsOf(pods, node)
    ensures forall node :: node !in res ==> TotalsOf(pods, node) == NONE
  {
    res := map[];
    for i := 0 to |pods|
      invariant forall node :: node in res <==> PodCount(pods[..i], node) > 0
      invariant forall node :: node in res ==> res[node] == TotalsOf(pods[..i], node)
      invariant forall node :: node !in res ==> TotalsOf(pods[..i], node) == NONE
    {
      var p := pods[i];
      assert pods[..i + 1][..i] == pods[..i];
      if p.node == "" {
        continue;
      }
      if p.phase == PodSucceeded || p.phase == PodFailed {
        continue;
      }
      var agg := if p.node in res then res[p.node] else NONE;
      agg := agg.(pods := agg.pods + 1);
      agg := AddContainers(agg, p.containers);
      agg := LiftToInitContainers(agg, p.initContainers);
      res := res[p.node := agg];
    }
    assert pods[..|pods|] == pods;
  }

  // ------------------------------------------------------------------ bounds of the running total

  predicate NonNegative(cs: seq<Container>, res: Resource) {
    forall i :: 0 <= i < |cs| && cs[i].Request(res).Some? ==> cs[i].Request(res).value >= 0
  }

  predicate NonNegativePods(pods: seq<Pod>, res: Resource) {
    forall i :: 0 <= i < |pods| ==> NonNegative(pods[i].containers, res) && NonNegative(pods[i].initContainers, res)
  }

  /** What the containers of a pod request together. */
  function ContainerSum(p: Pod, res: Resource): int { AddAll(0, p.containers, res) }

  /** The largest request of an init container, at least zero. */
  function LargestInit(p: Pod, res: Resource): int { LiftAll(0, p.initContainers, res) }

  /** What the scheduler of a member cluster reserves for a pod. */
  function Reserved(p: Pod, res: Resource): int {
    if LargestInit(p, res) > ContainerSum(p, res) then LargestInit(p, res) else ContainerSum(p, res)
  }

  function ContainerTotal(pods: seq<Pod>, node: string, res: Resource): int {
    if pods == [] then 0
    else
      ContainerTotal(pods[..|pods| - 1], node, res) +
      (if Counted(pods[|pods| - 1], node) then ContainerSum(pods[|pods| - 1], res) else 0)
  }

  function ReservedTotal(pods: seq<Pod>, node: string, res: Resource): int {
    if pods == [] then 0
    else
      ReservedTotal(pods[..|pods| - 1], node, res) +
      (if Counted(pods[|pods| - 1], node) then Reserved(pods[|pods| - 1], res) else 0)
  }

  lemma {:induction false} AddAllShifts(agg: int, cs: seq<Container>, res: Resource)
    ensures AddAll(agg, cs, res) == agg + AddAll(0, cs, res)
    ensures NonNegative(cs, res) ==> AddAll(0, cs, res) >= 0
  {
    if cs != [] {
      AddAllShifts(agg, cs[..|cs| - 1], res);
    }
  }

  lemma {:induction false} LiftAllIsMaximum(agg: int, cs: seq<Container>, res: Resource)
    requires agg >= 0
    ensures LiftAll(0, cs, res) >= 0
    ensures LiftAll(agg, cs, res) == if agg < LiftAll(0, cs, res) then LiftAll(0, cs, res) else agg
  {
    if cs != [] {
      LiftAllIsMaximum(agg, cs[..|cs| - 1], res);
    }
  }

  /** One pod lifts a node's total from before to the larger of before plus its containers and its largest
      init container. */
  lemma OnePod(before: int, p: Pod, res: Resource)
    requires before >= 0 && NonNegative(p.containers, res)
    ensures var sum := before + ContainerSum(p, res);
            LiftAll(AddAll(before, p.containers, res), p.initContainers, res)
            == if sum < LargestInit(p, res) then LargestInit(p, res) else sum
    ensures ContainerSum(p, res) >= 0 && LargestInit(p, res) >= 0
  {
    AddAllShifts(before, p.containers, res);
    AddAllShifts(0, p.containers, res);
    LiftAllIsMaximum(AddAll(before, p.containers, res), p.initContainers, res);
  }

  /** A node's total lies between the sum of its container requests and the sum of what its pods reserve. */
  lemma {:induction false} TotalInBounds(pods: seq<Pod>, node: string, res: Resource)
    requires NonNegativePods(pods, res)
    ensures 0 <= ContainerTotal(pods, node, res) <= Total(pods, node, res) <= ReservedTotal(pods, node, res)
  {
    if pods != [] {
      var p := pods[|pods| - 1];
      TotalInBounds(pods[..|pods| - 1], node, res);
      OnePod(Total(pods[..|pods| - 1], node, res), p, res);
    }
  }

  /** The k-th pod reserves more than its containers request although the node already has a total. */
  predicate Undercounts(pods: seq<Pod>, node: string, res: Resource, k: nat)
    requires k < |pods|
  {
    && Counted(pods[k], node)
    && LargestInit(pods[k], res) > ContainerSum(pods[k], res)
    && Total(pods[..k], node, res) > 0
  }

  /** The total is what the pods reserve exactly when no pod with a dominating init container comes after
      others have already given the node a total. */
  lemma {:induction false} TotalIsReservedIff(pods: seq<Pod>, node: string, res: Resource)
    requires NonNegativePods(pods, res)
    ensures Total(pods, node, res) == ReservedTotal(pods, node, res)
            <==> forall k :: 0 <= k < |pods| ==> !Undercounts(pods, node, res, k)
  {
    if pods != [] {
      var rest, last := pods[..|pods| - 1], |pods| - 1;
      TotalIsReservedIff(rest, node, res);
      TotalInBounds(rest, node, res);
      OnePod(Total(rest, node, res), pods[last], res);
      forall k | 0 <= k < last ensures Undercounts(pods, node, res, k) <==> Undercounts(rest, node, res, k) {
        assert pods[..k] == rest[..k];
      }
      assert Undercounts(pods, node, res, last) ==> Total(pods, node, res) < ReservedTotal(pods, node, res);
    }
  }

  /** The same pods in another order give another total. */
  lemma OrderMatters()
    ensures var one := Pod("n", PodActive, [Container(Some(1), None)], [Container(Some(10), None)]);
            var two := Pod("n", PodActive, [Container(Some(5), None)], []);
            Total([one, two], "n", Cpu) == 15 && Total([two, one], "n", Cpu) == 10
  {
    var one := Pod("n", PodActive, [Container(Some(1), None)], [Container(Some(10), None)]);
    var two := Pod("n", PodActive, [Container(Some(5), None)], []);
    assert [one, two][..1] == [one] && [two, one][..1] == [two] && [one][..0] == [] && [two][..0] == [];
    OneContainer(0, 1);
    OneContainer(0, 5);
    OneContainer(10, 5);
    OneContainer(5, 1);
    OneInit(1, 10);
    OneInit(6, 10);
    assert Total([], "n", Cpu) == 0;
    assert Total([one], "n", Cpu) == 10 && Total([two], "n", Cpu) == 5;
  }

  lemma OneContainer(agg: int, q: int)
    ensures AddAll(agg, [Container(Some(q), None)], Cpu) == agg + q
  {
    assert [Container(Some(q), None)][..0] == [];
    assert AddAll(agg, [], Cpu) == agg;
  }

  lemma OneInit(agg: int, q: int)
    ensures LiftAll(agg, [Container(Some(q), None)], Cpu) == if agg < q then q else agg
  {
    assert [Container(Some(q), None)][..0] == [];
    assert LiftAll(agg, [], Cpu) == agg;
  }

  // ------------------------------------------------------------------ free resources

  /** A node condition: whether it is the Ready condition, and whether its status is True. */
  datatype Condition = Condition(isReady: bool, holds: bool)

  datatype Node = Node(
    name: string, uid: string, capacity: Resources, allocatable: Resources,
    conditions: seq<Condition>, labels: map<string, string>)

  datatype NodeSummary = NodeSummary(
    name: string, uid: string, ready: bool, allocatable: Resources, requested: Resources, free: Resources,
    labels: map<string, string>)

  const HOSTNAME := "kubernetes.io/hostname"

  /** The first Ready condition holds. */
  predicate IsReady(cs: seq<Condition>) {
    exists k :: 0 <= k < |cs| && cs[k] == Condition(true, true) && forall j :: 0 <= j < k ==> !cs[j].isReady
  }

  method FindReady(cs: seq<Condition>) returns (ready: bool)
    ensures ready <==> IsReady(cs)
  {
    for i := 0 to |cs|
      invariant forall j :: 0 <= j < i ==> !cs[j].isReady
    {
      if cs[i].isReady {
        return cs[i].holds;
      }
    }
    return false;
  }

  /** Only the host name is kept, and only when it is not empty. */
  function PickLabels(labels: map<string, string>): (picked: map<string, string>)
    ensures forall k :: k in picked <==> k == HOSTNAME && k in labels && labels[k] != ""
    ensures forall k :: k in picked ==> picked[k] == labels[k]
  {
    if HOSTNAME in labels && labels[HOSTNAME] != "" then map[HOSTNAME := labels[HOSTNAME]] else map[]
  }

  function Minus(a: Resources, b: Resources): Resources {
    Resources(a.cpu - b.cpu, a.memory - b.memory, a.pods - b.pods)
  }

  function Plus(a: Resources, b: Resources): Resources {
    Resources(a.cpu + b.cpu, a.memory + b.memory, a.pods + b.pods)
  }

  /** What a summary says about its node. */
  predicate Summarises(s: NodeSummary, n: Node, requested: map<string, Resources>) {
    && s.name == n.name && s.uid == n.uid && s.ready == IsReady(n.conditions) && s.labels == PickLabels(n.labels)
    && s.allocatable == n.allocatable
    && s.requested == (if n.name in requested then requested[n.name] else Resources(0, 0, 0))
    && Plus(s.requested, s.free) == s.allocatable
  }

  method BuildNodeSummaries(nodes: seq<Node>, requested: map<string, Resources>) returns (out: seq<NodeSummary>)
    ensures Balanced(nodes, out)
    ensures forall i :: 0 <= i < |out| ==> Summarises(out[i], nodes[i], requested)
  {
    out := [];
    for i := 0 to |nodes|
      invariant |out| == i
      invariant forall k :: 0 <= k < i ==> Summarises(out[k], nodes[k], requested)
    {
      var n := nodes[i];
      var req := if n.name in requested then requested[n.name] else NONE;
      var ready := FindReady(n.conditions);
      var s := NodeSummary(n.name, n.uid, ready, n.allocatable, req, Minus(n.allocatable, req), PickLabels(n.labels));
      assert Summarises(s, n, requested);
      out := out + [s];
    }
  }

  /** Capacity of the first k nodes. */
  function CapacityTotal(nodes: seq<Node>, k: nat, res: Resource): int
    requires k <= |nodes|
  {
    if k == 0 then 0 else CapacityTotal(nodes, k - 1, res) + nodes[k - 1].capacity.Amount(res)
  }

  function AllocatableTotal(nodes: seq<Node>, k: nat, res: Resource): int
    requires k <= |nodes|
  {
    if k == 0 then 0 else AllocatableTotal(nodes, k - 1, res) + nodes[k - 1].allocatable.Amount(res)
  }

  /** CPU and memory of the whole cluster. */
  method SumNodeResources(nodes: seq<Node>) returns (capacityCpu: int, capacityMem: int, allocCpu: int, allocMem: int)
    ensures capacityCpu == CapacityTotal(nodes, |nodes|, Cpu) && capacityMem == CapacityTotal(nodes, |nodes|, Memory)
    ensures allocCpu == AllocatableTotal(nodes, |nodes|, Cpu) && allocMem == AllocatableTotal(nodes, |nodes|, Memory)
  {
    capacityCpu, capacityMem, allocCpu, allocMem := 0, 0, 0, 0;
    for i := 0 to |nodes|
      invariant capacityCpu == CapacityTotal(nodes, i, Cpu) && capacityMem == CapacityTotal(nodes, i, Memory)
      invariant allocCpu == AllocatableTotal(nodes, i, Cpu) && allocMem == AllocatableTotal(nodes, i, Memory)
    {
      capacityCpu, capacityMem := capacityCpu + nodes[i].capacity.cpu, capacityMem + nodes[i].capacity.memory;
      allocCpu, allocMem := allocCpu + nodes[i].allocatable.cpu, allocMem + nodes[i].allocatable.memory;
    }
  }

  function RequestedTotal(out: seq<NodeSummary>, k: nat, res: Resource): int
    requires k <= |out|
  {
    if k == 0 then 0 else RequestedTotal(out, k - 1, res) + out[k - 1].requested.Amount(res)
  }

  function FreeTotal(out: seq<NodeSummary>, k: nat, res: Resource): int
    requires k <= |out|
  {
    if k == 0 then 0 else FreeTotal(out, k - 1, res) + out[k - 1].free.Amount(res)
  }

  predicate Balanced(nodes: seq<Node>, out: seq<NodeSummary>) {
    |out| == |nodes| &&
    forall i :: 0 <= i < |out| ==>
      out[i].allocatable == nodes[i].allocatable && Plus(out[i].requested, out[i].free) == out[i].allocatable
  }

  /** Nothing is lost between the cluster's totals and its node summaries. */
  lemma {:induction false} ResourcesAreConserved(nodes: seq<Node>, out: seq<NodeSummary>, k: nat, res: Resource)
    requires Balanced(nodes, out) && k <= |nodes|
    ensures AllocatableTotal(nodes, k, res) == RequestedTotal(out, k, res) + FreeTotal(out, k, res)
  {
    if k > 0 {
      ResourcesAreConserved(nodes, out, k - 1, res);
    }
  }

  /** Bounds on a node's free resources as they are published: never more than the allocatable less the
      container requests, never less than the allocatable less what the pods reserve. */
  lemma PublishedFreeInBounds(pods: seq<Pod>, s: NodeSummary, res: Resource)
    requires NonNegativePods(pods, res) && s.requested == TotalsOf(pods, s.name)
    requires Plus(s.requested, s.free) == s.allocatable
    ensures s.allocatable.Amount(res) - ReservedTotal(pods, s.name, res)
            <= s.free.Amount(res)
            <= s.allocatable.Amount(res) - ContainerTotal(pods, s.name, res)
  {
    TotalInBounds(pods, s.name, res);
  }

  // ------------------------------------------------------------------ totals on the fields

  function CpuRequest(): Container -> int { (c: Container) => if c.cpu.Some? then c.cpu.value else 0 }

  function MemoryRequest(): Container -> int { (c: Container) => if c.memory.Some? then c.memory.value else 0 }

  lemma {:induction false} ContainersAdd(cs: seq<Container>)
    ensures AddAll(0, cs, Cpu) == Sum(cs, CpuRequest()) && AddAll(0, cs, Memory) == Sum(cs, MemoryRequest())
  {
    if cs != [] {
      ContainersAdd(cs[..|cs| - 1]);
    }
  }

  /** q is the largest of some requests, or zero when that is larger. */
  predicate IsLargest(q: int, requests: seq<Option<int>>) {
    && q >= 0 && (forall x :: x in requests && x.Some? ==> x.value <= q)
    && (q == 0 || Some(q) in requests)
  }

  function CpuRequests(cs: seq<Container>): (qs: seq<Option<int>>)
    ensures |qs| == |cs| && forall i :: 0 <= i < |cs| ==> qs[i] == cs[i].cpu
  {
    seq(|cs|, i requires 0 <= i < |cs| => cs[i].cpu)
  }

  function MemoryRequests(cs: seq<Container>): (qs: seq<Option<int>>)
    ensures |qs| == |cs| && forall i :: 0 <= i < |cs| ==> qs[i] == cs[i].memory
  {
    seq(|cs|, i requires 0 <= i < |cs| => cs[i].memory)
  }

  lemma {:induction false} InitContainersLift(cs: seq<Container>)
    ensures IsLargest(LiftAll(0, cs, Cpu), CpuRequests(cs)) && IsLargest(LiftAll(0, cs, Memory), MemoryRequests(cs))
  {
    if cs != [] {
      var rest, last := cs[..|cs| - 1], cs[|cs| - 1];
      InitContainersLift(rest);
      assert CpuRequests(cs) == CpuRequests(rest) + [last.cpu];
      assert MemoryRequests(cs) == MemoryRequests(rest) + [last.memory];
    }
  }

  /** The pod is bound to the node and not finished. */
  predicate Holds(node: string, p: Pod) {
    p.node == node && node != "" && p.phase != PodSucceeded && p.phase != PodFailed
  }

  /** What a pod asks of a node for its containers: nothing when it is elsewhere, unbound or finished. */
  function CpuOn(node: string): Pod -> int {
    (p: Pod) => if Holds(node, p) then Sum(p.containers, CpuRequest()) else 0
  }

  function MemoryOn(node: string): Pod -> int {
    (p: Pod) => if Holds(node, p) then Sum(p.containers, MemoryRequest()) else 0
  }

  function PodOn(node: string): Pod -> int {
    (p: Pod) => if Holds(node, p) then 1 else 0
  }

  /** What is counted and reserved of pods: containers add up, init containers count with the largest, a pod reserves the
      larger of both, and only pods that are bound to the node and not finished count. */
  lemma {:induction false} RequestsExactly(pods: seq<Pod>, node: string, p: Pod)
    ensures ContainerTotal(pods, node, Cpu) == Sum(pods, CpuOn(node))
    ensures ContainerTotal(pods, node, Memory) == Sum(pods, MemoryOn(node))
    ensures PodCount(pods, node) == Sum(pods, PodOn(node))
    ensures IsLargest(LargestInit(p, Cpu), CpuRequests(p.initContainers))
    ensures IsLargest(LargestInit(p, Memory), MemoryRequests(p.initContainers))
    ensures Counted(p, node) <==> p.node == node && node != "" && p.phase != PodSucceeded && p.phase != PodFailed
    ensures forall res :: Reserved(p, res) >= ContainerSum(p, res) && Reserved(p, res) >= LargestInit(p, res)
    ensures forall res :: Reserved(p, res) in {ContainerSum(p, res), LargestInit(p, res)}
  {
    InitContainersLift(p.initContainers);
    if pods != [] {
      RequestsExactly(pods[..|pods| - 1], node, p);
      ContainersAdd(pods[|pods| - 1].containers);
    }
  }

  lemma {:induction false} TotalsAreSums(nodes: seq<Node>, k: nat)
    requires k <= |nodes|
    ensures CapacityTotal(nodes, k, Cpu) == Sum(nodes[..k], (n: Node) => n.capacity.cpu)
    ensures CapacityTotal(nodes, k, Memory) == Sum(nodes[..k], (n: Node) => n.capacity.memory)
    ensures AllocatableTotal(nodes, k, Cpu) == Sum(nodes[..k], (n: Node) => n.allocatable.cpu)
    ensures AllocatableTotal(nodes, k, Memory) == Sum(nodes[..k], (n: Node) => n.allocatable.memory)
  {
    if k > 0 {
      TotalsAreSums(nodes, k - 1);
      assert nodes[..k][..k - 1] == nodes[..k - 1];
    }
  }
}
