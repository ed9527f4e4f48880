/** Data shared by the parts of the placement optimizer. */
module OptimizerTypes {

  datatype NodeId = NodeId(cluster: string, name: string)

  datatype ReplicaKey = ReplicaKey(namespace: string, name: string, index: int)

  /** MilliCPU and memory in Mi. */
  datatype Quantity = Quantity(cpu: int, memory: int)

  type Placement = map<ReplicaKey, NodeId>

  /** score[r][n]; lower is better. */
  type Scores = map<ReplicaKey, map<NodeId, real>>

  type Penalties = map<ReplicaKey, real>

  /** What the scoring plugins know about a node; instanceType is "" when the label is missing. */
  datatype NodeContext = NodeContext(
    id: NodeId, instanceType: string, region: string, cpuFree: int, cpuAllocatable: int)

  datatype GoalKind = Cost | Latency | Communication | Energy | Migration | OtherGoal

  datatype Goal = Goal(kind: GoalKind, weight: real, sourceCity: string)

  function NodeIds(nodes: seq<NodeContext>): (ids: seq<NodeId>)
    ensures |ids| == |nodes|
    ensures forall i :: 0 <= i < |nodes| ==> ids[i] == nodes[i].id
  {
    seq(|nodes|, i requires 0 <= i < |nodes| => nodes[i].id)
  }

  /** A missing score counts as zero. */
  function Coefficient(coeffs: Scores, r: ReplicaKey, n: NodeId): real {
    if r in coeffs && n in coeffs[r] then coeffs[r][n] else 0.0
  }

  /** A missing penalty counts as zero. */
  function PenaltyOf(penalties: Penalties, r: ReplicaKey): real {
    if r in penalties then penalties[r] else 0.0
  }
}
