/**
 What goals are worth in their own units, told on the fields of nodes, requests, prices, curves and latencies; and
 which goals can be scored at all.
 */
module RawValues {
  import opened Prelude
  import opened OptimizerTypes
  import opened PowerCurve
  import opened ServiceCentroid
  import opened GoalScores

  // ------------------------------------------------------------------ price and latency

  /** A Cost goal is worth the price of the node's instance type, which must be there and not negative. */
  lemma PriceExactly(inputs: ObjectiveInputs, g: Goal, r: ReplicaKey, n: NodeContext, v: real)
    requires g.kind == Cost
    ensures RawValue(inputs, g, r, n) == Ok(v) <==>
            n.instanceType != "" && n.instanceType in inputs.prices && inputs.prices[n.instanceType] == v && v >= 0.0
  {
  }

  /** A Latency goal is worth the latency from the source city to the node's region. */
  lemma LatencyExactly(inputs: ObjectiveInputs, g: Goal, r: ReplicaKey, n: NodeContext, v: real)
    requires g.kind == Latency
    ensures RawValue(inputs, g, r, n) == Ok(v) <==>
            && g.sourceCity in inputs.cityLatency && n.region != "" && n.region in inputs.cityLatency[g.sourceCity]
            && inputs.cityLatency[g.sourceCity][n.region] == v && v >= 0.0
  {
  }

  // ------------------------------------------------------------------ watts

  lemma Ratio(x: real, a: real)
    requires a > 0.0
    ensures x / a * a == x
    ensures 0.0 <= x <= a ==> 0.0 <= x / a <= 1.0
    ensures x > a ==> x / a > 1.0
    ensures x < 0.0 ==> x / a < 0.0
  {
    var q := x / a;
    assert q * a == x;
    SignOfProduct(q, a);
    SignOfProduct(1.0 - q, a);
  }

  /** The share of a node's CPU in use, as the published free CPU tells it; nonsensical figures count as none or all. */
  lemma ShareInUse(n: NodeContext)
    requires n.cpuAllocatable > 0
    ensures 0.0 <= Utilisation(n) <= 1.0
    ensures 0 <= n.cpuFree <= n.cpuAllocatable ==> Utilisation(n) * n.cpuAllocatable as real == (n.cpuAllocatable - n.cpuFree) as real
    ensures n.cpuFree > n.cpuAllocatable ==> Utilisation(n) == 0.0
    ensures n.cpuFree < 0 ==> Utilisation(n) == 1.0
  {
    Ratio((n.cpuAllocatable - n.cpuFree) as real, n.cpuAllocatable as real);
    Ratio(0.0, n.cpuAllocatable as real);
  }

  /** An Energy goal is worth, for samples given in order, the slope of the power curve where the node works, per
      core of the node, times the cores that are requested. */
  lemma WattsExactly(inputs: ObjectiveInputs, g: Goal, r: ReplicaKey, n: NodeContext, v: real) returns (k: nat, w: real)
    requires g.kind == Energy && RawValue(inputs, g, r, n) == Ok(v)
    requires n.instanceType in inputs.power && Sorted(inputs.power[n.instanceType])
    ensures n.instanceType != "" && n.cpuAllocatable > 0 && r in inputs.ctx.requests && inputs.ctx.requests[r].cpu > 0
    ensures var s := inputs.power[n.instanceType];
            && SegmentAt(s, Utilisation(n), k) && IsSlope(s, k, n.cpuAllocatable as real / 1000.0, w)
            && v == w * (inputs.ctx.requests[r].cpu as real / 1000.0)
  {
    w := MarginalWatts(inputs.power[n.instanceType], Utilisation(n), n.cpuAllocatable as real / 1000.0).value;
    k := SlopeExactly(inputs.power[n.instanceType], Utilisation(n), n.cpuAllocatable as real / 1000.0, w);
  }

  /** Exactly when an Energy goal has a value, for samples given in order: the request is positive, the node is known,
      and the curve has two samples in range, which at an end that counts are apart. */
  lemma WattsKnownIff(inputs: ObjectiveInputs, g: Goal, r: ReplicaKey, n: NodeContext)
    requires g.kind == Energy && (n.instanceType in inputs.power ==> Sorted(inputs.power[n.instanceType]))
    ensures RawValue(inputs, g, r, n).Ok? <==>
            && r in inputs.ctx.requests && inputs.ctx.requests[r].cpu > 0
            && n.instanceType != "" && n.instanceType in inputs.power && n.cpuAllocatable > 0
            && var s, u := inputs.power[n.instanceType], Utilisation(n);
               && |s| >= 2 && (forall i :: 0 <= i < |s| ==> 0.0 <= s[i].util <= 1.0)
               && (u <= s[0].util ==> s[0].util != s[1].util)
               && (u > s[0].util && u >= s[|s| - 1].util ==> s[|s| - 2].util != s[|s| - 1].util)
  {
    if n.instanceType in inputs.power && n.cpuAllocatable > 0 {
      var s, cores := inputs.power[n.instanceType], n.cpuAllocatable as real / 1000.0;
      SortedStays(s);
      ErrorsExactly(s, Utilisation(n), cores);
    }
  }

  lemma RatioGrows(x: real, y: real, a: real)
    requires a > 0.0 && x <= y
    ensures x / a <= y / a
  {
    var p, q := x / a, y / a;
    assert p * a == x && q * a == y;
    SignOfProduct(q - p, a);
  }

  lemma FullerWorksHarder(n: NodeContext, m: NodeContext)
    requires n.cpuAllocatable == m.cpuAllocatable > 0 && m.cpuFree <= n.cpuFree
    ensures Utilisation(n) <= Utilisation(m)
  {
    if n.cpuFree > n.cpuAllocatable {
      ShareInUse(n);
      ShareInUse(m);
    } else {
      RatioGrows((n.cpuAllocatable - n.cpuFree) as real, (m.cpuAllocatable - m.cpuFree) as real, n.cpuAllocatable as real);
    }
  }

  lemma ProductGrows(v: real, w: real, c: real)
    requires v <= w && c >= 0.0
    ensures v * c <= w * c
  {
    assert (w - v) * c >= 0.0;
  }

  lemma SteeperAbove(s: seq<Sample>, u: real, v: real, cores: real) returns (x: real, y: real)
    requires StrictlySorted(s) && Steepening(s) && u <= v && MarginalWatts(s, u, cores).Ok?
    ensures MarginalWatts(s, u, cores) == Ok(x) && MarginalWatts(s, v, cores) == Ok(y) && x <= y
  {
    SortedStays(s);
    SteepeningIsConvex(s);
    ConvexMarginalIsMonotone(s, u, v, cores);
    x, y := MarginalWatts(s, u, cores).value, MarginalWatts(s, v, cores).value;
  }

  /** The watts of a node, taken apart. */
  lemma WattsAt(inputs: ObjectiveInputs, g: Goal, r: ReplicaKey, n: NodeContext)
    requires g.kind == Energy && n.instanceType in inputs.power && n.instanceType != "" && n.cpuAllocatable > 0
    requires r in inputs.ctx.requests && inputs.ctx.requests[r].cpu > 0
    ensures var w := MarginalWatts(inputs.power[n.instanceType], Utilisation(n), n.cpuAllocatable as real / 1000.0);
            && (RawValue(inputs, g, r, n).Ok? <==> w.Ok?)
            && (w.Ok? ==> RawValue(inputs, g, r, n).value == w.value * Cores(inputs.ctx.requests, r))
    ensures Cores(inputs.ctx.requests, r) >= 0.0
  {
  }

  /** On a curve that steepens, a node with less free CPU is never worth fewer watts than one that is like it
      otherwise. */
  lemma FullerCostsMore(inputs: ObjectiveInputs, g: Goal, r: ReplicaKey, n: NodeContext, m: NodeContext)
    requires g.kind == Energy && n.instanceType == m.instanceType && n.cpuAllocatable == m.cpuAllocatable && m.cpuFree <= n.cpuFree
    requires n.instanceType in inputs.power && RawValue(inputs, g, r, n).Ok?
    requires var s := inputs.power[n.instanceType]; StrictlySorted(s) && Steepening(s)
    ensures RawValue(inputs, g, r, m).Ok? && RawValue(inputs, g, r, n).value <= RawValue(inputs, g, r, m).value
  {
    WattsAt(inputs, g, r, n);
    WattsAt(inputs, g, r, m);
    FullerWorksHarder(n, m);
    var v, w := SteeperAbove(inputs.power[n.instanceType], Utilisation(n), Utilisation(m), n.cpuAllocatable as real / 1000.0);
    ProductGrows(v, w, Cores(inputs.ctx.requests, r));
  }

  // ------------------------------------------------------------------ latency to dependencies

  /** The latency from a region to the centroid of a dependency; nothing when it cannot be told. */
  function ToCentroid(inputs: ObjectiveInputs, region: string): Service -> real {
    dep =>
      var c := CentroidOf(inputs, dep);
      if c.Some? && region in inputs.regionLatency && c.value in inputs.regionLatency[region]
      then inputs.regionLatency[region][c.value] else 0.0
  }

  predicate CanTell(inputs: ObjectiveInputs, region: string, dep: Service) {
    var c := CentroidOf(inputs, dep);
    c.Some? && region in inputs.regionLatency && c.value in inputs.regionLatency[region] && inputs.regionLatency[region][c.value] >= 0.0
  }

  lemma {:induction false} CostIsSum(inputs: ObjectiveInputs, region: string, deps: seq<Service>)
    ensures DependencyCost(inputs, region, deps).Ok? <==> forall k :: 0 <= k < |deps| ==> CanTell(inputs, region, deps[k])
    ensures DependencyCost(inputs, region, deps).Ok? ==>
              DependencyCost(inputs, region, deps).value == RealSum(deps, ToCentroid(inputs, region))
  {
    if deps != [] {
      CostIsSum(inputs, region, deps[..|deps| - 1]);
    }
  }

  /** The region of a node is the one it is said to be in, else its own; the dependencies of a replica are those of its
      service. */
  function NodeRegion(inputs: ObjectiveInputs, n: NodeContext): string {
    if n.id in inputs.nodeRegion then inputs.nodeRegion[n.id] else n.region
  }

  function Needs(inputs: ObjectiveInputs, r: ReplicaKey): seq<Service> {
    if r in inputs.services && inputs.services[r] in inputs.dependencies then inputs.dependencies[inputs.services[r]] else []
  }

  /** A Communication goal is worth the latencies from the node's region to the centroids of all dependencies of the
      replica's service, added up, and has a value exactly when each can be told. */
  lemma CommunicationExactly(inputs: ObjectiveInputs, g: Goal, r: ReplicaKey, n: NodeContext)
    requires g.kind == Communication
    ensures RawValue(inputs, g, r, n).Ok? <==>
            r in inputs.services && forall k :: 0 <= k < |Needs(inputs, r)| ==> CanTell(inputs, NodeRegion(inputs, n), Needs(inputs, r)[k])
    ensures RawValue(inputs, g, r, n).Ok? ==>
              RawValue(inputs, g, r, n).value == RealSum(Needs(inputs, r), ToCentroid(inputs, NodeRegion(inputs, n)))
  {
    CostIsSum(inputs, NodeRegion(inputs, n), Needs(inputs, r));
  }

  lemma {:induction false} NodeIsFound(nodes: seq<NodeContext>, i: nat)
    requires Distinct(NodeIds(nodes)) && i < |nodes|
    ensures FindNode(nodes, nodes[i].id) == Some(nodes[i])
  {
    var k := |nodes| - 1;
    if i < k {
      assert NodeIds(nodes[..k]) == NodeIds(nodes)[..k];
      assert NodeIds(nodes)[i] != NodeIds(nodes)[k];
      NodeIsFound(nodes[..k], i);
    }
  }

  lemma {:induction false} OnlyNodesAreFound(nodes: seq<NodeContext>, id: NodeId)
    ensures FindNode(nodes, id).Some? <==> id in NodeIds(nodes)
  {
    if nodes != [] {
      var k := |nodes| - 1;
      OnlyNodesAreFound(nodes[..k], id);
      assert NodeIds(nodes) == NodeIds(nodes[..k]) + [nodes[k].id];
    }
  }

  /** A replica is in the region of the node it is placed on, when that node is a candidate. */
  lemma RegionsExactly(inputs: ObjectiveInputs, r: ReplicaKey, i: nat)
    requires Distinct(NodeIds(inputs.ctx.nodes)) && i < |inputs.ctx.nodes|
    ensures r in CurrentRegions(inputs) <==> r in inputs.ctx.current && inputs.ctx.current[r] in NodeIds(inputs.ctx.nodes)
    ensures r in inputs.ctx.current && inputs.ctx.current[r] == inputs.ctx.nodes[i].id ==>
              CurrentRegions(inputs)[r] == NodeRegion(inputs, inputs.ctx.nodes[i])
  {
    NodeIsFound(inputs.ctx.nodes, i);
    if r in inputs.ctx.current {
      OnlyNodesAreFound(inputs.ctx.nodes, inputs.ctx.current[r]);
      if inputs.ctx.current[r] == inputs.ctx.nodes[i].id {
        assert NodeIds(inputs.ctx.nodes)[i] == inputs.ctx.current[r];
      }
    }
  }

  // ------------------------------------------------------------------ normalisation

  lemma OnlyFactor(q: real, k: real, d: real)
    requires d > 0.0 && (q - k) * d == 0.0
    ensures q == k
  {
    SignOfProduct(q - k, d);
    SignOfProduct(k - q, d);
  }

  lemma Scaled(x: real, d: real, q: real)
    requires d > 0.0 && q == x * 100.0 / d
    ensures q * d == 100.0 * x
    ensures x == 0.0 ==> q == 0.0
    ensures x == d ==> q == 100.0
  {
    assert q * d == x * 100.0;
    if x == 0.0 {
      OnlyFactor(q, 0.0, d);
    }
    if x == d {
      OnlyFactor(q, 100.0, d);
    }
  }

  /** The score of a value in a range: 0 at the least, 100 at the greatest, in proportion in between; 0 throughout when
      nothing tells values apart; and never outside. */
  lemma NormalizeExactly(v: real, lo: real, hi: real)
    ensures lo <= v <= hi && lo < hi ==> Normalize(v, lo, hi) * (hi - lo) == 100.0 * (v - lo)
    ensures hi <= lo || v <= lo ==> Normalize(v, lo, hi) == 0.0
    ensures lo < hi <= v ==> Normalize(v, lo, hi) == 100.0
  {
    if lo < hi {
      var c := if v < lo then lo else if v > hi then hi else v;
      Scaled(c - lo, hi - lo, Normalize(v, lo, hi));
    }
  }

  // ------------------------------------------------------------------ which goals can be scored

  /** Every pair of a listed replica and a candidate node has a value. */
  ghost predicate AllKnown(inputs: ObjectiveInputs, g: Goal) {
    forall r, i :: r in inputs.ctx.replicas && 0 <= i < |inputs.ctx.nodes| ==> RawValue(inputs, g, r, inputs.ctx.nodes[i]).Ok?
  }

  lemma KnownByRow(inputs: ObjectiveInputs, g: Goal)
    ensures AllKnown(inputs, g) <==> forall r :: r in inputs.ctx.replicas ==> RowScorable(inputs, g, r)
  {
  }

  lemma LinearScorable(inputs: ObjectiveInputs, g: Goal)
    requires !NothingToScore(inputs.ctx) && g.kind in {Cost, Energy, Latency}
    ensures Scorable(inputs, g) <==> (g.kind == Latency ==> g.sourceCity != "") && AllKnown(inputs, g)
  {
    var r, n := inputs.ctx.replicas[0], inputs.ctx.nodes[0];
    assert r in inputs.ctx.replicas && n in inputs.ctx.nodes;
    KnownByRow(inputs, g);
    if AllKnown(inputs, g) {
      assert RawValue(inputs, g, r, n).Ok?;
    }
  }

  /** With something to score, a Cost, Energy or Latency goal can be scored exactly when every pair has a value, a
      Latency goal with a named city; a Communication goal also needs dependencies, a region for every node, and a
      centroid for everything that some service depends on; nothing else can. */
  lemma ScorableExactly(inputs: ObjectiveInputs, g: Goal)
    requires !NothingToScore(inputs.ctx)
    ensures g.kind == Cost || g.kind == Energy ==> (Scorable(inputs, g) <==> AllKnown(inputs, g))
    ensures g.kind == Latency ==> (Scorable(inputs, g) <==> g.sourceCity != "" && AllKnown(inputs, g))
    ensures g.kind == Communication ==>
              (Scorable(inputs, g) <==>
               && AllKnown(inputs, g) && inputs.dependencies != map[] && inputs.regionLatency != map[]
               && (forall i :: 0 <= i < |inputs.ctx.nodes| ==> NodeRegion(inputs, inputs.ctx.nodes[i]) != "")
               && (forall svc, k :: svc in inputs.dependencies && 0 <= k < |inputs.dependencies[svc]| ==>
                     CentroidOf(inputs, inputs.dependencies[svc][k]).Some?))
    ensures g.kind == Migration || g.kind == OtherGoal ==> !Scorable(inputs, g)
  {
    var r, n := inputs.ctx.replicas[0], inputs.ctx.nodes[0];
    assert r in inputs.ctx.replicas && n in inputs.ctx.nodes;
    if g.kind in {Cost, Energy, Latency} {
      LinearScorable(inputs, g);
    } else if g.kind == Communication {
      KnownByRow(inputs, g);
      if AllKnown(inputs, g) {
        assert RawValue(inputs, g, r, n).Ok?;
      }
      RegionsNamed(inputs);
      DependeesListed(inputs);
    }
  }

  lemma RegionsNamed(inputs: ObjectiveInputs)
    ensures (forall n :: n in inputs.ctx.nodes ==> RegionOf(inputs, n) != "")
            <==> (forall i :: 0 <= i < |inputs.ctx.nodes| ==> NodeRegion(inputs, inputs.ctx.nodes[i]) != "")
  {
    forall n ensures RegionOf(inputs, n) == NodeRegion(inputs, n) {
    }
    if forall i :: 0 <= i < |inputs.ctx.nodes| ==> NodeRegion(inputs, inputs.ctx.nodes[i]) != "" {
      forall n | n in inputs.ctx.nodes ensures RegionOf(inputs, n) != "" {
        var i :| 0 <= i < |inputs.ctx.nodes| && inputs.ctx.nodes[i] == n;
        assert NodeRegion(inputs, inputs.ctx.nodes[i]) != "";
      }
    }
  }

  lemma DependeesListed(inputs: ObjectiveInputs)
    ensures (forall dep :: dep in Dependees(inputs) ==> CentroidOf(inputs, dep).Some?)
            <==> (forall svc, k :: svc in inputs.dependencies && 0 <= k < |inputs.dependencies[svc]| ==>
                    CentroidOf(inputs, inputs.dependencies[svc][k]).Some?)
  {
    if forall dep :: dep in Dependees(inputs) ==> CentroidOf(inputs, dep).Some? {
      forall svc, k | svc in inputs.dependencies && 0 <= k < |inputs.dependencies[svc]|
        ensures CentroidOf(inputs, inputs.dependencies[svc][k]).Some?
      {
        var dep := inputs.dependencies[svc][k];
        assert dep in inputs.dependencies[svc];
        assert dep in Dependees(inputs);
      }
    } else {
      var dep :| dep in Dependees(inputs) && CentroidOf(inputs, dep).None?;
      var svc :| svc in inputs.dependencies && dep in inputs.dependencies[svc];
      var k :| 0 <= k < |inputs.dependencies[svc]| && inputs.dependencies[svc][k] == dep;
    }
  }
}
