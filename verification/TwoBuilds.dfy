/**
 The objective is built twice, once for the solver and once for the plan's scores, and each build walks
 through the maps behind a Communication goal in orders of its own: when both builds give the same.
 */
module TwoBuilds {
  import opened Prelude
  import opened OptimizerTypes
  import opened ServiceCentroid
  import opened CentroidOrder
  import opened GoalScores
  import opened Objective

  /** The inputs of two builds that differ only in the orders in which maps are walked. */
  ghost predicate Reordered(a: ObjectiveInputs, b: ObjectiveInputs) {
    Proper(a) && Proper(b) && b == a.(walks := b.walks)
  }

  // ------------------------------------------------------------------ one dependency

  /** Regions in which the replicas of a service are at present. */
  function PlacedRegions(a: ObjectiveInputs, dep: Service): seq<string>
    requires dep in a.walks
  {
    LocatedRegions(dep, CurrentRegions(a), a.services, a.walks[dep].keys)
  }

  /** Whether the service has a centroid does not depend on the order. */
  ghost predicate Steady(a: ObjectiveInputs, dep: Service)
    requires dep in a.walks
  {
    Hopeless(a.regionLatency, PlacedRegions(a, dep)) || AnyTied(a.regionLatency, PlacedRegions(a, dep))
  }

  ghost predicate TiedFor(a: ObjectiveInputs, dep: Service, c: string)
    requires dep in a.walks
  {
    Comparable(a.regionLatency, PlacedRegions(a, dep)) && Tied(a.regionLatency, PlacedRegions(a, dep), c)
  }

  predicate SameLookup(x: Result<real, CentroidError>, y: Result<real, CentroidError>) {
    x.Ok? || y.Ok? ==> x == y
  }

  /** Both regions are equally far from every candidate node, or equally unreadable. */
  predicate SeenAlike(a: ObjectiveInputs, c: string, d: string) {
    forall i :: 0 <= i < |a.ctx.nodes| ==>
      SameLookup(LookupRegionLatency(a.regionLatency, RegionOf(a, a.ctx.nodes[i]), c),
                 LookupRegionLatency(a.regionLatency, RegionOf(a, a.ctx.nodes[i]), d))
  }

  /** The candidate nodes do not tell the service's nearest regions apart; one nearest region alone will do. */
  ghost predicate Alike(a: ObjectiveInputs, dep: Service)
    requires dep in a.walks
  {
    forall c, d :: TiedFor(a, dep, c) && TiedFor(a, dep, d) ==> SeenAlike(a, c, d)
  }

  /** Some replica that is placed depends on the service. */
  ghost predicate Used(a: ObjectiveInputs, dep: Service) {
    exists r :: r in a.ctx.replicas && r in a.services && dep in DependenciesOf(a, a.services[r])
  }

  /** What can be checked of matrix and placement before a build: every dependency has a centroid in all orders
      or in none, and the nearest regions of a used one are alike. */
  ghost predicate OrderFree(a: ObjectiveInputs)
    requires Dependees(a) <= a.walks.Keys
  {
    forall dep :: dep in Dependees(a) ==> Steady(a, dep) && (Used(a, dep) ==> Alike(a, dep))
  }

  lemma SameRegions(a: ObjectiveInputs, b: ObjectiveInputs, dep: Service)
    requires Reordered(a, b) && dep in Dependees(a)
    ensures Dependees(b) == Dependees(a) && dep in a.walks && dep in b.walks
    ensures SameAverages(a.regionLatency, PlacedRegions(a, dep), PlacedRegions(b, dep))
  {
    assert Dependees(b) == Dependees(a);
    assert CurrentRegions(b) == CurrentRegions(a);
    RegionsOfWalks(dep, CurrentRegions(a), a.services, a.regionLatency, a.walks[dep].keys, b.walks[dep].keys);
  }

  lemma SameTiedFor(a: ObjectiveInputs, b: ObjectiveInputs, dep: Service)
    requires Reordered(a, b) && dep in Dependees(a)
    ensures dep in a.walks && dep in b.walks
    ensures Steady(a, dep) <==> Steady(b, dep)
    ensures forall c :: TiedFor(a, dep, c) <==> TiedFor(b, dep, c)
  {
    SameRegions(a, b, dep);
    SameTied(a.regionLatency, PlacedRegions(a, dep), PlacedRegions(b, dep));
    if Comparable(a.regionLatency, PlacedRegions(a, dep)) {
      assert AnyTied(a.regionLatency, PlacedRegions(a, dep)) <==> AnyTied(b.regionLatency, PlacedRegions(b, dep));
    }
  }

  lemma SameSeenAlike(a: ObjectiveInputs, b: ObjectiveInputs, c: string, d: string)
    requires Reordered(a, b)
    ensures SeenAlike(a, c, d) <==> SeenAlike(b, c, d)
  {
    forall i | 0 <= i < |a.ctx.nodes| ensures RegionOf(a, a.ctx.nodes[i]) == RegionOf(b, b.ctx.nodes[i]) {
    }
  }

  /** The condition does not itself depend on the orders. */
  lemma OrderFreeCarries(a: ObjectiveInputs, b: ObjectiveInputs)
    requires Reordered(a, b) && OrderFree(a)
    ensures OrderFree(b)
  {
    assert Dependees(b) == Dependees(a);
    forall dep | dep in Dependees(b) ensures Steady(b, dep) && (Used(b, dep) ==> Alike(b, dep)) {
      SameTiedFor(a, b, dep);
      if Used(b, dep) {
        var r :| r in b.ctx.replicas && r in b.services && dep in DependenciesOf(b, b.services[r]);
        assert dep in DependenciesOf(a, a.services[r]);
        forall c, d | TiedFor(b, dep, c) && TiedFor(b, dep, d) ensures SeenAlike(b, c, d) {
          SameSeenAlike(a, b, c, d);
        }
      }
    }
  }

  /** A centroid that is found is a nearest region, when there is one. */
  lemma CentroidIsTied(a: ObjectiveInputs, dep: Service)
    requires Proper(a) && dep in a.walks && Steady(a, dep)
    ensures CentroidOf(a, dep).Some? ==> TiedFor(a, dep, CentroidOf(a, dep).value)
    ensures CentroidOf(a, dep).Some? <==> exists c :: TiedFor(a, dep, c)
  {
    var mat, regions, w := a.regionLatency, PlacedRegions(a, dep), a.walks[dep];
    if Hopeless(mat, regions) {
      HopelessFindsNone(mat, regions, w.cands);
      forall c ensures !TiedFor(a, dep, c) {
      }
    } else {
      NearestIsTied(mat, regions, w.cands);
      assert TiedFor(a, dep, CentroidOf(a, dep).value);
    }
  }

  lemma CentroidsAgree(a: ObjectiveInputs, b: ObjectiveInputs, dep: Service)
    requires Reordered(a, b) && dep in Dependees(a) && dep in a.walks && Steady(a, dep)
    ensures CentroidOf(a, dep).Some? <==> CentroidOf(b, dep).Some?
    ensures CentroidOf(a, dep).Some? ==> TiedFor(a, dep, CentroidOf(a, dep).value) && TiedFor(a, dep, CentroidOf(b, dep).value)
  {
    SameTiedFor(a, b, dep);
    CentroidIsTied(a, dep);
    CentroidIsTied(b, dep);
  }

  // ------------------------------------------------------------------ one pair

  /** A dependency whose latencies do not depend on the order. */
  ghost predicate Fixed(a: ObjectiveInputs, dep: Service) {
    dep in Dependees(a) && dep in a.walks && Steady(a, dep) && Alike(a, dep)
  }

  lemma LatencyAgrees(a: ObjectiveInputs, b: ObjectiveInputs, i: nat, dep: Service)
    requires Reordered(a, b) && i < |a.ctx.nodes| && Fixed(a, dep)
    ensures var region := RegionOf(a, a.ctx.nodes[i]);
            LatencyTo(a, region, dep).Ok? ==> LatencyTo(b, region, dep) == LatencyTo(a, region, dep)
  {
    CentroidsAgree(a, b, dep);
    if CentroidOf(a, dep).Some? {
      var c, d := CentroidOf(a, dep).value, CentroidOf(b, dep).value;
      assert SeenAlike(a, c, d);
    }
  }

  predicate LatencyFollows(a: ObjectiveInputs, b: ObjectiveInputs, region: string, dep: Service) {
    LatencyTo(a, region, dep).Ok? ==> LatencyTo(b, region, dep) == LatencyTo(a, region, dep)
  }

  lemma {:induction false} CostFollows(a: ObjectiveInputs, b: ObjectiveInputs, region: string, deps: seq<Service>)
    requires forall k {:trigger deps[k]} :: 0 <= k < |deps| ==> LatencyFollows(a, b, region, deps[k])
    ensures DependencyCost(a, region, deps).Ok? ==> DependencyCost(b, region, deps) == DependencyCost(a, region, deps)
    decreases |deps|
  {
    if deps != [] {
      CostFollows(a, b, region, deps[..|deps| - 1]);
      assert LatencyFollows(a, b, region, deps[|deps| - 1]);
    }
  }

  lemma CostAgrees(a: ObjectiveInputs, b: ObjectiveInputs, i: nat, deps: seq<Service>)
    requires Reordered(a, b) && i < |a.ctx.nodes| && forall dep :: dep in deps ==> Fixed(a, dep)
    ensures var region := RegionOf(a, a.ctx.nodes[i]);
            DependencyCost(a, region, deps).Ok? ==> DependencyCost(b, region, deps) == DependencyCost(a, region, deps)
  {
    forall k | 0 <= k < |deps| ensures LatencyFollows(a, b, RegionOf(a, a.ctx.nodes[i]), deps[k]) {
      assert Fixed(a, deps[k]);
      LatencyAgrees(a, b, i, deps[k]);
    }
    CostFollows(a, b, RegionOf(a, a.ctx.nodes[i]), deps);
  }

  /** The dependencies of a placed replica are fixed. */
  lemma UsedAreFixed(a: ObjectiveInputs, r: ReplicaKey)
    requires Proper(a) && OrderFree(a) && r in a.ctx.replicas && r in a.services
    ensures forall dep :: dep in DependenciesOf(a, a.services[r]) ==> Fixed(a, dep)
  {
    forall dep | dep in DependenciesOf(a, a.services[r]) ensures Fixed(a, dep) {
      assert dep in Dependees(a) by {
        assert a.services[r] in a.dependencies && dep in a.dependencies[a.services[r]];
      }
      assert Used(a, dep);
    }
  }

  lemma OwnRegion(a: ObjectiveInputs, b: ObjectiveInputs, n: NodeContext)
    requires Reordered(a, b)
    ensures RegionOf(b, n) == RegionOf(a, n)
  {
  }

  lemma OtherRawAgrees(a: ObjectiveInputs, b: ObjectiveInputs, g: Goal, r: ReplicaKey, n: NodeContext)
    requires Reordered(a, b) && g.kind != Communication
    ensures RawValue(b, g, r, n) == RawValue(a, g, r, n)
  {
  }

  lemma RawAgrees(a: ObjectiveInputs, b: ObjectiveInputs, g: Goal, r: ReplicaKey, i: nat)
    requires Reordered(a, b) && r in a.ctx.replicas && i < |a.ctx.nodes|
    requires g.kind == Communication ==> OrderFree(a)
    ensures RawValue(a, g, r, a.ctx.nodes[i]).Ok? ==> RawValue(b, g, r, a.ctx.nodes[i]) == RawValue(a, g, r, a.ctx.nodes[i])
  {
    if g.kind != Communication {
      OtherRawAgrees(a, b, g, r, a.ctx.nodes[i]);
    } else if r in a.services {
      UsedAreFixed(a, r);
      CostAgrees(a, b, i, DependenciesOf(a, a.services[r]));
      OwnRegion(a, b, a.ctx.nodes[i]);
      assert DependenciesOf(b, b.services[r]) == DependenciesOf(a, a.services[r]);
    }
  }

  // ------------------------------------------------------------------ one goal

  /** Both builds give every pair the same raw value. */
  ghost predicate SameRaws(a: ObjectiveInputs, b: ObjectiveInputs, g: Goal) {
    forall r, i :: r in a.ctx.replicas && 0 <= i < |a.ctx.nodes| ==>
      RawValue(a, g, r, a.ctx.nodes[i]) == RawValue(b, g, r, a.ctx.nodes[i])
  }

  lemma MissingAgrees(a: ObjectiveInputs, b: ObjectiveInputs, g: Goal)
    requires Reordered(a, b) && (g.kind == Communication ==> OrderFree(a))
    ensures MissingData(a, g).None? ==> MissingData(b, g).None?
  {
    if g.kind == Communication && MissingData(a, g).None? {
      assert Dependees(b) == Dependees(a);
      forall n | n in b.ctx.nodes ensures RegionOf(b, n) != "" {
        assert RegionOf(a, n) != "";
      }
      forall dep | dep in Dependees(b) ensures CentroidOf(b, dep).Some? {
        CentroidsAgree(a, b, dep);
      }
    }
  }

  /** Under the condition, when one build can score the goal so can the other, with the same raw values. */
  lemma ScorableCarries(a: ObjectiveInputs, b: ObjectiveInputs, g: Goal)
    requires Reordered(a, b) && (g.kind == Communication ==> OrderFree(a)) && Scorable(a, g)
    ensures Scorable(b, g) && SameRaws(a, b, g)
  {
    MissingAgrees(a, b, g);
    forall r | r in b.ctx.replicas ensures RowScorable(b, g, r) {
      assert RowScorable(a, g, r);
      forall i | 0 <= i < |b.ctx.nodes| ensures RawValue(b, g, r, b.ctx.nodes[i]).Ok? {
        RawAgrees(a, b, g, r, i);
      }
    }
    forall r, i | r in a.ctx.replicas && 0 <= i < |a.ctx.nodes|
      ensures RawValue(a, g, r, a.ctx.nodes[i]) == RawValue(b, g, r, a.ctx.nodes[i])
    {
      assert RowScorable(a, g, r);
      RawAgrees(a, b, g, r, i);
    }
  }

  // ------------------------------------------------------------------ the condition is exact for raw values

  /** The same inputs with another order of the candidates of one dependency. */
  lemma Rewalk(a: ObjectiveInputs, dep: Service, order: seq<string>) returns (b: ObjectiveInputs)
    requires Proper(a) && dep in Dependees(a) && dep in a.walks && Lists(order, a.regionLatency.Keys)
    ensures Reordered(a, b) && CentroidOf(b, dep) == Nearest(a.regionLatency, PlacedRegions(a, dep), order)
    ensures forall other :: other != dep ==> CentroidOf(b, other) == CentroidOf(a, other)
  {
    b := a.(walks := a.walks[dep := Walk(a.walks[dep].keys, order)]);
    assert Dependees(b) == Dependees(a);
    assert CurrentRegions(b) == CurrentRegions(a);
    assert ProperWalk(b.walks[dep], b.services, b.regionLatency);
  }

  lemma {:induction false} CostNeedsAll(a: ObjectiveInputs, region: string, deps: seq<Service>, dep: Service)
    requires dep in deps && DependencyCost(a, region, deps).Ok?
    ensures LatencyTo(a, region, dep).Ok?
    decreases |deps|
  {
    var before, last := deps[..|deps| - 1], deps[|deps| - 1];
    assert deps == before + [last];
    if dep in before {
      CostNeedsAll(a, region, before, dep);
    }
  }

  /** The cost moves with the latency to one dependency, as long as the others keep theirs. */
  lemma {:induction false} CostMoves(a: ObjectiveInputs, b: ObjectiveInputs, region: string, deps: seq<Service>, dep: Service)
    requires forall other :: other != dep ==> LatencyTo(b, region, other) == LatencyTo(a, region, other)
    requires LatencyTo(a, region, dep).Ok? && LatencyTo(b, region, dep).Ok? && DependencyCost(a, region, deps).Ok?
    ensures DependencyCost(b, region, deps).Ok?
    ensures var d, e := LatencyTo(b, region, dep).value - LatencyTo(a, region, dep).value,
                        DependencyCost(b, region, deps).value - DependencyCost(a, region, deps).value;
            (d >= 0.0 ==> e >= 0.0) && (d <= 0.0 ==> e <= 0.0) && (dep in deps && d != 0.0 ==> e != 0.0)
    decreases |deps|
  {
    if deps != [] {
      var before, last := deps[..|deps| - 1], deps[|deps| - 1];
      assert deps == before + [last];
      CostMoves(a, b, region, before, dep);
      assert last != dep ==> LatencyTo(b, region, last) == LatencyTo(a, region, last);
    }
  }

  /** A goal that can be scored, although some dependency has a centroid only in some orders, cannot be scored in
      another order. */
  lemma UnsteadyVaries(a: ObjectiveInputs, g: Goal, dep: Service) returns (b: ObjectiveInputs)
    requires Proper(a) && g.kind == Communication && Scorable(a, g) && dep in Dependees(a) && dep in a.walks && !Steady(a, dep)
    ensures Reordered(a, b) && !Scorable(b, g)
  {
    var _, none := UntiedVaries(a.regionLatency, PlacedRegions(a, dep), a.walks[dep].cands);
    b := Rewalk(a, dep, none);
    assert dep in Dependees(b) && CentroidOf(b, dep).None?;
  }

  /** One of two tied regions that some node tells apart is told apart from the centroid. */
  lemma Distinguished(a: ObjectiveInputs, c: string, d: string, e: string)
    requires !SeenAlike(a, c, d)
    ensures !SeenAlike(a, e, c) || !SeenAlike(a, e, d)
  {
    var i :| 0 <= i < |a.ctx.nodes| &&
             !SameLookup(LookupRegionLatency(a.regionLatency, RegionOf(a, a.ctx.nodes[i]), c),
                         LookupRegionLatency(a.regionLatency, RegionOf(a, a.ctx.nodes[i]), d));
    var region := RegionOf(a, a.ctx.nodes[i]);
    var x, y, z := LookupRegionLatency(a.regionLatency, region, c), LookupRegionLatency(a.regionLatency, region, d),
                   LookupRegionLatency(a.regionLatency, region, e);
    assert !SameLookup(z, x) || !SameLookup(z, y);
  }

  /** With another centroid of one dependency, a region that tells the two apart has another cost, or no cost. */
  lemma MovedCentroidCosts(a: ObjectiveInputs, b: ObjectiveInputs, region: string, deps: seq<Service>, dep: Service, e: string, c: string)
    requires b.regionLatency == a.regionLatency && dep in deps && DependencyCost(a, region, deps).Ok?
    requires CentroidOf(a, dep) == Some(e) && CentroidOf(b, dep) == Some(c)
    requires forall other :: other != dep ==> CentroidOf(b, other) == CentroidOf(a, other)
    requires !SameLookup(LookupRegionLatency(a.regionLatency, region, e), LookupRegionLatency(a.regionLatency, region, c))
    ensures DependencyCost(b, region, deps) != DependencyCost(a, region, deps)
  {
    CostNeedsAll(a, region, deps, dep);
    if DependencyCost(b, region, deps).Ok? {
      CostNeedsAll(b, region, deps, dep);
      forall other | other != dep ensures LatencyTo(b, region, other) == LatencyTo(a, region, other) {
        assert CentroidOf(b, other) == CentroidOf(a, other);
      }
      CostMoves(a, b, region, deps, dep);
    }
  }

  lemma CommunicationRaw(a: ObjectiveInputs, g: Goal, r: ReplicaKey, n: NodeContext)
    requires g.kind == Communication && r in a.services
    ensures RawValue(a, g, r, n) == DependencyCost(a, RegionOf(a, n), DependenciesOf(a, a.services[r]))
  {
  }

  lemma UnlikeNode(a: ObjectiveInputs, c: string, d: string) returns (i: nat)
    requires !SeenAlike(a, c, d)
    ensures i < |a.ctx.nodes|
    ensures !SameLookup(LookupRegionLatency(a.regionLatency, RegionOf(a, a.ctx.nodes[i]), c),
                        LookupRegionLatency(a.regionLatency, RegionOf(a, a.ctx.nodes[i]), d))
  {
    i :| 0 <= i < |a.ctx.nodes| &&
         !SameLookup(LookupRegionLatency(a.regionLatency, RegionOf(a, a.ctx.nodes[i]), c),
                     LookupRegionLatency(a.regionLatency, RegionOf(a, a.ctx.nodes[i]), d));
  }

  lemma MovedCentroidShows(a: ObjectiveInputs, b: ObjectiveInputs, g: Goal, r: ReplicaKey, dep: Service, e: string, c: string)
    returns (i: nat)
    requires Reordered(a, b) && g.kind == Communication && RowScorable(a, g, r) && r in a.services
    requires dep in DependenciesOf(a, a.services[r]) && CentroidOf(a, dep) == Some(e) && CentroidOf(b, dep) == Some(c)
    requires forall other :: other != dep ==> CentroidOf(b, other) == CentroidOf(a, other)
    requires !SeenAlike(a, e, c)
    ensures i < |a.ctx.nodes| && RawValue(b, g, r, a.ctx.nodes[i]) != RawValue(a, g, r, a.ctx.nodes[i])
  {
    i := UnlikeNode(a, e, c);
    var n := a.ctx.nodes[i];
    assert RawValue(a, g, r, n).Ok?;
    CommunicationRaw(a, g, r, n);
    CommunicationRaw(b, g, r, n);
    OwnRegion(a, b, n);
    MovedCentroidCosts(a, b, RegionOf(a, n), DependenciesOf(a, a.services[r]), dep, e, c);
  }

  /** A nearest region that some node tells apart from the centroid. */
  lemma UnlikeCentroid(a: ObjectiveInputs, dep: Service) returns (e: string, t: string)
    requires Proper(a) && dep in a.walks && Steady(a, dep) && !Alike(a, dep)
    ensures CentroidOf(a, dep) == Some(e) && TiedFor(a, dep, t) && !SeenAlike(a, e, t)
  {
    var c, d :| TiedFor(a, dep, c) && TiedFor(a, dep, d) && !SeenAlike(a, c, d);
    CentroidIsTied(a, dep);
    e := CentroidOf(a, dep).value;
    Distinguished(a, c, d, e);
    t := if !SeenAlike(a, e, c) then c else d;
  }

  lemma UnlikeVaries(a: ObjectiveInputs, g: Goal, dep: Service, r: ReplicaKey) returns (b: ObjectiveInputs)
    requires Proper(a) && g.kind == Communication && RowScorable(a, g, r) && r in a.ctx.replicas && r in a.services
    requires dep in Dependees(a) && dep in a.walks && Steady(a, dep) && dep in DependenciesOf(a, a.services[r]) && !Alike(a, dep)
    ensures Reordered(a, b) && !SameRaws(a, b, g)
  {
    var e, t := UnlikeCentroid(a, dep);
    var order := TiedIsNearest(a.regionLatency, PlacedRegions(a, dep), a.walks[dep].cands, t);
    b := Rewalk(a, dep, order);
    var i := MovedCentroidShows(a, b, g, r, dep, e, t);
    assert RawValue(a, g, r, a.ctx.nodes[i]) != RawValue(b, g, r, a.ctx.nodes[i]);
  }

  /** A Communication goal that can be scored in some order can be scored in every order, with the same raw
      values, exactly when every dependency has a centroid in all orders and the nearest regions of a used one
      are alike to the candidate nodes. */
  lemma RawsAreFixedIff(a: ObjectiveInputs, g: Goal)
    requires Proper(a) && g.kind == Communication && Scorable(a, g)
    ensures (forall b :: Reordered(a, b) ==> Scorable(b, g) && SameRaws(a, b, g)) <==> OrderFree(a)
  {
    if OrderFree(a) {
      forall b | Reordered(a, b) ensures Scorable(b, g) && SameRaws(a, b, g) {
        ScorableCarries(a, b, g);
      }
    } else {
      var dep :| dep in Dependees(a) && !(Steady(a, dep) && (Used(a, dep) ==> Alike(a, dep)));
      if !Steady(a, dep) {
        var b := UnsteadyVaries(a, g, dep);
      } else {
        var r :| r in a.ctx.replicas && r in a.services && dep in DependenciesOf(a, a.services[r]);
        assert RowScorable(a, g, r);
        var b := UnlikeVaries(a, g, dep, r);
      }
    }
  }

  // ------------------------------------------------------------------ the whole objective

  lemma RawCoefficient(a: ObjectiveInputs, g: Goal, raw: Scores, r: ReplicaKey, i: nat)
    requires RawOf(a, g, raw) && r in a.ctx.replicas && i < |a.ctx.nodes|
    ensures RawValue(a, g, r, a.ctx.nodes[i]) == Ok(Coefficient(raw, r, a.ctx.nodes[i].id))
  {
    assert RawRowOf(a, g, r, raw[r]);
  }

  ghost predicate SamePairs(ctx: PluginContext, x: Scores, y: Scores) {
    forall r, n {:trigger Coefficient(x, r, n)} {:trigger Coefficient(y, r, n)} ::
      r in ctx.replicas && n in NodeIds(ctx.nodes) ==> Coefficient(x, r, n) == Coefficient(y, r, n)
  }

  lemma SameRawPairs(a: ObjectiveInputs, b: ObjectiveInputs, g: Goal, x: Scores, y: Scores)
    requires Reordered(a, b) && (g.kind == Communication ==> OrderFree(a)) && RawOf(a, g, x) && RawOf(b, g, y)
    ensures SamePairs(a.ctx, x, y)
  {
    forall r, n | r in a.ctx.replicas && n in NodeIds(a.ctx.nodes) ensures Coefficient(x, r, n) == Coefficient(y, r, n) {
      var i :| 0 <= i < |a.ctx.nodes| && NodeIds(a.ctx.nodes)[i] == n;
      RawCoefficient(a, g, x, r, i);
      RawCoefficient(b, g, y, r, i);
      RawAgrees(a, b, g, r, i);
    }
  }

  lemma LowestAgrees(ctx: PluginContext, s: Scoring, t: Scoring)
    requires NormalForm(ctx.replicas, NodeIds(ctx.nodes), t.raw, t.lo, t.hi, t.part)
    requires Attained(ctx.replicas, NodeIds(ctx.nodes), s.raw, s.lo, s.hi) && SamePairs(ctx, s.raw, t.raw)
    ensures t.lo <= s.lo && s.hi <= t.hi
  {
    var r, n :| r in ctx.replicas && n in NodeIds(ctx.nodes) && Coefficient(s.raw, r, n) == s.lo;
    assert t.lo <= Coefficient(t.raw, r, n);
    var q, m :| q in ctx.replicas && m in NodeIds(ctx.nodes) && Coefficient(s.raw, q, m) == s.hi;
    assert Coefficient(t.raw, q, m) <= t.hi;
  }

  /** Equal raw values have equal ranges, and so equal scores. */
  lemma SameNormalised(ctx: PluginContext, s: Scoring, t: Scoring)
    requires Normalised(ctx, s) && Normalised(ctx, t)
    requires !NothingToScore(ctx) ==>
               && Attained(ctx.replicas, NodeIds(ctx.nodes), s.raw, s.lo, s.hi)
               && Attained(ctx.replicas, NodeIds(ctx.nodes), t.raw, t.lo, t.hi) && SamePairs(ctx, s.raw, t.raw)
    ensures SamePairs(ctx, s.part, t.part)
  {
    if !NothingToScore(ctx) {
      LowestAgrees(ctx, s, t);
      LowestAgrees(ctx, t, s);
    }
  }

  /** No enabled goal is a Communication goal, or there is nothing to score, or its raw values are fixed. */
  ghost predicate OrderFreeGoals(a: ObjectiveInputs)
    requires Dependees(a) <= a.walks.Keys
  {
    NothingToScore(a.ctx) || OrderFree(a) || forall k :: 0 <= k < |a.goals| && Enabled(a.goals[k]) ==> a.goals[k].kind != Communication
  }

  /** Two scorings of one goal from reordered inputs, under the condition. */
  ghost predicate Twins(a: ObjectiveInputs, b: ObjectiveInputs, g: Goal, s: Scoring, t: Scoring)
    requires Dependees(a) <= a.walks.Keys
  {
    && (g.kind == Communication ==> NothingToScore(a.ctx) || OrderFree(a))
    && ScoredFrom(a, g, s) && ScoredFrom(b, g, t) && Normalised(a.ctx, s) && Normalised(a.ctx, t)
  }

  lemma TwinsAgree(a: ObjectiveInputs, b: ObjectiveInputs, g: Goal, s: Scoring, t: Scoring)
    requires Reordered(a, b)
    ensures Twins(a, b, g, s, t) ==> SamePairs(a.ctx, s.part, t.part)
  {
    if Twins(a, b, g, s, t) {
      if !NothingToScore(a.ctx) {
        SameRawPairs(a, b, g, s.raw, t.raw);
      }
      SameNormalised(a.ctx, s, t);
    }
  }

  lemma SameShare(ctx: PluginContext, g: Goal, s: Scoring, t: Scoring, r: ReplicaKey, n: NodeId)
    requires Enabled(g) && LinearKind(g.kind) ==> SamePairs(ctx, s.part, t.part)
    requires r in ctx.replicas && n in NodeIds(ctx.nodes)
    ensures Contribution(g, s.part, r, n) == Contribution(g, t.part, r, n)
  {
    if Enabled(g) && LinearKind(g.kind) {
      assert Coefficient(s.part, r, n) == Coefficient(t.part, r, n);
    }
  }

  /** What a successful build returns. */
  ghost predicate BuiltFrom(a: ObjectiveInputs, ss: seq<Scoring>, o: Objective) {
    ObjectiveOf(a.ctx, a.goals, ss, o) && RawsOf(a, a.goals, ss)
  }

  lemma GoalAgrees(a: ObjectiveInputs, b: ObjectiveInputs, ss: seq<Scoring>, x: Objective, tt: seq<Scoring>, y: Objective, k: nat)
    requires Reordered(a, b) && OrderFreeGoals(a) && BuiltFrom(a, ss, x) && BuiltFrom(b, tt, y) && k < |a.goals|
    requires Enabled(a.goals[k]) && LinearKind(a.goals[k].kind)
    ensures SamePairs(a.ctx, ss[k].part, tt[k].part)
  {
    assert RawFor(a, a.goals[k], ss[k]) && RawFor(b, b.goals[k], tt[k]);
    TwinsAgree(a, b, a.goals[k], ss[k], tt[k]);
  }

  lemma {:induction false} SameAggregate(goals: seq<Goal>, x: seq<Scores>, y: seq<Scores>, r: ReplicaKey, n: NodeId)
    requires |goals| == |x| == |y|
    requires forall k :: 0 <= k < |goals| ==> Contribution(goals[k], x[k], r, n) == Contribution(goals[k], y[k], r, n)
    ensures Aggregate(goals, x, r, n) == Aggregate(goals, y, r, n)
    decreases |goals|
  {
    if goals != [] {
      var k := |goals| - 1;
      SameAggregate(goals[..k], x[..k], y[..k], r, n);
    }
  }

  ghost predicate SameObjective(x: Objective, y: Objective) {
    x.scores == y.scores && forall r :: PenaltyOf(x.penalties, r) == PenaltyOf(y.penalties, r)
  }

  lemma SameScoresAt(a: ObjectiveInputs, b: ObjectiveInputs, ss: seq<Scoring>, x: Objective, tt: seq<Scoring>, y: Objective,
                     r: ReplicaKey, n: NodeId)
    requires Reordered(a, b) && OrderFreeGoals(a) && BuiltFrom(a, ss, x) && BuiltFrom(b, tt, y)
    requires r in a.ctx.replicas && n in NodeIds(a.ctx.nodes)
    ensures Coefficient(x.scores, r, n) == Coefficient(y.scores, r, n)
  {
    forall k | 0 <= k < |a.goals|
      ensures Contribution(a.goals[k], Parts(ss)[k], r, n) == Contribution(a.goals[k], Parts(tt)[k], r, n)
    {
      if Enabled(a.goals[k]) && LinearKind(a.goals[k].kind) {
        GoalAgrees(a, b, ss, x, tt, y, k);
      }
      SameShare(a.ctx, a.goals[k], ss[k], tt[k], r, n);
    }
    SameAggregate(a.goals, Parts(ss), Parts(tt), r, n);
  }

  lemma SameCovering(ctx: PluginContext, x: Scores, y: Scores)
    requires Covering(ctx, x) && Covering(ctx, y) && SamePairs(ctx, x, y)
    ensures x == y
  {
    forall r | r in x ensures r in y && x[r] == y[r] {
      forall n | n in x[r] ensures n in y[r] && x[r][n] == y[r][n] {
        assert Coefficient(x, r, n) == Coefficient(y, r, n);
      }
    }
  }

  /** Two successful builds give the same objective. */
  lemma BuildsAgree(a: ObjectiveInputs, b: ObjectiveInputs, ss: seq<Scoring>, x: Objective, tt: seq<Scoring>, y: Objective)
    requires Reordered(a, b) && OrderFreeGoals(a) && BuiltFrom(a, ss, x) && BuiltFrom(b, tt, y)
    ensures SameObjective(x, y)
  {
    forall r, n | r in a.ctx.replicas && n in NodeIds(a.ctx.nodes)
      ensures Coefficient(x.scores, r, n) == Coefficient(y.scores, r, n)
    {
      SameScoresAt(a, b, ss, x, tt, y, r, n);
    }
    SameCovering(a.ctx, x.scores, y.scores);
    forall r ensures PenaltyOf(x.penalties, r) == PenaltyOf(y.penalties, r) {
    }
  }

  lemma SuccessCarries(a: ObjectiveInputs, b: ObjectiveInputs)
    requires Reordered(a, b) && OrderFreeGoals(a)
    requires forall k :: 0 <= k < |a.goals| ==> Acceptable(a, a.goals[k])
    ensures forall k :: 0 <= k < |b.goals| ==> Acceptable(b, b.goals[k])
  {
    forall k | 0 <= k < |b.goals| ensures Acceptable(b, b.goals[k]) {
      var g := a.goals[k];
      assert Acceptable(a, g);
      if Enabled(g) && LinearKind(g.kind) && !NothingToScore(a.ctx) {
        ScorableCarries(a, b, g);
      }
    }
  }

  /** And one build succeeds exactly when the other does. */
  lemma BuildsSucceedTogether(a: ObjectiveInputs, b: ObjectiveInputs)
    requires Reordered(a, b) && OrderFreeGoals(a)
    ensures (forall k :: 0 <= k < |a.goals| ==> Acceptable(a, a.goals[k]))
            <==> (forall k :: 0 <= k < |b.goals| ==> Acceptable(b, b.goals[k]))
  {
    if forall k :: 0 <= k < |a.goals| ==> Acceptable(a, a.goals[k]) {
      SuccessCarries(a, b);
    }
    if forall k :: 0 <= k < |b.goals| ==> Acceptable(b, b.goals[k]) {
      if OrderFree(a) {
        OrderFreeCarries(a, b);
      }
      assert Reordered(b, a) && OrderFreeGoals(b);
      SuccessCarries(b, a);
    }
  }
}
