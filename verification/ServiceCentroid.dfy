/**
 The centroid region of a service: the candidate region with least average latency to the regions its
 replicas are in.  Go iterates maps in any order, so the orders are explicit inputs.
 */
module ServiceCentroid {
  import opened Prelude
  import opened OptimizerTypes

  /** An empty namespace matches every namespace. */
  datatype Service = Service(namespace: string, name: string)

  type LatencyMatrix = map<string, map<string, real>>

  /** The orders in which one computation walks through the replicas' services and the candidate regions. */
  datatype Walk = Walk(keys: seq<ReplicaKey>, cands: seq<string>)

  ghost predicate ProperWalk(w: Walk, services: map<ReplicaKey, Service>, mat: LatencyMatrix) {
    Lists(w.keys, services.Keys) && Lists(w.cands, mat.Keys)
  }

  datatype CentroidError = NoReplicaRegions | BadLatency(a: string, b: string) | NoCandidates

  function LookupRegionLatency(mat: LatencyMatrix, a: string, b: string): Result<real, CentroidError> {
    if a !in mat || b !in mat[a] || mat[a][b] < 0.0 then Err(BadLatency(a, b)) else Ok(mat[a][b])
  }

  predicate Matches(svc: Service, s: Service) {
    if svc.namespace == "" then s.name == svc.name else s == svc
  }

  /** r runs the service and its region is known. */
  predicate Located(svc: Service, region: map<ReplicaKey, string>, services: map<ReplicaKey, Service>, r: ReplicaKey) {
    r in services && Matches(svc, services[r]) && r in region && region[r] != ""
  }

  function LocatedRegions(svc: Service, region: map<ReplicaKey, string>, services: map<ReplicaKey, Service>,
                          order: seq<ReplicaKey>): seq<string> {
    if order == [] then []
    else
      var r := order[|order| - 1];
      LocatedRegions(svc, region, services, order[..|order| - 1]) +
      (if Located(svc, region, services, r) then [region[r]] else [])
  }

  predicate Readable(mat: LatencyMatrix, cand: string, regions: seq<string>) {
    forall b :: b in regions ==> LookupRegionLatency(mat, cand, b).Ok?
  }

  /** Total latency from cand to the regions. */
  function TotalLatency(mat: LatencyMatrix, cand: string, regions: seq<string>): real
    requires Readable(mat, cand, regions)
  {
    if regions == [] then 0.0
    else
      TotalLatency(mat, cand, regions[..|regions| - 1]) +
      LookupRegionLatency(mat, cand, regions[|regions| - 1]).value
  }

  function AverageLatency(mat: LatencyMatrix, cand: string, regions: seq<string>): real
    requires Readable(mat, cand, regions) && regions != []
  {
    TotalLatency(mat, cand, regions) / |regions| as real
  }

  /** The scan over candidates; "" stands for no candidate yet. */
  function Scan(mat: LatencyMatrix, regions: seq<string>, cands: seq<string>): string
    requires regions != [] && forall i :: 0 <= i < |cands| ==> Readable(mat, cands[i], regions)
    ensures Scan(mat, regions, cands) == "" || Scan(mat, regions, cands) in cands
  {
    if cands == [] then ""
    else
      var best, cand := Scan(mat, regions, cands[..|cands| - 1]), cands[|cands| - 1];
      if best == "" || AverageLatency(mat, cand, regions) < AverageLatency(mat, best, regions) then cand else best
  }

  predicate AllReadable(mat: LatencyMatrix, regions: seq<string>, cands: seq<string>) {
    forall i :: 0 <= i < |cands| ==> Readable(mat, cands[i], regions)
  }

  /** What a walk over the candidates in this order ends with. */
  function Nearest(mat: LatencyMatrix, regions: seq<string>, cands: seq<string>): Option<string> {
    if regions == [] || !AllReadable(mat, regions, cands) || Scan(mat, regions, cands) == "" then None
    else Some(Scan(mat, regions, cands))
  }

  /** The centroid region of a service, if there is one. */
  function CentroidRegion(svc: Service, region: map<ReplicaKey, string>, services: map<ReplicaKey, Service>,
                          mat: LatencyMatrix, keyOrder: seq<ReplicaKey>, candOrder: seq<string>): Option<string> {
    Nearest(mat, LocatedRegions(svc, region, services, keyOrder), candOrder)
  }

  method SumLatency(mat: LatencyMatrix, cand: string, regions: seq<string>) returns (r: Result<real, CentroidError>)
    ensures r.Ok? <==> Readable(mat, cand, regions)
    ensures r.Ok? ==> r.value == TotalLatency(mat, cand, regions)
  {
    var sum := 0.0;
    for j := 0 to |regions|
      invariant Readable(mat, cand, regions[..j]) && sum == TotalLatency(mat, cand, regions[..j])
    {
      assert regions[..j + 1][..j] == regions[..j];
      var v := LookupRegionLatency(mat, cand, regions[j]);
      if v.Err? {
        return Err(v.error);
      }
      sum := sum + v.value;
    }
    assert regions[..|regions|] == regions;
    return Ok(sum);
  }

  method CollectRegions(svc: Service, region: map<ReplicaKey, string>, services: map<ReplicaKey, Service>,
                        keyOrder: seq<ReplicaKey>) returns (regions: seq<string>)
    requires forall k :: k in keyOrder ==> k in services
    ensures regions == LocatedRegions(svc, region, services, keyOrder)
  {
    regions := [];
    for i := 0 to |keyOrder|
      invariant regions == LocatedRegions(svc, region, services, keyOrder[..i])
    {
      var k := keyOrder[i];
      assert keyOrder[..i + 1][..i] == keyOrder[..i];
      assert k in keyOrder;
      if Matches(svc, services[k]) && k in region && region[k] != "" {
        regions := regions + [region[k]];
      }
    }
    assert keyOrder[..|keyOrder|] == keyOrder;
  }

  /** The best of the first i candidates and its average. */
  predicate Leads(mat: LatencyMatrix, regions: seq<string>, cands: seq<string>, best: string, avg: real) {
    && regions != [] && AllReadable(mat, regions, cands) && best == Scan(mat, regions, cands)
    && (best != "" ==> Readable(mat, best, regions) && avg == AverageLatency(mat, best, regions))
  }

  lemma LeadsPush(mat: LatencyMatrix, regions: seq<string>, cands: seq<string>, best: string, avg: real, cand: string)
    requires Leads(mat, regions, cands, best, avg) && Readable(mat, cand, regions)
    ensures var a := AverageLatency(mat, cand, regions);
            if best == "" || a < avg then Leads(mat, regions, cands + [cand], cand, a)
            else Leads(mat, regions, cands + [cand], best, avg)
  {
    assert (cands + [cand])[..|cands|] == cands;
    assert AllReadable(mat, regions, cands + [cand]);
  }

  method ComputeServiceCentroidRegion(svc: Service, region: map<ReplicaKey, string>, services: map<ReplicaKey, Service>,
                                      mat: LatencyMatrix, keyOrder: seq<ReplicaKey>, candOrder: seq<string>)
    returns (r: Result<string, CentroidError>)
    requires forall k :: k in keyOrder <==> k in services
    ensures CentroidRegion(svc, region, services, mat, keyOrder, candOrder) == if r.Ok? then Some(r.value) else None
  {
    var regions := CollectRegions(svc, region, services, keyOrder);
    if regions == [] {
      return Err(NoReplicaRegions);
    }
    var best, bestAvg := "", 0.0;
    for i := 0 to |candOrder|
      invariant Leads(mat, regions, candOrder[..i], best, bestAvg)
    {
      var cand := candOrder[i];
      var sum := SumLatency(mat, cand, regions);
      if sum.Err? {
        assert !AllReadable(mat, regions, candOrder);
        return Err(sum.error);
      }
      LeadsPush(mat, regions, candOrder[..i], best, bestAvg, cand);
      assert candOrder[..i + 1] == candOrder[..i] + [cand];
      var avg := sum.value / |regions| as real;
      if best == "" || avg < bestAvg {
        best, bestAvg := cand, avg;
      }
    }
    assert candOrder[..|candOrder|] == candOrder;
    return if best == "" then Err(NoCandidates) else Ok(best);
  }

  // ------------------------------------------------------------------ minimality

  /** When no candidate has the empty name, a scan ends with a candidate whose average is least. */
  lemma {:induction false} CentroidIsMinimal(mat: LatencyMatrix, regions: seq<string>, cands: seq<string>)
    requires regions != [] && AllReadable(mat, regions, cands) && "" !in cands
    ensures Scan(mat, regions, cands) == "" <==> cands == []
    ensures cands != [] ==>
              && Scan(mat, regions, cands) in cands && Readable(mat, Scan(mat, regions, cands), regions)
              && forall i :: 0 <= i < |cands| ==>
                   AverageLatency(mat, Scan(mat, regions, cands), regions) <= AverageLatency(mat, cands[i], regions)
  {
    if cands != [] {
      CentroidIsMinimal(mat, regions, cands[..|cands| - 1]);
      assert cands[|cands| - 1] in cands;
    }
  }

  /** The candidate is dearer than the nameless one, or no nearer than the best so far. */
  predicate Covered(mat: LatencyMatrix, regions: seq<string>, best: string, cand: string)
    requires regions != [] && Readable(mat, "", regions) && Readable(mat, best, regions) && Readable(mat, cand, regions)
  {
    || AverageLatency(mat, "", regions) < AverageLatency(mat, cand, regions)
    || (best != "" && AverageLatency(mat, best, regions) <= AverageLatency(mat, cand, regions))
  }

  lemma ScanStep(mat: LatencyMatrix, regions: seq<string>, cands: seq<string>)
    requires regions != [] && AllReadable(mat, regions, cands) && cands != []
    ensures var before, last := cands[..|cands| - 1], cands[|cands| - 1];
            && AllReadable(mat, regions, before) && Readable(mat, last, regions)
            && var b := Scan(mat, regions, before);
               (b == "" || b in before)
               && (b != "" ==> Readable(mat, b, regions))
               && Scan(mat, regions, cands) ==
                  if b == "" || AverageLatency(mat, last, regions) < AverageLatency(mat, b, regions) then last else b
  {
    var before := cands[..|cands| - 1];
    var b := Scan(mat, regions, before);
    if b != "" {
      var i :| 0 <= i < |before| && before[i] == b;
      assert Readable(mat, cands[i], regions);
    }
  }

  /** A further named candidate: it is covered itself, and what was covered stays so. */
  lemma CoveredCarries(mat: LatencyMatrix, regions: seq<string>, best: string, last: string, cand: string)
    requires regions != [] && Readable(mat, "", regions) && Readable(mat, best, regions)
    requires Readable(mat, last, regions) && Readable(mat, cand, regions) && last != ""
    requires cand == last || Covered(mat, regions, best, cand)
    ensures Covered(mat, regions,
                    if best == "" || AverageLatency(mat, last, regions) < AverageLatency(mat, best, regions) then last else best, cand)
  {
  }

  lemma AtEmptyName(mat: LatencyMatrix, regions: seq<string>, cands: seq<string>)
    requires regions != [] && AllReadable(mat, regions, cands) && cands != []
    requires cands[|cands| - 1] == "" && "" !in cands[..|cands| - 1]
    ensures PastEmptyName(mat, regions, cands)
  {
    ScanStep(mat, regions, cands);
    CentroidIsMinimal(mat, regions, cands[..|cands| - 1]);
  }

  ghost predicate PastEmptyName(mat: LatencyMatrix, regions: seq<string>, cands: seq<string>)
    requires regions != [] && AllReadable(mat, regions, cands)
  {
    var s := Scan(mat, regions, cands);
    && Readable(mat, "", regions) && Readable(mat, s, regions) && s in cands
    && forall i :: 0 <= i < |cands| && cands[i] != "" ==> Covered(mat, regions, s, cands[i])
  }

  /** What the scan knows once it has passed the candidate with the empty name: either that one is the
      nearest so far, or every other one is dearer than it or no nearer than the best. */
  lemma {:induction false} ScanPastEmptyName(mat: LatencyMatrix, regions: seq<string>, cands: seq<string>)
    requires regions != [] && AllReadable(mat, regions, cands) && Distinct(cands) && "" in cands
    ensures PastEmptyName(mat, regions, cands)
    decreases |cands|
  {
    var n := |cands| - 1;
    if cands[n] == "" {
      AtEmptyName(mat, regions, cands);
    } else {
      var i :| 0 <= i < |cands| && cands[i] == "";
      assert cands[..n][i] == "";
      ScanPastEmptyName(mat, regions, cands[..n]);
      ScanStep(mat, regions, cands);
      forall i | 0 <= i < |cands| && cands[i] != "" ensures Covered(mat, regions, Scan(mat, regions, cands), cands[i]) {
        assert i < n ==> cands[i] == cands[..n][i];
        CoveredCarries(mat, regions, Scan(mat, regions, cands[..n]), cands[n], cands[i]);
      }
    }
  }

  /** When a candidate has the empty name, a scan in any order ends with a nearest candidate exactly when
      some properly named one is at least as near as the nameless one. */
  lemma NamelessCentroidIsMinimalIff(mat: LatencyMatrix, regions: seq<string>, cands: seq<string>)
    requires regions != [] && AllReadable(mat, regions, cands) && Distinct(cands) && "" in cands
    ensures Readable(mat, "", regions)
    ensures (Scan(mat, regions, cands) != "" && Readable(mat, Scan(mat, regions, cands), regions)
             && forall i :: 0 <= i < |cands| ==>
                  AverageLatency(mat, Scan(mat, regions, cands), regions) <= AverageLatency(mat, cands[i], regions))
            <==> exists i :: 0 <= i < |cands| && cands[i] != "" &&
                   AverageLatency(mat, cands[i], regions) <= AverageLatency(mat, "", regions)
  {
    ScanPastEmptyName(mat, regions, cands);
    var j :| 0 <= j < |cands| && cands[j] == "";
    var s := Scan(mat, regions, cands);
    if s != "" {
      var k :| 0 <= k < |cands| && cands[k] == s;
    }
  }

  /** A candidate region with the empty name is taken for "none yet": the scan can end on a dearer region. */
  lemma EmptyNameExample()
    ensures var mat: LatencyMatrix := map["" := map["r" := 1.0], "x" := map["r" := 5.0]];
            && AllReadable(mat, ["r"], ["", "x"])
            && Scan(mat, ["r"], ["", "x"]) == "x"
            && AverageLatency(mat, "", ["r"]) < AverageLatency(mat, "x", ["r"])
  {
    var mat: LatencyMatrix := map["" := map["r" := 1.0], "x" := map["r" := 5.0]];
    assert ["r"][..0] == [];
    assert TotalLatency(mat, "", ["r"]) == 1.0 && TotalLatency(mat, "x", ["r"]) == 5.0;
    assert ["", "x"][..1] == [""] && [""][..0] == [];
    assert Scan(mat, ["r"], []) == "";
    assert Scan(mat, ["r"], [""]) == "";
  }

  // ------------------------------------------------------------------ iteration order does not matter

  lemma {:induction false} TotalOfAppend(mat: LatencyMatrix, cand: string, s: seq<string>, t: seq<string>)
    requires Readable(mat, cand, s) && Readable(mat, cand, t)
    ensures Readable(mat, cand, s + t)
    ensures TotalLatency(mat, cand, s + t) == TotalLatency(mat, cand, s) + TotalLatency(mat, cand, t)
  {
    if t == [] {
      assert s + t == s;
    } else {
      assert (s + t)[..|s + t| - 1] == s + t[..|t| - 1];
      TotalOfAppend(mat, cand, s, t[..|t| - 1]);
    }
  }

  lemma {:induction false} TotalIgnoresOrder(mat: LatencyMatrix, cand: string, s: seq<string>, t: seq<string>)
    requires multiset(s) == multiset(t) && Readable(mat, cand, s)
    ensures Readable(mat, cand, t) && TotalLatency(mat, cand, s) == TotalLatency(mat, cand, t) && |s| == |t|
    decreases |s|
  {
    assert |multiset(s)| == |multiset(t)|;
    forall b | b in t ensures b in s {
      assert b in multiset(t);
    }
    if s != [] {
      var x, rest := s[|s| - 1], s[..|s| - 1];
      var a, b := TakeOut(s, t);
      TotalIgnoresOrder(mat, cand, rest, a + b);
      TotalOfAppend(mat, cand, a, b);
      TotalOfAppend(mat, cand, a, [x]);
      TotalOfAppend(mat, cand, a + [x], b);
      assert [x][..0] == [];
    }
  }

  lemma SwapTail(a: seq<string>, x: seq<string>, b: seq<string>, rest: seq<string>)
    requires multiset(rest) == multiset(a + b)
    ensures multiset(rest + x) == multiset(a + x + b)
  {
  }

  lemma {:induction false} RegionsIgnoreOrder(svc: Service, region: map<ReplicaKey, string>,
                                              services: map<ReplicaKey, Service>, s: seq<ReplicaKey>, t: seq<ReplicaKey>)
    requires multiset(s) == multiset(t)
    ensures multiset(LocatedRegions(svc, region, services, s)) == multiset(LocatedRegions(svc, region, services, t))
    decreases |s|
  {
    assert |multiset(s)| == |multiset(t)|;
    if s == [] {
      assert t == [];
    } else {
      var x, rest := s[|s| - 1], s[..|s| - 1];
      var a, b := TakeOut(s, t);
      RegionsIgnoreOrder(svc, region, services, rest, a + b);
      assert s == rest + [x];
      RegionsInsert(svc, region, services, a, x, b, rest);
    }
  }

  lemma RegionsInsert(svc: Service, region: map<ReplicaKey, string>, services: map<ReplicaKey, Service>,
                      a: seq<ReplicaKey>, x: ReplicaKey, b: seq<ReplicaKey>, rest: seq<ReplicaKey>)
    requires multiset(LocatedRegions(svc, region, services, rest)) == multiset(LocatedRegions(svc, region, services, a + b))
    ensures multiset(LocatedRegions(svc, region, services, rest + [x]))
            == multiset(LocatedRegions(svc, region, services, a + [x] + b))
  {
    RegionsAppend(svc, region, services, a, b);
    RegionsAppend(svc, region, services, a, [x]);
    RegionsAppend(svc, region, services, a + [x], b);
    RegionsAppend(svc, region, services, rest, [x]);
    SwapTail(LocatedRegions(svc, region, services, a), LocatedRegions(svc, region, services, [x]),
             LocatedRegions(svc, region, services, b), LocatedRegions(svc, region, services, rest));
  }

  lemma {:induction false} RegionsAppend(svc: Service, region: map<ReplicaKey, string>,
                                         services: map<ReplicaKey, Service>, s: seq<ReplicaKey>, t: seq<ReplicaKey>)
    ensures LocatedRegions(svc, region, services, s + t)
            == LocatedRegions(svc, region, services, s) + LocatedRegions(svc, region, services, t)
  {
    if t == [] {
      assert s + t == s;
    } else {
      assert (s + t)[..|s + t| - 1] == s + t[..|t| - 1];
      RegionsAppend(svc, region, services, s, t[..|t| - 1]);
    }
  }

  /** Whatever the two iteration orders, the least average found is the same, and so is success. */
  lemma CentroidIgnoresOrder(svc: Service, region: map<ReplicaKey, string>, services: map<ReplicaKey, Service>, mat: LatencyMatrix,
                             k1: seq<ReplicaKey>, k2: seq<ReplicaKey>, c1: seq<string>, c2: seq<string>)
    requires multiset(k1) == multiset(k2) && (forall c :: c in c1 <==> c in c2) && "" !in c1
    requires LocatedRegions(svc, region, services, k1) != []
    requires AllReadable(mat, LocatedRegions(svc, region, services, k1), c1)
    ensures var r1, r2 := LocatedRegions(svc, region, services, k1), LocatedRegions(svc, region, services, k2);
            && r2 != [] && AllReadable(mat, r2, c2)
            && (c1 == [] <==> c2 == [])
            && (c1 != [] ==>
                  var b1, b2 := Scan(mat, r1, c1), Scan(mat, r2, c2);
                  && Readable(mat, b1, r1) && Readable(mat, b2, r2)
                  && AverageLatency(mat, b1, r1) == AverageLatency(mat, b2, r2))
  {
    var r1, r2 := LocatedRegions(svc, region, services, k1), LocatedRegions(svc, region, services, k2);
    RegionsIgnoreOrder(svc, region, services, k1, k2);
    assert |multiset(r1)| == |r1| && |multiset(r2)| == |r2|;
    forall c | c in c1 ensures Readable(mat, c, r2) && TotalLatency(mat, c, r1) == TotalLatency(mat, c, r2) {
      var i :| 0 <= i < |c1| && c1[i] == c;
      assert Readable(mat, c1[i], r1);
      TotalIgnoresOrder(mat, c, r1, r2);
    }
    forall i | 0 <= i < |c2| ensures Readable(mat, c2[i], r2) {
      assert c2[i] in c1;
    }
    CentroidIsMinimal(mat, r1, c1);
    CentroidIsMinimal(mat, r2, c2);
    assert (c1 != [] ==> c1[0] in c1) && (c2 != [] ==> c2[0] in c2);
    if c1 != [] {
      var b1, b2 := Scan(mat, r1, c1), Scan(mat, r2, c2);
      var i :| 0 <= i < |c2| && c2[i] == b1;
      var j :| 0 <= j < |c1| && c1[j] == b2;
      assert AverageLatency(mat, b2, r2) <= AverageLatency(mat, c2[i], r2);
      assert AverageLatency(mat, b1, r1) <= AverageLatency(mat, c1[j], r1);
    }
  }

  // ------------------------------------------------------------------ regions and averages on the fields

  /** The latency from a region to another; nothing when it is not listed. */
  function LatencyFrom(mat: LatencyMatrix, cand: string): string -> real {
    b => if cand in mat && b in mat[cand] then mat[cand][b] else 0.0
  }

  /** A region can be compared when it has a latency, not negative, to every region of the service, and its average is
      the sum of these, one for each replica, divided by their number. */
  lemma {:induction false} AverageExactly(mat: LatencyMatrix, cand: string, regions: seq<string>)
    requires regions != []
    ensures Readable(mat, cand, regions) <==> cand in mat && forall b :: b in regions ==> b in mat[cand] && mat[cand][b] >= 0.0
    ensures Readable(mat, cand, regions) ==>
              AverageLatency(mat, cand, regions) * |regions| as real == RealSum(regions, LatencyFrom(mat, cand))
  {
    assert regions[0] in regions;
    if Readable(mat, cand, regions) {
      assert LookupRegionLatency(mat, cand, regions[0]).Ok?;
      TotalIsSum(mat, cand, regions);
    }
  }

  lemma {:induction false} TotalIsSum(mat: LatencyMatrix, cand: string, regions: seq<string>)
    requires Readable(mat, cand, regions)
    ensures TotalLatency(mat, cand, regions) == RealSum(regions, LatencyFrom(mat, cand))
  {
    if regions != [] {
      assert regions[|regions| - 1] in regions;
      TotalIsSum(mat, cand, regions[..|regions| - 1]);
    }
  }

  /** A replica stands for its region when that is known and it runs the service, by name alone if the service has no
      namespace; `RegionsAppend` puts the replicas together. */
  lemma RegionsOfOne(svc: Service, region: map<ReplicaKey, string>, services: map<ReplicaKey, Service>, r: ReplicaKey)
    ensures LocatedRegions(svc, region, services, [r]) ==
            if r in services && services[r].name == svc.name && (svc.namespace == "" || services[r].namespace == svc.namespace)
               && r in region && region[r] != ""
            then [region[r]] else []
  {
    assert [r][..0] == [];
    assert LocatedRegions(svc, region, services, []) == [];
  }
}
