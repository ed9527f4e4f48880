/**
 When the centroid region of a service depends on the order in which the maps are walked: exactly when the
 least average is not attained by one named region alone.
 */
module CentroidOrder {
  import opened Prelude
  import opened OptimizerTypes
  import opened ServiceCentroid

  /** Every region of the matrix can be compared. */
  predicate RowsReadable(mat: LatencyMatrix, regions: seq<string>) {
    forall c :: c in mat ==> Readable(mat, c, regions)
  }

  predicate Comparable(mat: LatencyMatrix, regions: seq<string>) {
    regions != [] && RowsReadable(mat, regions)
  }

  /** A named region that no other one, named or not, is nearer than. */
  predicate Tied(mat: LatencyMatrix, regions: seq<string>, c: string)
    requires Comparable(mat, regions)
  {
    c in mat && c != "" && forall d :: d in mat ==> AverageLatency(mat, c, regions) <= AverageLatency(mat, d, regions)
  }

  ghost predicate AnyTied(mat: LatencyMatrix, regions: seq<string>)
    requires Comparable(mat, regions)
  {
    exists c :: Tied(mat, regions, c)
  }

  predicate OnlyTied(mat: LatencyMatrix, regions: seq<string>, c: string)
    requires Comparable(mat, regions)
  {
    Tied(mat, regions, c) && forall d :: d in mat && Tied(mat, regions, d) ==> d == c
  }

  ghost predicate AnyNamed(mat: LatencyMatrix) {
    exists c :: c in mat && c != ""
  }

  /** The candidates are regions of a comparable matrix. */
  ghost predicate Walkable(mat: LatencyMatrix, regions: seq<string>, cands: seq<string>) {
    Comparable(mat, regions) && forall c :: c in cands ==> c in mat
  }

  lemma ListIsReadable(mat: LatencyMatrix, regions: seq<string>, cands: seq<string>)
    requires Walkable(mat, regions, cands)
    ensures AllReadable(mat, regions, cands)
  {
    forall i | 0 <= i < |cands| ensures Readable(mat, cands[i], regions) {
      assert cands[i] in cands;
    }
  }

  // ------------------------------------------------------------------ where a walk ends

  /** A walk that meets a tied region ends with a tied region. */
  lemma {:induction false} ScanFindsTied(mat: LatencyMatrix, regions: seq<string>, cands: seq<string>, t: string)
    requires Walkable(mat, regions, cands) && t in cands && Tied(mat, regions, t)
    ensures AllReadable(mat, regions, cands) && Tied(mat, regions, Scan(mat, regions, cands))
    decreases |cands|
  {
    ListIsReadable(mat, regions, cands);
    var before, last := cands[..|cands| - 1], cands[|cands| - 1];
    assert cands == before + [last];
    ScanStep(mat, regions, cands);
    if t in before {
      ScanFindsTied(mat, regions, before, t);
    }
  }

  /** A walk that starts with a tied region ends with it. */
  lemma {:induction false} ScanKeepsFirst(mat: LatencyMatrix, regions: seq<string>, cands: seq<string>)
    requires Walkable(mat, regions, cands) && cands != [] && Tied(mat, regions, cands[0])
    ensures AllReadable(mat, regions, cands) && Scan(mat, regions, cands) == cands[0]
    decreases |cands|
  {
    ListIsReadable(mat, regions, cands);
    ScanStep(mat, regions, cands);
    if |cands| > 1 {
      ScanKeepsFirst(mat, regions, cands[..|cands| - 1]);
    } else {
      assert cands[..0] == [];
    }
  }

  /** A walk that ends on a named region finds some region. */
  lemma NamedEndFindsSome(mat: LatencyMatrix, regions: seq<string>, cands: seq<string>)
    requires Walkable(mat, regions, cands) && cands != [] && cands[|cands| - 1] != ""
    ensures AllReadable(mat, regions, cands) && Scan(mat, regions, cands) != ""
  {
    ListIsReadable(mat, regions, cands);
    ScanStep(mat, regions, cands);
  }

  /** A walk that ends on a nameless region nearer than all others finds none. */
  lemma NearerNamelessEndFindsNone(mat: LatencyMatrix, regions: seq<string>, cands: seq<string>)
    requires Walkable(mat, regions, cands) && cands != [] && cands[|cands| - 1] == ""
    requires forall d :: d in mat && d != "" ==> AverageLatency(mat, "", regions) < AverageLatency(mat, d, regions)
    ensures AllReadable(mat, regions, cands) && Scan(mat, regions, cands) == ""
  {
    ListIsReadable(mat, regions, cands);
    ScanStep(mat, regions, cands);
  }

  /** Some named region is at least as near as every other named one. */
  lemma {:induction false} LeastNamed(mat: LatencyMatrix, regions: seq<string>, cands: seq<string>) returns (m: string)
    requires Walkable(mat, regions, cands) && exists c :: c in cands && c != ""
    ensures m in cands && m != ""
    ensures forall c :: c in cands && c != "" ==> AverageLatency(mat, m, regions) <= AverageLatency(mat, c, regions)
    decreases |cands|
  {
    var before, last := cands[..|cands| - 1], cands[|cands| - 1];
    assert cands == before + [last];
    m := last;
    if exists c :: c in before && c != "" {
      m := LeastNamed(mat, regions, before);
      if last != "" && AverageLatency(mat, last, regions) < AverageLatency(mat, m, regions) {
        m := last;
      }
    }
  }

  /** Without a tied region, a nameless one is nearer than all others. */
  lemma NamelessIsNearest(mat: LatencyMatrix, regions: seq<string>, cands: seq<string>)
    requires Walkable(mat, regions, cands) && Lists(cands, mat.Keys) && AnyNamed(mat) && !AnyTied(mat, regions)
    ensures "" in mat
    ensures forall d :: d in mat && d != "" ==> AverageLatency(mat, "", regions) < AverageLatency(mat, d, regions)
  {
    var m := LeastNamed(mat, regions, cands);
    assert !Tied(mat, regions, m);
  }

  // ------------------------------------------------------------------ orders with a chosen end

  function First(order: seq<string>, i: nat): (r: seq<string>)
    requires i < |order|
    ensures |r| == |order| && r[0] == order[i]
  {
    [order[i]] + order[..i] + order[i + 1..]
  }

  function Last(order: seq<string>, i: nat): (r: seq<string>)
    requires i < |order|
    ensures |r| == |order| && r[|r| - 1] == order[i]
  {
    order[..i] + order[i + 1..] + [order[i]]
  }

  lemma StillLists(order: seq<string>, i: nat, s: set<string>)
    requires Lists(order, s) && i < |order|
    ensures Lists(First(order, i), s) && Lists(Last(order, i), s)
  {
    var f, l := First(order, i), Last(order, i);
    assert order == order[..i] + [order[i]] + order[i + 1..];
    assert forall k :: 0 <= k < |f| ==> f[k] == if k == 0 then order[i] else if k <= i then order[k - 1] else order[k];
    assert forall k :: 0 <= k < |l| ==> l[k] == if k < i then order[k] else if k < |l| - 1 then order[k + 1] else order[i];
  }

  lemma StartingWith(order: seq<string>, s: set<string>, c: string) returns (r: seq<string>)
    requires Lists(order, s) && c in s
    ensures Lists(r, s) && r != [] && r[0] == c
  {
    assert c in order;
    var i :| 0 <= i < |order| && order[i] == c;
    StillLists(order, i, s);
    r := First(order, i);
  }

  lemma EndingWith(order: seq<string>, s: set<string>, c: string) returns (r: seq<string>)
    requires Lists(order, s) && c in s
    ensures Lists(r, s) && r != [] && r[|r| - 1] == c
  {
    assert c in order;
    var i :| 0 <= i < |order| && order[i] == c;
    StillLists(order, i, s);
    r := Last(order, i);
  }

  // ------------------------------------------------------------------ when the end is the same in every order

  ghost predicate SameInEveryOrder(mat: LatencyMatrix, regions: seq<string>) {
    forall c1, c2 :: Lists(c1, mat.Keys) && Lists(c2, mat.Keys) ==> Nearest(mat, regions, c1) == Nearest(mat, regions, c2)
  }

  /** There is nothing to find, in any order: nothing to compare with, or something that cannot be read, or no
      name. */
  ghost predicate Hopeless(mat: LatencyMatrix, regions: seq<string>) {
    !Comparable(mat, regions) || !AnyNamed(mat)
  }

  lemma HopelessFindsNone(mat: LatencyMatrix, regions: seq<string>, cands: seq<string>)
    requires Hopeless(mat, regions) && Lists(cands, mat.Keys)
    ensures Nearest(mat, regions, cands) == None
  {
    if regions != [] && AllReadable(mat, regions, cands) {
      forall c | c in mat ensures Readable(mat, c, regions) {
        assert c in cands;
        var i :| 0 <= i < |cands| && cands[i] == c;
      }
    }
  }

  /** Every walk ends with a tied region, when there is one. */
  lemma NearestIsTied(mat: LatencyMatrix, regions: seq<string>, cands: seq<string>)
    requires Comparable(mat, regions) && Lists(cands, mat.Keys) && AnyTied(mat, regions)
    ensures Nearest(mat, regions, cands).Some? && Tied(mat, regions, Nearest(mat, regions, cands).value)
  {
    var t :| Tied(mat, regions, t);
    ScanFindsTied(mat, regions, cands, t);
  }

  /** And every tied region is where some walk ends. */
  lemma TiedIsNearest(mat: LatencyMatrix, regions: seq<string>, cands: seq<string>, c: string) returns (r: seq<string>)
    requires Comparable(mat, regions) && Lists(cands, mat.Keys) && Tied(mat, regions, c)
    ensures Lists(r, mat.Keys) && Nearest(mat, regions, r) == Some(c)
  {
    r := StartingWith(cands, mat.Keys, c);
    ScanKeepsFirst(mat, regions, r);
  }

  /** Without a tied region some walks find a region and some find none. */
  lemma UntiedVaries(mat: LatencyMatrix, regions: seq<string>, cands: seq<string>) returns (some: seq<string>, none: seq<string>)
    requires Comparable(mat, regions) && Lists(cands, mat.Keys) && AnyNamed(mat) && !AnyTied(mat, regions)
    ensures Lists(some, mat.Keys) && Nearest(mat, regions, some).Some?
    ensures Lists(none, mat.Keys) && Nearest(mat, regions, none).None?
  {
    var c :| c in mat && c != "";
    NamelessIsNearest(mat, regions, cands);
    some := EndingWith(cands, mat.Keys, c);
    none := EndingWith(cands, mat.Keys, "");
    NamedEndFindsSome(mat, regions, some);
    NearerNamelessEndFindsNone(mat, regions, none);
  }

  /** The walk ends alike in every order exactly when there is nothing to find, or one named region alone is
      nearest: nearer than every other named one, and at least as near as a nameless one. */
  lemma NearestIsFixedIff(mat: LatencyMatrix, regions: seq<string>, cands: seq<string>)
    requires Lists(cands, mat.Keys)
    ensures SameInEveryOrder(mat, regions) <==> Hopeless(mat, regions) || exists c :: OnlyTied(mat, regions, c)
  {
    if Hopeless(mat, regions) {
      forall c1 | Lists(c1, mat.Keys) ensures Nearest(mat, regions, c1) == None {
        HopelessFindsNone(mat, regions, c1);
      }
    } else if !AnyTied(mat, regions) {
      var some, none := UntiedVaries(mat, regions, cands);
      assert Nearest(mat, regions, some) != Nearest(mat, regions, none);
    } else if c :| OnlyTied(mat, regions, c) {
      forall c1 | Lists(c1, mat.Keys) ensures Nearest(mat, regions, c1) == Some(c) {
        NearestIsTied(mat, regions, c1);
      }
    } else {
      TwoTiedVary(mat, regions, cands);
    }
  }

  lemma TwoTiedVary(mat: LatencyMatrix, regions: seq<string>, cands: seq<string>)
    requires Comparable(mat, regions) && Lists(cands, mat.Keys) && AnyTied(mat, regions)
    requires forall c :: !OnlyTied(mat, regions, c)
    ensures !SameInEveryOrder(mat, regions)
  {
    var c :| Tied(mat, regions, c);
    assert !OnlyTied(mat, regions, c);
    var d :| d in mat && Tied(mat, regions, d) && d != c;
    var c1 := TiedIsNearest(mat, regions, cands, c);
    var c2 := TiedIsNearest(mat, regions, cands, d);
    assert Nearest(mat, regions, c1) != Nearest(mat, regions, c2);
  }

  // ------------------------------------------------------------------ the order of the replicas

  lemma {:induction false} SameElements<T>(s: seq<T>, t: seq<T>)
    requires Distinct(s) && Distinct(t) && forall x :: x in s <==> x in t
    ensures multiset(s) == multiset(t)
  {
    forall x: T ensures multiset(s)[x] == multiset(t)[x] {
      DistinctOccursOnce(s, x);
      DistinctOccursOnce(t, x);
    }
  }

  lemma {:induction false} DistinctOccursOnce<T>(s: seq<T>, x: T)
    requires Distinct(s)
    ensures multiset(s)[x] == if x in s then 1 else 0
  {
    if s != [] {
      DistinctOccursOnce(s[..|s| - 1], x);
      assert s == s[..|s| - 1] + [s[|s| - 1]];
    }
  }

  predicate SameAverage(mat: LatencyMatrix, c: string, r1: seq<string>, r2: seq<string>)
    requires r1 != [] && r2 != []
  {
    if Readable(mat, c, r1) then Readable(mat, c, r2) && AverageLatency(mat, c, r1) == AverageLatency(mat, c, r2)
    else !Readable(mat, c, r2)
  }

  /** Both lists of regions put the same average on every region that can be read. */
  ghost predicate SameAverages(mat: LatencyMatrix, r1: seq<string>, r2: seq<string>) {
    if r1 == [] then r2 == [] else r2 != [] && forall c :: SameAverage(mat, c, r1, r2)
  }

  lemma ReorderedRegions(mat: LatencyMatrix, r1: seq<string>, r2: seq<string>)
    requires multiset(r1) == multiset(r2)
    ensures SameAverages(mat, r1, r2)
  {
    assert |multiset(r1)| == |r1| && |multiset(r2)| == |r2|;
    if r1 != [] {
      forall c ensures SameAverage(mat, c, r1, r2) {
        if Readable(mat, c, r1) {
          TotalIgnoresOrder(mat, c, r1, r2);
        } else if Readable(mat, c, r2) {
          TotalIgnoresOrder(mat, c, r2, r1);
        }
      }
    }
  }

  lemma RegionsOfWalks(svc: Service, region: map<ReplicaKey, string>, services: map<ReplicaKey, Service>, mat: LatencyMatrix,
                       k1: seq<ReplicaKey>, k2: seq<ReplicaKey>)
    requires Lists(k1, services.Keys) && Lists(k2, services.Keys)
    ensures SameAverages(mat, LocatedRegions(svc, region, services, k1), LocatedRegions(svc, region, services, k2))
  {
    SameElements(k1, k2);
    RegionsIgnoreOrder(svc, region, services, k1, k2);
    ReorderedRegions(mat, LocatedRegions(svc, region, services, k1), LocatedRegions(svc, region, services, k2));
  }

  lemma {:induction false} SameScan(mat: LatencyMatrix, r1: seq<string>, r2: seq<string>, cands: seq<string>)
    requires SameAverages(mat, r1, r2) && r1 != [] && AllReadable(mat, r1, cands)
    ensures AllReadable(mat, r2, cands) && Scan(mat, r1, cands) == Scan(mat, r2, cands)
    decreases |cands|
  {
    if cands != [] {
      forall i | 0 <= i < |cands| ensures Readable(mat, cands[i], r2) {
        assert Readable(mat, cands[i], r1) && SameAverage(mat, cands[i], r1, r2);
      }
      ScanStep(mat, r1, cands);
      ScanStep(mat, r2, cands);
      SameScan(mat, r1, r2, cands[..|cands| - 1]);
      assert SameAverage(mat, cands[|cands| - 1], r1, r2) && SameAverage(mat, Scan(mat, r1, cands[..|cands| - 1]), r1, r2);
    }
  }

  lemma SameNearest(mat: LatencyMatrix, r1: seq<string>, r2: seq<string>, cands: seq<string>)
    requires SameAverages(mat, r1, r2)
    ensures Nearest(mat, r1, cands) == Nearest(mat, r2, cands)
  {
    if r1 != [] {
      if AllReadable(mat, r1, cands) {
        SameScan(mat, r1, r2, cands);
      } else {
        var i :| 0 <= i < |cands| && !Readable(mat, cands[i], r1);
        assert SameAverage(mat, cands[i], r1, r2);
      }
    }
  }

  lemma SameTied(mat: LatencyMatrix, r1: seq<string>, r2: seq<string>)
    requires SameAverages(mat, r1, r2)
    ensures Comparable(mat, r1) <==> Comparable(mat, r2)
    ensures Comparable(mat, r1) ==> forall c :: Tied(mat, r1, c) <==> Tied(mat, r2, c)
  {
    if r1 != [] {
      forall c | c in mat ensures Readable(mat, c, r1) <==> Readable(mat, c, r2) {
        assert SameAverage(mat, c, r1, r2);
      }
      if Comparable(mat, r1) {
        forall c | c in mat ensures AverageLatency(mat, c, r1) == AverageLatency(mat, c, r2) {
          assert SameAverage(mat, c, r1, r2);
        }
        forall c ensures Tied(mat, r1, c) <==> Tied(mat, r2, c) {
          TiedCarries(mat, r1, r2, c);
          TiedCarries(mat, r2, r1, c);
        }
      }
    }
  }

  lemma TiedCarries(mat: LatencyMatrix, r1: seq<string>, r2: seq<string>, c: string)
    requires Comparable(mat, r1) && Comparable(mat, r2)
    requires forall d :: d in mat ==> AverageLatency(mat, d, r1) == AverageLatency(mat, d, r2)
    ensures Tied(mat, r1, c) ==> Tied(mat, r2, c)
  {
  }

  /** The centroid region of a service is the same however both maps are walked exactly when there is nothing
      to find, or one named region alone is nearest to the regions of the service's replicas. */
  lemma CentroidIsFixedIff(svc: Service, region: map<ReplicaKey, string>, services: map<ReplicaKey, Service>, mat: LatencyMatrix, w: Walk)
    requires ProperWalk(w, services, mat)
    ensures var regions := LocatedRegions(svc, region, services, w.keys);
            (forall w1 :: ProperWalk(w1, services, mat) ==>
               CentroidRegion(svc, region, services, mat, w1.keys, w1.cands)
               == CentroidRegion(svc, region, services, mat, w.keys, w.cands))
            <==> Hopeless(mat, regions) || exists c :: OnlyTied(mat, regions, c)
  {
    var regions := LocatedRegions(svc, region, services, w.keys);
    NearestIsFixedIff(mat, regions, w.cands);
    forall w1 | ProperWalk(w1, services, mat)
      ensures CentroidRegion(svc, region, services, mat, w1.keys, w1.cands) == Nearest(mat, regions, w1.cands)
    {
      RegionsOfWalks(svc, region, services, mat, w1.keys, w.keys);
      SameNearest(mat, LocatedRegions(svc, region, services, w1.keys), regions, w1.cands);
    }
    forall c1 | Lists(c1, mat.Keys) ensures ProperWalk(Walk(w.keys, c1), services, mat) {
    }
    if forall w1 :: ProperWalk(w1, services, mat) ==>
         CentroidRegion(svc, region, services, mat, w1.keys, w1.cands) == CentroidRegion(svc, region, services, mat, w.keys, w.cands)
    {
      forall c1 | Lists(c1, mat.Keys) ensures Nearest(mat, regions, c1) == Nearest(mat, regions, w.cands) {
        var w1 := Walk(w.keys, c1);
        assert ProperWalk(w1, services, mat);
      }
    }
  }
}
