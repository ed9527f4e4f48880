/**
 The ordering half of topology-aware next fit: eligible nodes are grouped by cluster, sorted within the
 cluster, and interleaved rank by rank.
 */
module CandidateOrder {
  import opened Prelude
  import opened NextFit

  datatype NodeSummary = NodeSummary(name: string, ready: bool, freeCpu: int, freeMem: int)

  /** A Cluster object: probeAge is how long ago it was last probed, negative when it never was. */
  datatype ClusterSummary = ClusterSummary(name: string, phaseReady: bool, probeAge: int, nodes: seq<NodeSummary>)

  /** Two minutes, in seconds. */
  const PROBE_TTL := 120

  predicate Schedulable(c: ClusterSummary) {
    c.phaseReady && c.probeAge <= PROBE_TTL
  }

  predicate Eligible(n: NodeSummary) {
    n.ready && n.name != "" && !(n.freeCpu == 0 && n.freeMem == 0)
  }

  function EligibleNodes(c: ClusterSummary, k: nat): seq<OrderedNode>
    requires k <= |c.nodes|
  {
    if k == 0 || !Schedulable(c) then []
    else
      var n := c.nodes[k - 1];
      EligibleNodes(c, k - 1) +
      (if Eligible(n) then [OrderedNode(c.name, n.name, n.ready, n.freeCpu, n.freeMem)] else [])
  }

  /** The eligible nodes of all clusters, in listing order. */
  function AllEligible(clusters: seq<ClusterSummary>): seq<OrderedNode> {
    if clusters == [] then []
    else
      var last := clusters[|clusters| - 1];
      AllEligible(clusters[..|clusters| - 1]) + EligibleNodes(last, |last.nodes|)
  }

  /** The nodes of one cluster name, in order. */
  function OfCluster(ns: seq<OrderedNode>, id: string): seq<OrderedNode> {
    if ns == [] then []
    else
      OfCluster(ns[..|ns| - 1], id) + (if ns[|ns| - 1].cluster == id then [ns[|ns| - 1]] else [])
  }

  lemma {:induction false} OfOtherClusters(ns: seq<OrderedNode>, id: string)
    requires forall x :: x in ns ==> x.cluster != id
    ensures OfCluster(ns, id) == []
  {
    if ns != [] {
      OfOtherClusters(ns[..|ns| - 1], id);
    }
  }

  // ------------------------------------------------------------------ sorting

  /** Strings in lexicographic order. */
  predicate LexLeq(a: string, b: string) {
    a == [] || (b != [] && (a[0] < b[0] || (a[0] == b[0] && LexLeq(a[1..], b[1..]))))
  }

  lemma {:induction false} LexOrder(a: string, b: string, c: string)
    ensures LexLeq(a, b) || LexLeq(b, a)
    ensures LexLeq(a, b) && LexLeq(b, a) ==> a == b
    ensures LexLeq(a, b) && LexLeq(b, c) ==> LexLeq(a, c)
  {
    if a != [] && b != [] {
      LexOrder(a[1..], b[1..], if c == [] then [] else c[1..]);
      assert a == [a[0]] + a[1..] && b == [b[0]] + b[1..];
    }
  }

  predicate SortedIds(ids: seq<string>) {
    forall i, j :: 0 <= i < j < |ids| ==> LexLeq(ids[i], ids[j]) && ids[i] != ids[j]
  }

  /** Larger free CPU first, then larger free memory. */
  predicate Roomier(a: OrderedNode, b: OrderedNode) {
    a.freeCpu > b.freeCpu || (a.freeCpu == b.freeCpu && a.freeMem > b.freeMem)
  }

  predicate SortedNodes(ns: seq<OrderedNode>) {
    forall i, j :: 0 <= i < j < |ns| ==> !Roomier(ns[j], ns[i])
  }

  method SortNodes(ns: seq<OrderedNode>) returns (out: seq<OrderedNode>)
    ensures SortedNodes(out) && multiset(out) == multiset(ns)
  {
    out := [];
    var k := 0;
    while k < |ns|
      invariant 0 <= k <= |ns|
      invariant SortedNodes(out) && multiset(out) == multiset(ns[..k])
    {
      var i := 0;
      while i < |out| && !Roomier(ns[k], out[i])
        invariant 0 <= i <= |out|
        invariant forall j :: 0 <= j < i ==> !Roomier(ns[k], out[j])
      {
        i := i + 1;
      }
      InsertNodeSorted(out, ns[k], i);
      InsertKeepsNodes(out, ns, k, i);
      out := out[..i] + [ns[k]] + out[i..];
      k := k + 1;
    }
    assert ns[..k] == ns;
  }

  lemma InsertNodeSorted(out: seq<OrderedNode>, x: OrderedNode, i: nat)
    requires SortedNodes(out) && i <= |out|
    requires forall j :: 0 <= j < i ==> !Roomier(x, out[j])
    requires i < |out| ==> Roomier(x, out[i])
    ensures SortedNodes(out[..i] + [x] + out[i..])
  {
    var after := out[..i] + [x] + out[i..];
    forall a, b | 0 <= a < b < |after| ensures !Roomier(after[b], after[a]) {
      if a == i {
        assert !Roomier(out[b - 1], out[i]) || b - 1 == i;
      }
    }
  }

  lemma InsertKeepsNodes(out: seq<OrderedNode>, ns: seq<OrderedNode>, k: nat, i: nat)
    requires k < |ns| && i <= |out| && multiset(out) == multiset(ns[..k])
    ensures multiset(out[..i] + [ns[k]] + out[i..]) == multiset(ns[..k + 1])
  {
    assert out == out[..i] + out[i..];
    assert ns[..k + 1] == ns[..k] + [ns[k]];
  }

  method SortIds(keys: set<string>) returns (ids: seq<string>)
    ensures SortedIds(ids) && forall x :: x in ids <==> x in keys
  {
    ids := [];
    var left := keys;
    while left != {}
      invariant left <= keys && SortedIds(ids)
      invariant forall x :: x in ids <==> x in keys - left
      decreases left
    {
      var key :| key in left;
      var i := 0;
      while i < |ids| && !LexLeq(key, ids[i])
        invariant 0 <= i <= |ids|
        invariant forall j :: 0 <= j < i ==> !LexLeq(key, ids[j])
      {
        i := i + 1;
      }
      InsertIdSorted(ids, key, i);
      ids := ids[..i] + [key] + ids[i..];
      left := left - {key};
    }
  }

  lemma InsertIdSorted(ids: seq<string>, key: string, i: nat)
    requires SortedIds(ids) && key !in ids && i <= |ids|
    requires forall j :: 0 <= j < i ==> !LexLeq(key, ids[j])
    requires i < |ids| ==> LexLeq(key, ids[i])
    ensures SortedIds(ids[..i] + [key] + ids[i..])
    ensures forall x :: x in ids[..i] + [key] + ids[i..] <==> x in ids || x == key
  {
    var out := ids[..i] + [key] + ids[i..];
    assert ids == ids[..i] + ids[i..];
    forall a, b | 0 <= a < b < |out| ensures LexLeq(out[a], out[b]) && out[a] != out[b] {
      if b == i {
        LexOrder(ids[a], key, key);
      } else if a == i {
        LexOrder(key, ids[i], ids[b - 1]);
      }
    }
  }

  // ------------------------------------------------------------------ interleaving

  /** The rank-k nodes of the first c groups. */
  function Column(groups: seq<seq<OrderedNode>>, k: nat, c: nat): seq<OrderedNode>
    requires c <= |groups|
  {
    if c == 0 then []
    else Column(groups, k, c - 1) + (if k < |groups[c - 1]| then [groups[c - 1][k]] else [])
  }

  /** Ranks 0 to k - 1 of all groups, rank by rank. */
  function Interleaved(groups: seq<seq<OrderedNode>>, k: nat): seq<OrderedNode> {
    if k == 0 then [] else Interleaved(groups, k - 1) + Column(groups, k - 1, |groups|)
  }

  method Interleave(groups: seq<seq<OrderedNode>>) returns (ordered: seq<OrderedNode>, ghost maxLen: nat)
    ensures forall c :: 0 <= c < |groups| ==> |groups[c]| <= maxLen
    ensures ordered == Interleaved(groups, maxLen)
  {
    var m: nat := 0;
    for c := 0 to |groups|
      invariant forall d :: 0 <= d < c ==> |groups[d]| <= m
    {
      if |groups[c]| > m {
        m := |groups[c]|;
      }
    }
    maxLen := m;
    ordered := [];
    for i := 0 to m
      invariant ordered == Interleaved(groups, i)
    {
      for c := 0 to |groups|
        invariant ordered == Interleaved(groups, i) + Column(groups, i, c)
      {
        if i < |groups[c]| {
          ordered := ordered + [groups[c][i]];
        }
      }
    }
  }

  method GroupByCluster(clusters: seq<ClusterSummary>) returns (byCluster: map<string, seq<OrderedNode>>)
    ensures Grouped(byCluster, AllEligible(clusters))
  {
    byCluster := map[];
    ghost var seen: seq<OrderedNode> := [];
    for k := 0 to |clusters|
      invariant seen == AllEligible(clusters[..k])
      invariant Grouped(byCluster, seen)
    {
      var c := clusters[k];
      assert clusters[..k + 1][..k] == clusters[..k];
      if Schedulable(c) {
        byCluster := GroupNodes(c, byCluster, seen);
      } else {
        assert seen + EligibleNodes(c, |c.nodes|) == seen;
      }
      seen := seen + EligibleNodes(c, |c.nodes|);
    }
    assert clusters[..|clusters|] == clusters;
  }

  method GroupNodes(c: ClusterSummary, before: map<string, seq<OrderedNode>>, ghost seen: seq<OrderedNode>)
    returns (byCluster: map<string, seq<OrderedNode>>)
    requires Schedulable(c) && Grouped(before, seen)
    ensures Grouped(byCluster, seen + EligibleNodes(c, |c.nodes|))
  {
    byCluster := before;
    ghost var now := seen;
    for j := 0 to |c.nodes|
      invariant now == seen + EligibleNodes(c, j)
      invariant Grouped(byCluster, now)
    {
      var n := c.nodes[j];
      if Eligible(n) {
        var item := OrderedNode(c.name, n.name, n.ready, n.freeCpu, n.freeMem);
        GroupOne(byCluster, now, item);
        assert EligibleNodes(c, j + 1) == EligibleNodes(c, j) + [item];
        now := now + [item];
        byCluster := byCluster[c.name := (if c.name in byCluster then byCluster[c.name] else []) + [item]];
      }
    }
  }

  /** A cluster's sorted list of its eligible nodes. */
  predicate SortedGroup(group: seq<OrderedNode>, all: seq<OrderedNode>, id: string) {
    group != [] && SortedNodes(group) && multiset(group) == multiset(OfCluster(all, id))
  }

  method SortGroups(byCluster: map<string, seq<OrderedNode>>, ids: seq<string>, ghost all: seq<OrderedNode>)
    returns (groups: seq<seq<OrderedNode>>)
    requires Grouped(byCluster, all) && forall id :: id in ids ==> id in byCluster
    ensures |groups| == |ids|
    ensures forall c :: 0 <= c < |ids| ==> SortedGroup(groups[c], all, ids[c])
  {
    groups := [];
    while |groups| < |ids|
      invariant |groups| <= |ids|
      invariant forall c :: 0 <= c < |groups| ==> SortedGroup(groups[c], all, ids[c])
    {
      var id := ids[|groups|];
      var ns := SortNodes(byCluster[id]);
      assert SortedGroup(ns, all, id) by {
        assert |multiset(ns)| == |ns|;
      }
      groups := groups + [ns];
    }
  }

  /** Builds the candidate list.  `ids` are the clusters with an eligible node and `groups` their sorted
      node lists. */
  method BuildOrderedNodes(clusters: seq<ClusterSummary>)
    returns (ordered: seq<OrderedNode>, ghost ids: seq<string>, ghost groups: seq<seq<OrderedNode>>, ghost maxLen: nat)
    ensures SortedIds(ids) && |groups| == |ids|
    ensures forall n :: n in AllEligible(clusters) ==> n.cluster in ids
    ensures forall c :: 0 <= c < |ids| ==>
              SortedGroup(groups[c], AllEligible(clusters), ids[c]) && |groups[c]| <= maxLen
    ensures ordered == Interleaved(groups, maxLen)
    ensures multiset(ordered) == multiset(AllEligible(clusters))
  {
    var byCluster := GroupByCluster(clusters);
    var clusterIds := SortIds(byCluster.Keys);
    var sorted := SortGroups(byCluster, clusterIds, AllEligible(clusters));
    ids, groups := clusterIds, sorted;
    ordered, maxLen := Interleave(sorted);
    InterleavingIsPermutation(groups, ids, AllEligible(clusters), maxLen);
  }

  predicate Grouped(byCluster: map<string, seq<OrderedNode>>, seen: seq<OrderedNode>) {
    && (forall n :: n in seen ==> n.cluster in byCluster)
    && (forall id :: id in byCluster ==> byCluster[id] == OfCluster(seen, id) && byCluster[id] != [])
  }

  lemma GroupOne(byCluster: map<string, seq<OrderedNode>>, seen: seq<OrderedNode>, item: OrderedNode)
    requires Grouped(byCluster, seen)
    ensures var id := item.cluster;
            Grouped(byCluster[id := (if id in byCluster then byCluster[id] else []) + [item]], seen + [item])
  {
    assert (seen + [item])[..|seen|] == seen;
    if item.cluster !in byCluster {
      OfOtherClusters(seen, item.cluster);
    }
  }

  // ------------------------------------------------------------------ counting

  /** How often x occurs in the first n elements of s. */
  function CountTo<T(==)>(s: seq<T>, n: nat, x: T): nat
    requires n <= |s|
  {
    if n == 0 then 0 else CountTo(s, n - 1, x) + (if s[n - 1] == x then 1 else 0)
  }

  lemma {:induction false} CountIsMultiplicity<T>(s: seq<T>, n: nat, x: T)
    requires n <= |s|
    ensures CountTo(s, n, x) == multiset(s[..n])[x]
  {
    if n > 0 {
      CountIsMultiplicity(s, n - 1, x);
      assert s[..n] == s[..n - 1] + [s[n - 1]];
    }
  }

  lemma {:induction false} CountPrefix<T>(s: seq<T>, u: seq<T>, n: nat, x: T)
    requires n <= |s| <= |u| && forall i :: 0 <= i < n ==> u[i] == s[i]
    ensures CountTo(u, n, x) == CountTo(s, n, x)
  {
    if n > 0 {
      CountPrefix(s, u, n - 1, x);
    }
  }

  lemma {:induction false} CountConcat<T>(s: seq<T>, t: seq<T>, n: nat, x: T)
    requires n <= |t|
    ensures CountTo(s + t, |s| + n, x) == CountTo(s, |s|, x) + CountTo(t, n, x)
  {
    if n == 0 {
      CountPrefix(s, s + t, |s|, x);
    } else {
      CountConcat(s, t, n - 1, x);
    }
  }

  /** How often x occurs in s. */
  function Times<T(==)>(s: seq<T>, x: T): nat { CountTo(s, |s|, x) }

  lemma TimesConcat<T>(s: seq<T>, t: seq<T>, x: T)
    ensures Times(s + t, x) == Times(s, x) + Times(t, x)
  {
    CountConcat(s, t, |t|, x);
  }

  lemma TimesOne<T>(y: T, x: T)
    ensures Times([y], x) == if y == x then 1 else 0
  {
    assert CountTo([y], 0, x) == 0;
  }

  // ------------------------------------------------------------------ what the interleaving means

  /** A place in the groups: the rank within a cluster, and the cluster's index. */
  datatype Place = Place(rank: nat, cluster: nat) {
    predicate Before(that: Place) {
      rank < that.rank || (rank == that.rank && cluster < that.cluster)
    }
    predicate In(groups: seq<seq<OrderedNode>>) {
      cluster < |groups| && rank < |groups[cluster]|
    }
  }

  function ColumnPlaces(groups: seq<seq<OrderedNode>>, k: nat, c: nat): seq<Place>
    requires c <= |groups|
  {
    if c == 0 then [] else ColumnPlaces(groups, k, c - 1) + (if k < |groups[c - 1]| then [Place(k, c - 1)] else [])
  }

  function Places(groups: seq<seq<OrderedNode>>, k: nat): seq<Place> {
    if k == 0 then [] else Places(groups, k - 1) + ColumnPlaces(groups, k - 1, |groups|)
  }

  predicate Tells(groups: seq<seq<OrderedNode>>, ps: seq<Place>, ns: seq<OrderedNode>) {
    && |ps| == |ns|
    && (forall i :: 0 <= i < |ps| ==> ps[i].In(groups) && ns[i] == groups[ps[i].cluster][ps[i].rank])
    && (forall i, j :: 0 <= i < j < |ps| ==> ps[i].Before(ps[j]))
  }

  lemma TellsPush(groups: seq<seq<OrderedNode>>, ps: seq<Place>, ns: seq<OrderedNode>, p: Place)
    requires Tells(groups, ps, ns) && p.In(groups)
    requires forall i :: 0 <= i < |ps| ==> ps[i].Before(p)
    ensures Tells(groups, ps + [p], ns + [groups[p.cluster][p.rank]])
  {
  }

  lemma {:induction false} ColumnHolds(groups: seq<seq<OrderedNode>>, k: nat, c: nat, p: Place)
    requires c <= |groups|
    ensures Times(ColumnPlaces(groups, k, c), p) == if p.In(groups) && p.rank == k && p.cluster < c then 1 else 0
  {
    if c > 0 {
      var last := if k < |groups[c - 1]| then [Place(k, c - 1)] else [];
      ColumnHolds(groups, k, c - 1, p);
      TimesConcat(ColumnPlaces(groups, k, c - 1), last, p);
      if k < |groups[c - 1]| {
        TimesOne(Place(k, c - 1), p);
      }
    }
  }

  lemma {:induction false} PlacesHold(groups: seq<seq<OrderedNode>>, k: nat, p: Place)
    ensures Times(Places(groups, k), p) == if p.In(groups) && p.rank < k then 1 else 0
  {
    if k > 0 {
      PlacesHold(groups, k - 1, p);
      ColumnHolds(groups, k - 1, |groups|, p);
      TimesConcat(Places(groups, k - 1), ColumnPlaces(groups, k - 1, |groups|), p);
    }
  }

  lemma {:induction false} ColumnTells(groups: seq<seq<OrderedNode>>, k: nat, c: nat)
    requires c <= |groups|
    ensures Tells(groups, ColumnPlaces(groups, k, c), Column(groups, k, c))
    ensures forall i :: 0 <= i < |ColumnPlaces(groups, k, c)| ==>
              ColumnPlaces(groups, k, c)[i].rank == k && ColumnPlaces(groups, k, c)[i].cluster < c
  {
    if c > 0 {
      ColumnTells(groups, k, c - 1);
      var ps, ns := ColumnPlaces(groups, k, c - 1), Column(groups, k, c - 1);
      if k < |groups[c - 1]| {
        TellsPush(groups, ps, ns, Place(k, c - 1));
      } else {
        assert ColumnPlaces(groups, k, c) == ps && Column(groups, k, c) == ns;
      }
    }
  }

  predicate RanksBelow(ps: seq<Place>, k: nat) {
    forall i :: 0 <= i < |ps| ==> ps[i].rank < k
  }

  lemma TellsAppend(groups: seq<seq<OrderedNode>>, k: nat, ps: seq<Place>, ns: seq<OrderedNode>, qs: seq<Place>, ms: seq<OrderedNode>)
    requires Tells(groups, ps, ns) && Tells(groups, qs, ms)
    requires RanksBelow(ps, k) && forall j :: 0 <= j < |qs| ==> qs[j].rank == k
    ensures Tells(groups, ps + qs, ns + ms) && RanksBelow(ps + qs, k + 1)
  {
  }

  lemma {:induction false} PlacesTell(groups: seq<seq<OrderedNode>>, k: nat)
    ensures Tells(groups, Places(groups, k), Interleaved(groups, k)) && RanksBelow(Places(groups, k), k)
  {
    if k > 0 {
      PlacesTell(groups, k - 1);
      ColumnTells(groups, k - 1, |groups|);
      TellsAppend(groups, k - 1, Places(groups, k - 1), Interleaved(groups, k - 1),
                  ColumnPlaces(groups, k - 1, |groups|), Column(groups, k - 1, |groups|));
    }
  }

  /** Position by position: the list visits every (rank, cluster) place that exists exactly once, in
      increasing order of rank and, within a rank, of cluster. */
  lemma InterleavingVisitsPlaces(groups: seq<seq<OrderedNode>>, k: nat)
    ensures Tells(groups, Places(groups, k), Interleaved(groups, k))
    ensures forall p :: Times(Places(groups, k), p) == if p.In(groups) && p.rank < k then 1 else 0
  {
    PlacesTell(groups, k);
    forall p ensures Times(Places(groups, k), p) == if p.In(groups) && p.rank < k then 1 else 0 {
      PlacesHold(groups, k, p);
    }
  }

  /** A node of lower rank precedes every node of higher rank of any cluster, clusters come in ID order
      within a rank, and within one cluster the roomier node comes first. */
  lemma OrderedByRankThenCluster(groups: seq<seq<OrderedNode>>, ids: seq<string>, k: nat, i: nat, j: nat)
    requires |groups| == |ids| && SortedIds(ids) && i < j < |Interleaved(groups, k)|
    requires forall c :: 0 <= c < |groups| ==> SortedNodes(groups[c])
    ensures |Places(groups, k)| == |Interleaved(groups, k)|
    ensures var p, q := Places(groups, k)[i], Places(groups, k)[j];
            && p.In(groups) && q.In(groups) && p.rank <= q.rank
            && (p.rank == q.rank ==> LexLeq(ids[p.cluster], ids[q.cluster]) && ids[p.cluster] != ids[q.cluster])
            && (p.cluster == q.cluster ==>
                  var a, b := Interleaved(groups, k)[i], Interleaved(groups, k)[j];
                  p.rank < q.rank && (a.freeCpu > b.freeCpu || (a.freeCpu == b.freeCpu && a.freeMem >= b.freeMem)))
  {
    InterleavingVisitsPlaces(groups, k);
  }

  // ------------------------------------------------------------------ nothing lost, nothing added

  /** How often x occurs in g from position k on. */
  function TimesFrom(g: seq<OrderedNode>, k: nat, x: OrderedNode): nat
    decreases |g| - k
  {
    if k >= |g| then 0 else (if g[k] == x then 1 else 0) + TimesFrom(g, k + 1, x)
  }

  lemma {:induction false} TimesFromSplit(g: seq<OrderedNode>, k: nat, x: OrderedNode)
    requires k <= |g|
    ensures multiset(g[..k])[x] + TimesFrom(g, k, x) == multiset(g)[x]
    decreases |g| - k
  {
    if k == |g| {
      assert g[..k] == g;
    } else {
      TimesFromSplit(g, k + 1, x);
      assert g[..k + 1] == g[..k] + [g[k]];
    }
  }

  /** How often x occurs among the nodes of rank k or more in the first c groups. */
  function Rest(groups: seq<seq<OrderedNode>>, k: nat, c: nat, x: OrderedNode): nat
    requires c <= |groups|
  {
    if c == 0 then 0 else Rest(groups, k, c - 1, x) + TimesFrom(groups[c - 1], k, x)
  }

  /** How often x is the node of rank k in one of the first c groups. */
  function AtRank(groups: seq<seq<OrderedNode>>, k: nat, c: nat, x: OrderedNode): nat
    requires c <= |groups|
  {
    if c == 0 then 0
    else AtRank(groups, k, c - 1, x) + (if k < |groups[c - 1]| && groups[c - 1][k] == x then 1 else 0)
  }

  function BelowRank(groups: seq<seq<OrderedNode>>, k: nat, x: OrderedNode): nat {
    if k == 0 then 0 else BelowRank(groups, k - 1, x) + AtRank(groups, k - 1, |groups|, x)
  }

  lemma {:induction false} ColumnCounts(groups: seq<seq<OrderedNode>>, k: nat, c: nat, x: OrderedNode)
    requires c <= |groups|
    ensures Times(Column(groups, k, c), x) == AtRank(groups, k, c, x)
  {
    if c > 0 {
      var last := if k < |groups[c - 1]| then [groups[c - 1][k]] else [];
      ColumnCounts(groups, k, c - 1, x);
      TimesConcat(Column(groups, k, c - 1), last, x);
      if k < |groups[c - 1]| {
        TimesOne(groups[c - 1][k], x);
      }
    }
  }

  lemma {:induction false} InterleavingCounts(groups: seq<seq<OrderedNode>>, k: nat, x: OrderedNode)
    ensures Times(Interleaved(groups, k), x) == BelowRank(groups, k, x)
  {
    if k > 0 {
      InterleavingCounts(groups, k - 1, x);
      ColumnCounts(groups, k - 1, |groups|, x);
      TimesConcat(Interleaved(groups, k - 1), Column(groups, k - 1, |groups|), x);
    }
  }

  lemma {:induction false} RankLeaves(groups: seq<seq<OrderedNode>>, k: nat, c: nat, x: OrderedNode)
    requires c <= |groups|
    ensures AtRank(groups, k, c, x) + Rest(groups, k + 1, c, x) == Rest(groups, k, c, x)
  {
    if c > 0 {
      RankLeaves(groups, k, c - 1, x);
    }
  }

  lemma {:induction false} RanksLeave(groups: seq<seq<OrderedNode>>, k: nat, x: OrderedNode)
    ensures BelowRank(groups, k, x) + Rest(groups, k, |groups|, x) == Rest(groups, 0, |groups|, x)
  {
    if k > 0 {
      RanksLeave(groups, k - 1, x);
      RankLeaves(groups, k - 1, |groups|, x);
    }
  }

  lemma {:induction false} RestEmpty(groups: seq<seq<OrderedNode>>, k: nat, c: nat, x: OrderedNode)
    requires c <= |groups| && forall d :: 0 <= d < |groups| ==> |groups[d]| <= k
    ensures Rest(groups, k, c, x) == 0
  {
    if c > 0 {
      RestEmpty(groups, k, c - 1, x);
    }
  }

  lemma {:induction false} OfClusterTimes(all: seq<OrderedNode>, id: string, x: OrderedNode)
    ensures multiset(OfCluster(all, id))[x] == if x.cluster == id then multiset(all)[x] else 0
  {
    if all != [] {
      OfClusterTimes(all[..|all| - 1], id, x);
      assert all == all[..|all| - 1] + [all[|all| - 1]];
    }
  }

  lemma OneGroupTimes(group: seq<OrderedNode>, all: seq<OrderedNode>, id: string, x: OrderedNode)
    requires multiset(group) == multiset(OfCluster(all, id))
    ensures TimesFrom(group, 0, x) == if x.cluster == id then multiset(all)[x] else 0
  {
    OfClusterTimes(all, id, x);
    TimesFromSplit(group, 0, x);
  }

  lemma SortedAreDistinct(ids: seq<string>)
    requires SortedIds(ids)
    ensures Distinct(ids)
  {
  }

  lemma {:induction false} AbsentFromGroups(groups: seq<seq<OrderedNode>>, ids: seq<string>, all: seq<OrderedNode>, c: nat, x: OrderedNode)
    requires c <= |groups| == |ids| && (forall d :: 0 <= d < c ==> ids[d] != x.cluster)
    requires forall d :: 0 <= d < |groups| ==> SortedGroup(groups[d], all, ids[d])
    ensures Rest(groups, 0, c, x) == 0
  {
    if c > 0 {
      AbsentFromGroups(groups, ids, all, c - 1, x);
      OneGroupTimes(groups[c - 1], all, ids[c - 1], x);
    }
  }

  lemma {:induction false} PresentInGroups(groups: seq<seq<OrderedNode>>, ids: seq<string>, all: seq<OrderedNode>, c: nat, e: nat, x: OrderedNode)
    requires e < c <= |groups| == |ids| && ids[e] == x.cluster
    requires forall d :: 0 <= d < |ids| && d != e ==> ids[d] != x.cluster
    requires forall d :: 0 <= d < |groups| ==> SortedGroup(groups[d], all, ids[d])
    ensures Rest(groups, 0, c, x) == multiset(all)[x]
    decreases c
  {
    OneGroupTimes(groups[c - 1], all, ids[c - 1], x);
    if e == c - 1 {
      AbsentFromGroups(groups, ids, all, c - 1, x);
    } else {
      PresentInGroups(groups, ids, all, c - 1, e, x);
    }
  }

  lemma GroupTimes(groups: seq<seq<OrderedNode>>, ids: seq<string>, all: seq<OrderedNode>, x: OrderedNode)
    requires |groups| == |ids| && Distinct(ids) && (forall n :: n in all ==> n.cluster in ids)
    requires forall d :: 0 <= d < |groups| ==> SortedGroup(groups[d], all, ids[d])
    ensures Rest(groups, 0, |groups|, x) == multiset(all)[x]
  {
    if x.cluster in ids {
      var e :| 0 <= e < |ids| && ids[e] == x.cluster;
      PresentInGroups(groups, ids, all, |groups|, e, x);
    } else {
      AbsentFromGroups(groups, ids, all, |groups|, x);
      assert x !in all;
    }
  }

  /** The candidate list is a permutation of the eligible nodes. */
  lemma InterleavingIsPermutation(groups: seq<seq<OrderedNode>>, ids: seq<string>, all: seq<OrderedNode>, maxLen: nat)
    requires |groups| == |ids| && SortedIds(ids) && (forall n :: n in all ==> n.cluster in ids)
    requires forall d :: 0 <= d < |groups| ==> SortedGroup(groups[d], all, ids[d]) && |groups[d]| <= maxLen
    ensures multiset(Interleaved(groups, maxLen)) == multiset(all)
  {
    SortedAreDistinct(ids);
    var list := Interleaved(groups, maxLen);
    forall x ensures multiset(list)[x] == multiset(all)[x] {
      InterleavingCounts(groups, maxLen, x);
      CountIsMultiplicity(list, |list|, x);
      assert list[..|list|] == list;
      RanksLeave(groups, maxLen, x);
      RestEmpty(groups, maxLen, |groups|, x);
      GroupTimes(groups, ids, all, x);
    }
  }

  // ------------------------------------------------------------------ which nodes are candidates

  /** x shows a node of c that can be scheduled to: the cluster is ready and was not last probed more than two minutes
      ago, the node is ready and named, and some of its CPU or memory is reported free. */
  predicate Shows(c: ClusterSummary, n: NodeSummary, x: OrderedNode) {
    && c.phaseReady && c.probeAge <= 120
    && n.ready && n.name != "" && (n.freeCpu != 0 || n.freeMem != 0)
    && x.cluster == c.name && x.name == n.name && x.ready && x.freeCpu == n.freeCpu && x.freeMem == n.freeMem
  }

  function Of(c: ClusterSummary, x: OrderedNode): NodeSummary -> int {
    n => if Shows(c, n, x) then 1 else 0
  }

  function OfAny(x: OrderedNode): ClusterSummary -> int {
    (c: ClusterSummary) => Sum(c.nodes, Of(c, x))
  }

  lemma {:induction false} ClusterShows(c: ClusterSummary, k: nat, x: OrderedNode)
    requires k <= |c.nodes|
    ensures multiset(EligibleNodes(c, k))[x] == Sum(c.nodes[..k], Of(c, x))
  {
    if k > 0 {
      ClusterShows(c, k - 1, x);
      assert c.nodes[..k][..k - 1] == c.nodes[..k - 1];
    }
  }

  lemma {:induction false} NothingToShow(c: ClusterSummary, s: seq<NodeSummary>, x: OrderedNode)
    requires !Schedulable(c)
    ensures Sum(s, Of(c, x)) == 0
  {
    if s != [] {
      NothingToShow(c, s[..|s| - 1], x);
    }
  }

  /** The candidates are exactly the nodes that can be scheduled to, each as often as the clusters report it. */
  lemma {:induction false} CandidatesExactly(clusters: seq<ClusterSummary>, x: OrderedNode)
    ensures multiset(AllEligible(clusters))[x] == Sum(clusters, OfAny(x))
  {
    if clusters != [] {
      var c := clusters[|clusters| - 1];
      CandidatesExactly(clusters[..|clusters| - 1], x);
      ClusterShows(c, |c.nodes|, x);
      assert c.nodes[..|c.nodes|] == c.nodes;
    }
  }

  /** Clusters come in the order of their IDs as strings: a proper prefix first, else the smaller character where they
      first differ. */
  lemma {:induction false} LexExactly(a: string, b: string)
    ensures a <= b ==> LexLeq(a, b)
    ensures b < a ==> !LexLeq(a, b)
    ensures forall k :: 0 <= k < |a| && k < |b| && a[..k] == b[..k] && a[k] != b[k] ==> (LexLeq(a, b) <==> a[k] < b[k])
  {
    if a != [] && b != [] {
      LexExactly(a[1..], b[1..]);
      forall k | 0 <= k < |a| && k < |b| && a[..k] == b[..k] && a[k] != b[k] ensures LexLeq(a, b) <==> a[k] < b[k] {
        if k > 0 {
          assert a[0] == a[..k][0] && b[0] == b[..k][0];
          assert a[1..][..k - 1] == a[..k][1..] && b[1..][..k - 1] == b[..k][1..];
          assert a[1..][k - 1] == a[k] && b[1..][k - 1] == b[k];
        }
      }
    }
  }
}
