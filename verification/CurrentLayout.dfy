/**
 Collection of the current layout of a policy's replicas: stability of each replica, counts, and the
 comparison that decides whether the policy's status is written.
 */
module CurrentLayout {
  import opened Prelude

  datatype Key = Key(namespace: string, name: string)

  datatype Volume = HostPath | PersistentClaim | OtherVolume

  datatype Deployment = Deployment(key: Key, requiredAffinity: bool, volumes: seq<Volume>)

  datatype Reason = RequiredNodeAffinity | HostPathVolume | ClaimVolume | ClusterIdEmpty | NodeNameEmpty | ReplicaNotRunning

  datatype Binding = Binding(
    owner: Key, index: int, statusCluster: string, statusNode: string, targetCluster: string, targetNode: string, running: bool)

  datatype Source = FromStatus | FromSpec | UnknownSource

  /** One replica of the layout; why is None when it is stable. */
  datatype Item = Item(key: Key, index: int, cluster: string, node: string, source: Source, why: Option<Reason>) {
    function Sig(): Signature { Signature(key, index, cluster, node, source) }
  }

  /** What the comparison of layouts looks at. */
  datatype Signature = Signature(key: Key, index: int, cluster: string, node: string, source: Source)

  // ------------------------------------------------------------------ one replica

  function FirstBlocking(volumes: seq<Volume>): Option<Reason> {
    if volumes == [] then None
    else
      match volumes[0]
      case HostPath => Some(HostPathVolume)
      case PersistentClaim => Some(ClaimVolume)
      case OtherVolume => FirstBlocking(volumes[1..])
  }

  /** Why the template of a deployment cannot move, if it cannot. */
  function NonMigratable(d: Deployment): Option<Reason> {
    if d.requiredAffinity then Some(RequiredNodeAffinity) else FirstBlocking(d.volumes)
  }

  /** Why a replica is unstable, the first reason that applies. */
  function Instability(d: Deployment, cluster: string, node: string, running: bool): Option<Reason> {
    if NonMigratable(d).Some? then NonMigratable(d)
    else if cluster == "" then Some(ClusterIdEmpty)
    else if node == "" then Some(NodeNameEmpty)
    else if !running then Some(ReplicaNotRunning)
    else None
  }

  /** The observed place of the binding, else the desired one. */
  function PlaceOf(b: Binding): (string, string, Source) {
    if b.statusNode != "" || b.statusCluster != "" then (b.statusCluster, b.statusNode, FromStatus)
    else if b.targetNode != "" || b.targetCluster != "" then (b.targetCluster, b.targetNode, FromSpec)
    else ("", "", UnknownSource)
  }

  function ItemOf(d: Deployment, index: int, b: Binding): Item {
    var (cluster, node, source) := PlaceOf(b);
    Item(d.key, index, cluster, node, source, Instability(d, cluster, node, b.running))
  }

  // ------------------------------------------------------------------ index of bindings

  type Index = map<Key, map<int, Binding>>

  /** The last binding listed for a replica. */
  function LastBinding(bindings: seq<Binding>, key: Key, index: int): Option<Binding> {
    if bindings == [] then None
    else
      var b := bindings[|bindings| - 1];
      if b.owner == key && b.index == index then Some(b) else LastBinding(bindings[..|bindings| - 1], key, index)
  }

  function Lookup(index: Index, key: Key, i: int): Option<Binding> {
    if key in index && i in index[key] then Some(index[key][i]) else None
  }

  ghost predicate Indexes(index: Index, bindings: seq<Binding>) {
    forall k, i :: Lookup(index, k, i) == LastBinding(bindings, k, i)
  }

  method IndexBindings(bindings: seq<Binding>) returns (index: Index)
    ensures Indexes(index, bindings)
  {
    index := map[];
    for j := 0 to |bindings|
      invariant forall k, i :: Lookup(index, k, i) == LastBinding(bindings[..j], k, i)
    {
      var b := bindings[j];
      assert bindings[..j + 1][..j] == bindings[..j];
      var m := if b.owner in index then index[b.owner] else map[];
      index := index[b.owner := m[b.index := b]];
    }
    assert bindings[..|bindings|] == bindings;
  }

  // ------------------------------------------------------------------ counting

  datatype Query = IsStable | IsUnstable | HasReason(reason: Reason) | IsPlaced

  /** Both halves of the place are known. */
  predicate PlacedSig(s: Signature) { s.cluster != "" && s.node != "" }

  predicate Meets(it: Item, q: Query) {
    match q
    case IsStable => it.why.None?
    case IsUnstable => it.why.Some?
    case HasReason(r) => it.why == Some(r)
    case IsPlaced => PlacedSig(it.Sig())
  }

  /** How many of the first n items meet the query. */
  function CountTo(items: seq<Item>, n: nat, q: Query): (c: nat)
    requires n <= |items|
    ensures c <= n
  {
    if n == 0 then 0 else CountTo(items, n - 1, q) + (if Meets(items[n - 1], q) then 1 else 0)
  }

  function Count(items: seq<Item>, q: Query): (c: nat)
    ensures c <= |items|
  {
    CountTo(items, |items|, q)
  }

  lemma {:induction false} CountAgrees(a: seq<Item>, b: seq<Item>, n: nat, q: Query)
    requires n <= |a| && n <= |b| && forall i :: 0 <= i < n ==> a[i] == b[i]
    ensures CountTo(a, n, q) == CountTo(b, n, q)
  {
    if n > 0 {
      CountAgrees(a, b, n - 1, q);
    }
  }

  lemma CountPush(items: seq<Item>, it: Item, q: Query)
    ensures Count(items + [it], q) == Count(items, q) + (if Meets(it, q) then 1 else 0)
  {
    CountAgrees(items, items + [it], |items|, q);
  }

  lemma {:induction false} CountsSplit(items: seq<Item>, n: nat)
    requires n <= |items|
    ensures CountTo(items, n, IsStable) + CountTo(items, n, IsUnstable) == n
  {
    if n > 0 {
      CountsSplit(items, n - 1);
    }
  }

  function Get<K>(m: map<K, nat>, k: K): nat { if k in m then m[k] else 0 }

  /** Sum of all values of a map, in any order. */
  ghost function SumOf<K>(m: map<K, nat>): nat
    decreases |m|
  {
    if m == map[] then 0
    else
      var k :| k in m;
      m[k] + SumOf(m - {k})
  }

  lemma {:induction false} SumTakes<K>(m: map<K, nat>, k: K)
    requires k in m
    ensures SumOf(m) == m[k] + SumOf(m - {k})
    decreases |m|
  {
    var j :| j in m && SumOf(m) == m[j] + SumOf(m - {j});
    if j != k {
      SumTakes(m - {j}, k);
      SumTakes(m - {k}, j);
      assert m - {j} - {k} == m - {k} - {j};
    }
  }

  lemma SumBump<K>(m: map<K, nat>, k: K)
    ensures SumOf(m[k := Get(m, k) + 1]) == SumOf(m) + 1
  {
    var after := m[k := Get(m, k) + 1];
    SumTakes(after, k);
    if k in m {
      SumTakes(m, k);
      assert after - {k} == m - {k};
    } else {
      assert after - {k} == m;
    }
  }

  /** The counters kept beside a list of items; a reason that does not occur has no counter. */
  ghost predicate Tallied(items: seq<Item>, stable: nat, unstable: nat, reasons: map<Reason, nat>) {
    && stable == Count(items, IsStable) && unstable == Count(items, IsUnstable)
    && (forall r :: Get(reasons, r) == Count(items, HasReason(r)))
    && (forall r :: r in reasons ==> reasons[r] > 0)
    && SumOf(reasons) == unstable
  }

  lemma TallyPush(items: seq<Item>, it: Item, stable: nat, unstable: nat, reasons: map<Reason, nat>)
    requires Tallied(items, stable, unstable, reasons)
    ensures it.why.None? ==> Tallied(items + [it], stable + 1, unstable, reasons)
    ensures it.why.Some? ==>
              Tallied(items + [it], stable, unstable + 1, reasons[it.why.value := Get(reasons, it.why.value) + 1])
  {
    CountPush(items, it, IsStable);
    CountPush(items, it, IsUnstable);
    forall r ensures Count(items + [it], HasReason(r)) == Count(items, HasReason(r)) + (if Meets(it, HasReason(r)) then 1 else 0) {
      CountPush(items, it, HasReason(r));
    }
    if it.why.Some? {
      SumBump(reasons, it.why.value);
    }
  }

  // ------------------------------------------------------------------ collection

  /** Where an item comes from: the deployment's position and the replica index. */
  datatype Origin = Origin(d: nat, index: int)

  /** The binding that decides about a replica. */
  function Deciding(deployments: seq<Deployment>, bindings: seq<Binding>, o: Origin): Option<Binding> {
    if o.d < |deployments| then LastBinding(bindings, deployments[o.d].key, o.index) else None
  }

  /** The item that is collected for a replica. */
  predicate ComesFrom(deployments: seq<Deployment>, bindings: seq<Binding>, it: Item, o: Origin) {
    && Deciding(deployments, bindings, o).Some?
    && it == ItemOf(deployments[o.d], o.index, Deciding(deployments, bindings, o).value)
  }

  ghost predicate Traced(deployments: seq<Deployment>, bindings: seq<Binding>, items: seq<Item>, origins: seq<Origin>) {
    && |origins| == |items| && Distinct(origins)
    && forall i {:trigger ComesFrom(deployments, bindings, items[i], origins[i])} ::
         0 <= i < |items| ==> ComesFrom(deployments, bindings, items[i], origins[i])
  }

  /** Every replica that has a binding is in the list exactly once, as its last binding shows it. */
  ghost predicate CollectedFrom(deployments: seq<Deployment>, bindings: seq<Binding>, items: seq<Item>, origins: seq<Origin>) {
    && Traced(deployments, bindings, items, origins)
    && forall o :: o in origins <==> Deciding(deployments, bindings, o).Some?
  }

  ghost predicate Collected(deployments: seq<Deployment>, bindings: seq<Binding>, items: seq<Item>) {
    exists origins :: CollectedFrom(deployments, bindings, items, origins)
  }

  lemma TracePush(deployments: seq<Deployment>, bindings: seq<Binding>, items: seq<Item>, origins: seq<Origin>, o: Origin)
    requires Traced(deployments, bindings, items, origins) && o !in origins
    requires Deciding(deployments, bindings, o).Some?
    ensures var it := ItemOf(deployments[o.d], o.index, Deciding(deployments, bindings, o).value);
            Traced(deployments, bindings, items + [it], origins + [o])
  {
  }

  lemma HasElement(s: set<int>)
    ensures s == {} || exists i :: i in s
  {
    if forall i :: i !in s {
      assert s == {};
    }
  }

  /** Adds the replicas of one deployment, in any order. */
  method CollectDeployment(deployments: seq<Deployment>, d: nat, ghost bindings: seq<Binding>, index: Index, before: seq<Item>,
                           stable0: nat, unstable0: nat, reasons0: map<Reason, nat>, ghost origins0: seq<Origin>)
    returns (items: seq<Item>, stable: nat, unstable: nat, reasons: map<Reason, nat>, ghost origins: seq<Origin>)
    requires d < |deployments| && Indexes(index, bindings) && Tallied(before, stable0, unstable0, reasons0)
    requires Traced(deployments, bindings, before, origins0)
    requires forall o :: o in origins0 ==> o.d < d
    ensures Tallied(items, stable, unstable, reasons)
    ensures Traced(deployments, bindings, items, origins)
    ensures forall o :: o in origins <==> o in origins0 || (o.d == d && Deciding(deployments, bindings, o).Some?)
  {
    items, stable, unstable, reasons, origins := before, stable0, unstable0, reasons0, origins0;
    var dep := deployments[d];
    assert forall i :: Lookup(index, dep.key, i) == LastBinding(bindings, dep.key, i);
    if dep.key !in index {
      return;
    }
    var replicas := index[dep.key];
    var left: set<int> := replicas.Keys;
    while left != {}
      invariant left <= replicas.Keys
      invariant Tallied(items, stable, unstable, reasons)
      invariant Traced(deployments, bindings, items, origins)
      invariant forall o :: o in origins <==> o in origins0 || (o.d == d && o.index in replicas && o.index !in left)
      decreases left
    {
      assert exists i :: i in left by {
        HasElement(left);
      }
      var i :| i in left;
      left := left - {i};
      var it := ItemOf(dep, i, replicas[i]);
      TallyPush(items, it, stable, unstable, reasons);
      if it.why.None? {
        stable := stable + 1;
      } else {
        unstable := unstable + 1;
        reasons := reasons[it.why.value := Get(reasons, it.why.value) + 1];
      }
      TracePush(deployments, bindings, items, origins, Origin(d, i));
      items, origins := items + [it], origins + [Origin(d, i)];
    }
  }

  /** Every replica of a selected deployment that has a binding is collected exactly once, with its counts. */
  method CollectLayout(deployments: seq<Deployment>, bindings: seq<Binding>)
    returns (items: seq<Item>, stable: nat, unstable: nat, reasons: map<Reason, nat>, ghost origins: seq<Origin>)
    ensures Tallied(items, stable, unstable, reasons)
    ensures CollectedFrom(deployments, bindings, items, origins)
  {
    var index := IndexBindings(bindings);
    items, stable, unstable, reasons, origins := [], 0, 0, map[], [];
    for d := 0 to |deployments|
      invariant Tallied(items, stable, unstable, reasons)
      invariant Traced(deployments, bindings, items, origins)
      invariant forall o :: o in origins <==> o.d < d && Deciding(deployments, bindings, o).Some?
    {
      items, stable, unstable, reasons, origins :=
        CollectDeployment(deployments, d, bindings, index, items, stable, unstable, reasons, origins);
    }
  }

  /** Counts are conserved: stable and unstable replicas make up the observed ones, and the reasons make up
      the unstable ones. */
  lemma CountsAreConserved(items: seq<Item>, stable: nat, unstable: nat, reasons: map<Reason, nat>)
    requires Tallied(items, stable, unstable, reasons)
    ensures stable + unstable == |items| && SumOf(reasons) == unstable
  {
    CountsSplit(items, |items|);
  }

  // ------------------------------------------------------------------ comparison of layouts

  function Sigs(items: seq<Item>): (sigs: seq<Signature>)
    ensures |sigs| == |items| && forall i :: 0 <= i < |items| ==> sigs[i] == items[i].Sig()
  {
    seq(|items|, i requires 0 <= i < |items| => items[i].Sig())
  }

  method CountSignatures(x: seq<Signature>) returns (counts: map<Signature, nat>)
    ensures forall s :: Get(counts, s) == multiset(x)[s]
  {
    counts := map[];
    for i := 0 to |x|
      invariant forall s :: Get(counts, s) == multiset(x[..i])[s]
    {
      assert x[..i + 1] == x[..i] + [x[i]];
      counts := counts[x[i] := Get(counts, x[i]) + 1];
    }
    assert x[..|x|] == x;
  }

  lemma CountSuffix(y: seq<Signature>, j: nat)
    requires j < |y|
    ensures multiset(y)[y[j]] > multiset(y[..j])[y[j]]
  {
    assert y == y[..j] + [y[j]] + y[j + 1..];
  }

  /** Takes the signatures of y out of the counts; short means one of them was missing. */
  method TakeAway(counts: map<Signature, nat>, y: seq<Signature>) returns (short: bool, rest: map<Signature, nat>)
    ensures !short ==> forall s :: Get(rest, s) + multiset(y)[s] == Get(counts, s)
    ensures short ==> exists s :: multiset(y)[s] > Get(counts, s)
  {
    short, rest := false, counts;
    for j := 0 to |y|
      invariant forall s :: Get(rest, s) + multiset(y[..j])[s] == Get(counts, s)
    {
      assert y[..j + 1] == y[..j] + [y[j]];
      if Get(rest, y[j]) == 0 {
        CountSuffix(y, j);
        return true, rest;
      }
      rest := rest[y[j] := Get(rest, y[j]) - 1];
    }
    assert y[..|y|] == y;
  }

  method AllZero(counts: map<Signature, nat>) returns (zero: bool)
    ensures zero <==> forall s :: Get(counts, s) == 0
  {
    var left := counts.Keys;
    while left != {}
      invariant left <= counts.Keys && forall s :: s in counts && s !in left ==> counts[s] == 0
      decreases left
    {
      var s :| s in left;
      left := left - {s};
      if counts[s] != 0 {
        assert Get(counts, s) != 0;
        return false;
      }
    }
    return true;
  }

  lemma SameMultiset(x: seq<Signature>, y: seq<Signature>)
    ensures multiset(x) == multiset(y) <==> forall s :: multiset(x)[s] == multiset(y)[s]
    ensures multiset(x) == multiset(y) ==> |x| == |y|
  {
    assert |multiset(x)| == |x| && |multiset(y)| == |y|;
  }

  /** True exactly when both layouts have the same signatures, each equally often, in any order. */
  method EqualCurrentLayout(a: seq<Item>, b: seq<Item>) returns (equal: bool)
    ensures equal <==> multiset(Sigs(a)) == multiset(Sigs(b))
  {
    SameMultiset(Sigs(a), Sigs(b));
    if |a| != |b| {
      return false;
    }
    var counts := CountSignatures(Sigs(a));
    var short, rest := TakeAway(counts, Sigs(b));
    if short {
      return false;
    }
    equal := AllZero(rest);
  }

  method EqualCounts(a: map<Reason, nat>, b: map<Reason, nat>) returns (equal: bool)
    ensures equal <==> a == b
  {
    if |a| != |b| {
      return false;
    }
    var left := a.Keys;
    while left != {}
      invariant left <= a.Keys && forall k :: k in a && k !in left ==> k in b && b[k] == a[k]
      decreases left
    {
      var k :| k in left;
      left := left - {k};
      if k !in b || b[k] != a[k] {
        return false;
      }
    }
    SameSizeSubset(a.Keys, b.Keys);
    assert forall k :: k in b <==> k in a;
    return true;
  }

  /** Counters without zero entries are equal when they read the same. */
  lemma ReadTheSame(a: map<Reason, nat>, b: map<Reason, nat>)
    requires forall r :: r in a ==> a[r] > 0
    requires forall r :: r in b ==> b[r] > 0
    requires forall r :: Get(a, r) == Get(b, r)
    ensures a == b
  {
    forall r ensures r in a <==> r in b {
      assert Get(a, r) == Get(b, r);
    }
    forall r | r in a ensures a[r] == b[r] {
      assert Get(a, r) == Get(b, r);
    }
  }

  lemma SameSizeSubset<K>(s: set<K>, t: set<K>)
    requires s <= t && |s| == |t|
    ensures s == t
  {
    assert t == s + (t - s);
    assert |t - s| == |t| - |s|;
  }

  // ------------------------------------------------------------------ what the comparison overlooks

  /** All counts and signatures agree. */
  ghost predicate LooksSame(a: seq<Item>, b: seq<Item>) {
    && Count(a, IsStable) == Count(b, IsStable)
    && (forall r :: Count(a, HasReason(r)) == Count(b, HasReason(r)))
    && multiset(Sigs(a)) == multiset(Sigs(b))
  }

  /** Layouts that look the same have the same counters. */
  lemma SameCounters(a: seq<Item>, sa: nat, ua: nat, ra: map<Reason, nat>, b: seq<Item>, sb: nat, ub: nat, rb: map<Reason, nat>)
    requires Tallied(a, sa, ua, ra) && Tallied(b, sb, ub, rb)
    ensures LooksSame(a, b) <==> |a| == |b| && sa == sb && ua == ub && ra == rb && multiset(Sigs(a)) == multiset(Sigs(b))
  {
    CountsSplit(a, |a|);
    CountsSplit(b, |b|);
    SameMultiset(Sigs(a), Sigs(b));
    if LooksSame(a, b) {
      ReadTheSame(ra, rb);
    }
  }

  /** Replicas with the same signature are both stable or both unstable. */
  predicate FlagsAgree(a: seq<Item>, b: seq<Item>) {
    forall i, j :: 0 <= i < |a| && 0 <= j < |b| && a[i].Sig() == b[j].Sig() ==> (a[i].why.None? <==> b[j].why.None?)
  }

  /** The reason fits the place. */
  predicate Plausible(it: Item) {
    match it.why
    case None => PlacedSig(it.Sig())
    case Some(ClusterIdEmpty) => it.cluster == ""
    case Some(NodeNameEmpty) => it.cluster != "" && it.node == ""
    case Some(ReplicaNotRunning) => PlacedSig(it.Sig())
    case Some(_) => true
  }

  predicate AllPlausible(a: seq<Item>) {
    forall i :: 0 <= i < |a| ==> Plausible(a[i])
  }

  lemma {:induction false} BlockingIsByTemplate(volumes: seq<Volume>)
    ensures FirstBlocking(volumes) in {None, Some(HostPathVolume), Some(ClaimVolume)}
  {
    if volumes != [] {
      BlockingIsByTemplate(volumes[1..]);
    }
  }

  /** Every collected layout is plausible. */
  lemma CollectedIsPlausible(deployments: seq<Deployment>, bindings: seq<Binding>, items: seq<Item>)
    requires Collected(deployments, bindings, items)
    ensures AllPlausible(items)
  {
    var origins: seq<Origin> :| CollectedFrom(deployments, bindings, items, origins);
    forall i | 0 <= i < |items| ensures Plausible(items[i]) {
      assert ComesFrom(deployments, bindings, items[i], origins[i]);
      BlockingIsByTemplate(deployments[origins[i].d].volumes);
    }
  }

  lemma {:induction false} CountUpdate(a: seq<Item>, n: nat, i: nat, x: Item, q: Query)
    requires n <= |a| && i < |a|
    ensures CountTo(a[i := x], n, q)
            == CountTo(a, n, q) + (if i < n && Meets(x, q) then 1 else 0) - (if i < n && Meets(a[i], q) then 1 else 0)
  {
    if n > 0 {
      CountUpdate(a, n - 1, i, x, q);
    }
  }

  /** Exchanging the reasons of two replicas changes neither counts nor signatures. */
  lemma ExchangeLooksSame(a: seq<Item>, i: nat, j: nat, b: seq<Item>)
    requires i < |a| && j < |a| && i != j
    requires b == a[i := a[i].(why := a[j].why)][j := a[j].(why := a[i].why)]
    ensures LooksSame(a, b) && forall k :: 0 <= k < |a| ==> b[k].Sig() == a[k].Sig()
  {
    var x, y := a[i].(why := a[j].why), a[j].(why := a[i].why);
    forall q: Query | !q.IsPlaced? ensures Count(a, q) == Count(b, q) {
      CountUpdate(a, |a|, i, x, q);
      CountUpdate(a[i := x], |a|, j, y, q);
    }
    assert Sigs(a) == Sigs(b);
  }

  function PlacedCount(s: seq<Signature>): nat {
    if s == [] then 0 else PlacedCount(s[..|s| - 1]) + (if PlacedSig(s[|s| - 1]) then 1 else 0)
  }

  lemma {:induction false} PlacedCountAppend(s: seq<Signature>, t: seq<Signature>)
    ensures PlacedCount(s + t) == PlacedCount(s) + PlacedCount(t)
  {
    if t == [] {
      assert s + t == s;
    } else {
      assert (s + t)[..|s + t| - 1] == s + t[..|t| - 1];
      PlacedCountAppend(s, t[..|t| - 1]);
    }
  }

  lemma OnePlaced(x: Signature)
    ensures PlacedCount([x]) == if PlacedSig(x) then 1 else 0
  {
    assert [x][..0] == [];
  }

  lemma {:induction false} PlacedIgnoresOrder(s: seq<Signature>, t: seq<Signature>)
    requires multiset(s) == multiset(t)
    ensures PlacedCount(s) == PlacedCount(t)
    decreases |s|
  {
    assert |multiset(s)| == |multiset(t)|;
    if s == [] {
      assert t == [];
    } else {
      var x := s[|s| - 1];
      var l, r := TakeOut(s, t);
      PlacedIgnoresOrder(s[..|s| - 1], l + r);
      PlacedCountAppend(l, r);
      PlacedCountAppend(l, [x]);
      PlacedCountAppend(l + [x], r);
      OnePlaced(x);
    }
  }

  lemma {:induction false} PlacedBySignature(a: seq<Item>, n: nat)
    requires n <= |a|
    ensures CountTo(a, n, IsPlaced) == PlacedCount(Sigs(a)[..n])
  {
    if n > 0 {
      PlacedBySignature(a, n - 1);
      assert Sigs(a)[..n][..n - 1] == Sigs(a)[..n - 1];
    }
  }

  /** In a plausible layout the stable replicas are among the placed ones; when they are as many, they are
      the placed ones. */
  lemma {:induction false} StableArePlaced(a: seq<Item>, n: nat)
    requires AllPlausible(a) && n <= |a|
    ensures CountTo(a, n, IsStable) <= CountTo(a, n, IsPlaced)
    ensures CountTo(a, n, IsStable) == CountTo(a, n, IsPlaced) <==>
            forall i :: 0 <= i < n && PlacedSig(a[i].Sig()) ==> a[i].why.None?
  {
    if n > 0 {
      StableArePlaced(a, n - 1);
    }
  }

  lemma {:induction false} NoneCounted(a: seq<Item>, n: nat, q: Query)
    requires n <= |a|
    ensures CountTo(a, n, q) == 0 <==> forall i :: 0 <= i < n ==> !Meets(a[i], q)
  {
    if n > 0 {
      NoneCounted(a, n - 1, q);
    }
  }

  /** The layout has both a stable replica and an unstable one whose place is known. */
  predicate Mixed(a: seq<Item>) {
    exists i, j :: 0 <= i < |a| && 0 <= j < |a| && a[i].why.None? && a[j].why.Some? && PlacedSig(a[j].Sig())
  }

  lemma UnmixedPlausible(a: seq<Item>, b: seq<Item>)
    requires AllPlausible(a) && AllPlausible(b) && LooksSame(a, b) && !Mixed(a)
    ensures FlagsAgree(a, b)
  {
    NoneCounted(a, |a|, IsStable);
    NoneCounted(b, |b|, IsStable);
    if Count(a, IsStable) != 0 {
      StableArePlaced(a, |a|);
      StableArePlaced(b, |b|);
      PlacedBySignature(a, |a|);
      PlacedBySignature(b, |b|);
      assert Sigs(a)[..|a|] == Sigs(a) && Sigs(b)[..|b|] == Sigs(b);
      PlacedIgnoresOrder(Sigs(a), Sigs(b));
    }
  }

  /** Whatever deployments, templates and bindings become, a layout that is not mixed has the right stability
      flags for every layout that looks the same. */
  lemma UnmixedFlagsAgree(deploymentsA: seq<Deployment>, bindingsA: seq<Binding>, a: seq<Item>,
                          deploymentsB: seq<Deployment>, bindingsB: seq<Binding>, b: seq<Item>)
    requires Collected(deploymentsA, bindingsA, a) && Collected(deploymentsB, bindingsB, b)
    requires LooksSame(a, b) && !Mixed(a)
    ensures FlagsAgree(a, b)
  {
    CollectedIsPlausible(deploymentsA, bindingsA, a);
    CollectedIsPlausible(deploymentsB, bindingsB, b);
    UnmixedPlausible(a, b);
  }

  // ------------------------------------------------------------------ while the templates stay

  ghost predicate DistinctKeys(deployments: seq<Deployment>) {
    forall c, d :: 0 <= c < d < |deployments| ==> deployments[c].key != deployments[d].key
  }

  /** The layout has both a stable replica and one that only waits to run. */
  predicate CanExchange(a: seq<Item>) {
    exists i, j :: 0 <= i < |a| && 0 <= j < |a| && a[i].why.None? && a[j].why == Some(ReplicaNotRunning)
  }

  /** At one place, replicas of one template differ at most by running or not. */
  lemma SamePlaceDiffersByRunning(d: Deployment, index: int, b1: Binding, b2: Binding)
    requires ItemOf(d, index, b1).Sig() == ItemOf(d, index, b2).Sig()
    ensures var x, y := ItemOf(d, index, b1).why, ItemOf(d, index, b2).why;
            x == y || (x.None? && y == Some(ReplicaNotRunning)) || (x == Some(ReplicaNotRunning) && y.None?)
  {
  }

  lemma SteadyFlagsAgree(deployments: seq<Deployment>, bindingsA: seq<Binding>, a: seq<Item>, bindingsB: seq<Binding>, b: seq<Item>)
    requires DistinctKeys(deployments) && Collected(deployments, bindingsA, a) && Collected(deployments, bindingsB, b)
    requires LooksSame(a, b) && !CanExchange(a)
    ensures FlagsAgree(a, b)
  {
    NoneCounted(a, |a|, IsStable);
    NoneCounted(b, |b|, IsStable);
    NoneCounted(a, |a|, HasReason(ReplicaNotRunning));
    NoneCounted(b, |b|, HasReason(ReplicaNotRunning));
    assert Count(a, HasReason(ReplicaNotRunning)) == Count(b, HasReason(ReplicaNotRunning));
    var from: seq<Origin> :| CollectedFrom(deployments, bindingsA, a, from);
    var to: seq<Origin> :| CollectedFrom(deployments, bindingsB, b, to);
    forall i, j | 0 <= i < |a| && 0 <= j < |b| && a[i].Sig() == b[j].Sig() ensures a[i].why.None? <==> b[j].why.None? {
      var d := from[i].d;
      assert ComesFrom(deployments, bindingsA, a[i], from[i]) && ComesFrom(deployments, bindingsB, b[j], to[j]);
      assert a[i].key == deployments[d].key && b[j].key == deployments[to[j].d].key;
      assert to[j].d == d;
      SamePlaceDiffersByRunning(deployments[d], a[i].index, Deciding(deployments, bindingsA, from[i]).value,
                                Deciding(deployments, bindingsB, to[j]).value);
      assert Meets(a[i], IsStable) || Meets(b[j], IsStable) || a[i].why == b[j].why;
    }
  }

  /** A replica, by its deployment's key and its index, and whether its bindings are made to run or to stop. */
  function Rerun(b: Binding, key: Key, index: int, running: bool): (r: Binding)
    ensures r.owner == b.owner && r.index == b.index
  {
    if b.owner == key && b.index == index then b.(running := running) else b
  }

  function RerunAll(bindings: seq<Binding>, key: Key, index: int, running: bool): (r: seq<Binding>)
    ensures |r| == |bindings| && forall m :: 0 <= m < |r| ==> r[m] == Rerun(bindings[m], key, index, running)
  {
    seq(|bindings|, m requires 0 <= m < |bindings| => Rerun(bindings[m], key, index, running))
  }

  lemma {:induction false} RerunDecides(bindings: seq<Binding>, key: Key, index: int, running: bool, k: Key, i: int)
    ensures var was := LastBinding(bindings, k, i);
            LastBinding(RerunAll(bindings, key, index, running), k, i)
            == (if was.Some? then Some(Rerun(was.value, key, index, running)) else None)
    ensures LastBinding(bindings, k, i).Some? ==>
              LastBinding(bindings, k, i).value.owner == k && LastBinding(bindings, k, i).value.index == i
  {
    if bindings != [] {
      var n := |bindings| - 1;
      assert RerunAll(bindings, key, index, running)[..n] == RerunAll(bindings[..n], key, index, running);
      RerunDecides(bindings[..n], key, index, running, k, i);
    }
  }

  /** Making one replica run or stop changes its reason and nothing else in a collected layout. */
  lemma RerunCollected(deployments: seq<Deployment>, bindings: seq<Binding>, a: seq<Item>, origins: seq<Origin>, i: nat, running: bool)
    returns (bindings2: seq<Binding>)
    requires DistinctKeys(deployments) && CollectedFrom(deployments, bindings, a, origins) && i < |a|
    requires a[i].why in {None, Some(ReplicaNotRunning)}
    ensures CollectedFrom(deployments, bindings2, a[i := a[i].(why := if running then None else Some(ReplicaNotRunning))], origins)
  {
    var o := origins[i];
    assert ComesFrom(deployments, bindings, a[i], o);
    var key := deployments[o.d].key;
    bindings2 := RerunAll(bindings, key, o.index, running);
    forall p ensures Deciding(deployments, bindings2, p).Some? <==> Deciding(deployments, bindings, p).Some? {
      if p.d < |deployments| {
        RerunDecides(bindings, key, o.index, running, deployments[p.d].key, p.index);
      }
    }
    var b := a[i := a[i].(why := if running then None else Some(ReplicaNotRunning))];
    forall m | 0 <= m < |a|
      ensures ComesFrom(deployments, bindings2, b[m], origins[m])
    {
      var p := origins[m];
      assert ComesFrom(deployments, bindings, a[m], p) && ComesFrom(deployments, bindings, a[i], o);
      RerunDecides(bindings, key, o.index, running, deployments[p.d].key, p.index);
      BlockingIsByTemplate(deployments[p.d].volumes);
      if m != i {
        assert p != o;
        assert deployments[p.d].key != key || p.index != o.index;
      }
    }
  }

  /** Two replicas, one stable and one waiting to run, exchange their states: another collected layout that
      looks the same. */
  lemma ExchangeUnnoticed(deployments: seq<Deployment>, bindings: seq<Binding>, a: seq<Item>)
    returns (bindings2: seq<Binding>, b: seq<Item>)
    requires DistinctKeys(deployments) && Collected(deployments, bindings, a) && CanExchange(a)
    ensures Collected(deployments, bindings2, b) && LooksSame(a, b) && !FlagsAgree(a, b)
  {
    var origins: seq<Origin> :| CollectedFrom(deployments, bindings, a, origins);
    var i, j :| 0 <= i < |a| && 0 <= j < |a| && a[i].why.None? && a[j].why == Some(ReplicaNotRunning);
    var half := RerunCollected(deployments, bindings, a, origins, i, false);
    var stopped := a[i := a[i].(why := Some(ReplicaNotRunning))];
    bindings2 := RerunCollected(deployments, half, stopped, origins, j, true);
    b := stopped[j := a[j].(why := None)];
    ExchangeLooksSame(a, i, j, b);
    assert a[i].Sig() == b[i].Sig() && b[i].why.Some?;
  }

  /** While the deployments stay as they are, a stored layout that is left in place because it looks the same
      has the right stability flags, whatever the bindings have become, exactly when it does not hold both a
      stable replica and one that only waits to run: those two can exchange their states unnoticed. */
  lemma FlagsAreKeptIff(deployments: seq<Deployment>, bindings: seq<Binding>, a: seq<Item>)
    requires DistinctKeys(deployments) && Collected(deployments, bindings, a)
    ensures (forall bindings2, b :: Collected(deployments, bindings2, b) && LooksSame(a, b) ==> FlagsAgree(a, b))
            <==> !CanExchange(a)
  {
    if CanExchange(a) {
      var bindings2, b := ExchangeUnnoticed(deployments, bindings, a);
    } else {
      forall bindings2, b | Collected(deployments, bindings2, b) && LooksSame(a, b) ensures FlagsAgree(a, b) {
        SteadyFlagsAgree(deployments, bindings, a, bindings2, b);
      }
    }
  }

  /** No replica is collected twice, so a layout agrees with itself. */
  lemma AgreesWithItself(deployments: seq<Deployment>, bindings: seq<Binding>, a: seq<Item>)
    requires DistinctKeys(deployments) && Collected(deployments, bindings, a)
    ensures FlagsAgree(a, a)
  {
    var origins: seq<Origin> :| CollectedFrom(deployments, bindings, a, origins);
    forall i, j | 0 <= i < |a| && 0 <= j < |a| && a[i].Sig() == a[j].Sig() ensures i == j {
      assert ComesFrom(deployments, bindings, a[i], origins[i]) && ComesFrom(deployments, bindings, a[j], origins[j]);
      assert origins[i].d == origins[j].d;
    }
  }

  /** Collected from deployments that are still the same, without two replicas that can exchange their states. */
  ghost predicate Steady(deployments: seq<Deployment>, a: seq<Item>) {
    DistinctKeys(deployments) && !CanExchange(a) && exists before :: Collected(deployments, before, a)
  }

  // ------------------------------------------------------------------ the status of a policy

  class PolicyStatus {
    var observed: nat
    var layout: seq<Item>
    var stable: nat
    var unstable: nat
    var reasons: map<Reason, nat>

    /** The counters belong to the layout. */
    ghost predicate Valid()
      reads this
    {
      observed == |layout| && Tallied(layout, stable, unstable, reasons)
    }

    constructor ()
      ensures Valid() && layout == []
    {
      observed, layout, stable, unstable, reasons := 0, [], 0, 0, map[];
    }

    /** Collects the layout and writes the status unless it looks the same; the write may fail.  A status that
        is left in place has the right flags when the deployments have not changed since it was collected and
        it holds no two replicas that can exchange their states. */
    method ReconcileLayout(deployments: seq<Deployment>, bindings: seq<Binding>, patch: Fate)
      returns (ok: bool, ghost items: seq<Item>)
      requires Valid()
      modifies this
      ensures Valid() && Collected(deployments, bindings, items)
      ensures LooksSame(old(layout), items) ==> ok && unchanged(this)
      ensures !LooksSame(old(layout), items) ==> ok == patch.Acked?
      ensures !LooksSame(old(layout), items) ==> if patch.Lands() then layout == items else unchanged(this)
      ensures ok ==> observed == |items| && Tallied(items, stable, unstable, reasons)
      ensures ok ==> multiset(Sigs(layout)) == multiset(Sigs(items))
      ensures ok && old(Steady(deployments, layout)) ==> FlagsAgree(layout, items)
    {
      var collected, s, u, r, _ := CollectLayout(deployments, bindings);
      items := collected;
      var sameReasons := EqualCounts(reasons, r);
      var sameLayout := EqualCurrentLayout(layout, collected);
      if observed == |collected| && stable == s && unstable == u && sameReasons && sameLayout {
        if Steady(deployments, layout) {
          ghost var before :| Collected(deployments, before, layout);
          SteadyFlagsAgree(deployments, before, layout, bindings, items);
        }
        return true, items;
      }
      SameCounters(layout, stable, unstable, reasons, collected, s, u, r);
      if patch.Lands() {
        observed, layout, stable, unstable, reasons := |collected|, collected, s, u, r;
      }
      if DistinctKeys(deployments) {
        AgreesWithItself(deployments, bindings, items);
      }
      return patch.Acked?, items;
    }
  }

  // ------------------------------------------------------------------ what an item says, on the fields

  /** Where a replica is taken to be: where it is observed when anything is observed, else where it is wanted. */
  lemma PlacedExactly(d: Deployment, index: int, b: Binding)
    ensures var it := ItemOf(d, index, b);
            if b.statusCluster != "" || b.statusNode != "" then
              it.cluster == b.statusCluster && it.node == b.statusNode && it.source == FromStatus
            else if b.targetCluster != "" || b.targetNode != "" then
              it.cluster == b.targetCluster && it.node == b.targetNode && it.source == FromSpec
            else it.cluster == "" && it.node == "" && it.source == UnknownSource
    ensures ItemOf(d, index, b).key == d.key && ItemOf(d, index, b).index == index
  {
  }

  /** The first volume that ties a pod to its node is of this kind. */
  ghost predicate FirstTie(volumes: seq<Volume>, v: Volume) {
    exists i :: 0 <= i < |volumes| && volumes[i] == v != OtherVolume && forall j :: 0 <= j < i ==> volumes[j] == OtherVolume
  }

  lemma {:induction false} TiesExactly(volumes: seq<Volume>)
    ensures FirstBlocking(volumes) == None <==> forall i :: 0 <= i < |volumes| ==> volumes[i] == OtherVolume
    ensures FirstBlocking(volumes) == Some(HostPathVolume) <==> FirstTie(volumes, HostPath)
    ensures FirstBlocking(volumes) == Some(ClaimVolume) <==> FirstTie(volumes, PersistentClaim)
  {
    BlockingIsByTemplate(volumes);
    if volumes != [] {
      TiesExactly(volumes[1..]);
      match volumes[0]
      case HostPath =>
        assert FirstTie(volumes, HostPath);
      case PersistentClaim =>
        assert FirstTie(volumes, PersistentClaim);
      case OtherVolume =>
        TieBehind(volumes, HostPath);
        TieBehind(volumes, PersistentClaim);
        assert forall i :: 0 < i < |volumes| ==> volumes[i] == volumes[1..][i - 1];
    }
  }

  lemma TieBehind(volumes: seq<Volume>, v: Volume)
    requires volumes != [] && volumes[0] == OtherVolume
    ensures FirstTie(volumes, v) <==> FirstTie(volumes[1..], v)
  {
    if FirstTie(volumes[1..], v) {
      var i :| 0 <= i < |volumes[1..]| && volumes[1..][i] == v != OtherVolume && forall j :: 0 <= j < i ==> volumes[1..][j] == OtherVolume;
      assert volumes[i + 1] == v;
      assert forall j :: 0 <= j < i + 1 ==> volumes[j] == if j == 0 then volumes[0] else volumes[1..][j - 1];
    }
    if FirstTie(volumes, v) {
      var i :| 0 <= i < |volumes| && volumes[i] == v != OtherVolume && forall j :: 0 <= j < i ==> volumes[j] == OtherVolume;
      assert volumes[1..][i - 1] == v;
      assert forall j :: 0 <= j < i - 1 ==> volumes[1..][j] == volumes[j + 1];
    }
  }

  /** Nothing in the template ties its pods to a node. */
  predicate Untied(d: Deployment) {
    !d.requiredAffinity && forall i :: 0 <= i < |d.volumes| ==> d.volumes[i] == OtherVolume
  }

  lemma TemplateExactly(d: Deployment)
    ensures NonMigratable(d) == None <==> Untied(d)
    ensures NonMigratable(d) == Some(RequiredNodeAffinity) <==> d.requiredAffinity
    ensures NonMigratable(d) == Some(HostPathVolume) <==> !d.requiredAffinity && FirstTie(d.volumes, HostPath)
    ensures NonMigratable(d) == Some(ClaimVolume) <==> !d.requiredAffinity && FirstTie(d.volumes, PersistentClaim)
    ensures NonMigratable(d) in {None, Some(RequiredNodeAffinity), Some(HostPathVolume), Some(ClaimVolume)}
  {
    TiesExactly(d.volumes);
    BlockingIsByTemplate(d.volumes);
  }

  /** The reason a template gives against moving its replicas. */
  ghost predicate Ties(d: Deployment, r: Reason) {
    || (r == RequiredNodeAffinity && d.requiredAffinity)
    || (r == HostPathVolume && !d.requiredAffinity && FirstTie(d.volumes, HostPath))
    || (r == ClaimVolume && !d.requiredAffinity && FirstTie(d.volumes, PersistentClaim))
  }

  /** A replica is stable exactly when nothing ties its template to a node, its whole place is known, and it is Running;
      otherwise the first of these that fails is the reason. */
  lemma StableExactly(d: Deployment, index: int, b: Binding)
    ensures var it := ItemOf(d, index, b);
            && (it.why == None <==> Untied(d) && it.cluster != "" && it.node != "" && b.running)
            && (it.why == Some(ClusterIdEmpty) <==> Untied(d) && it.cluster == "")
            && (it.why == Some(NodeNameEmpty) <==> Untied(d) && it.cluster != "" && it.node == "")
            && (it.why == Some(ReplicaNotRunning) <==> Untied(d) && it.cluster != "" && it.node != "" && !b.running)
    ensures forall r :: r in {RequiredNodeAffinity, HostPathVolume, ClaimVolume} ==> (ItemOf(d, index, b).why == Some(r) <==> Ties(d, r))
  {
    TemplateExactly(d);
  }

  predicate IsFor(b: Binding, key: Key, index: int) {
    b.owner == key && b.index == index
  }

  /** Of the bindings listed for a replica the last one decides. */
  lemma {:induction false} LastExactly(bindings: seq<Binding>, key: Key, index: int)
    ensures LastBinding(bindings, key, index).None? ==> forall j :: 0 <= j < |bindings| ==> !IsFor(bindings[j], key, index)
    ensures LastBinding(bindings, key, index).Some? ==>
              exists j :: 0 <= j < |bindings| && LastBinding(bindings, key, index) == Some(bindings[j]) && IsFor(bindings[j], key, index)
                          && forall m :: j < m < |bindings| ==> !IsFor(bindings[m], key, index)
  {
    if bindings != [] {
      var n := |bindings| - 1;
      LastExactly(bindings[..n], key, index);
      if IsFor(bindings[n], key, index) {
        assert LastBinding(bindings, key, index) == Some(bindings[n]);
      } else if LastBinding(bindings, key, index).Some? {
        var j :| 0 <= j < n && LastBinding(bindings[..n], key, index) == Some(bindings[..n][j]) && IsFor(bindings[..n][j], key, index)
                 && forall m :: j < m < n ==> !IsFor(bindings[..n][m], key, index);
        assert bindings[..n][j] == bindings[j];
        forall m | j < m < |bindings| ensures !IsFor(bindings[m], key, index) {
          assert m < n ==> bindings[..n][m] == bindings[m];
        }
      } else {
        forall j | 0 <= j < |bindings| ensures !IsFor(bindings[j], key, index) {
          assert j < n ==> bindings[..n][j] == bindings[j];
        }
      }
    }
  }

  /** The comparison of layouts looks at key, index, place and source of a replica, and at no more. */
  lemma ComparedExactly(x: Item, y: Item)
    ensures x.Sig() == y.Sig() <==>
            x.key == y.key && x.index == y.index && x.cluster == y.cluster && x.node == y.node && x.source == y.source
  {
  }

  /** The items among the first n with this reason, or without one. */
  function With(items: seq<Item>, n: nat, why: Option<Reason>): set<int>
    requires n <= |items|
  {
    set i | 0 <= i < n && items[i].why == why
  }

  lemma WithPush(items: seq<Item>, n: nat, why: Option<Reason>)
    requires 0 < n <= |items|
    ensures n - 1 !in With(items, n - 1, why)
    ensures With(items, n, why) == if items[n - 1].why == why then With(items, n - 1, why) + {n - 1} else With(items, n - 1, why)
  {
  }

  lemma {:induction false} ReasonsCounted(items: seq<Item>, n: nat, r: Reason)
    requires n <= |items|
    ensures CountTo(items, n, HasReason(r)) == |With(items, n, Some(r))|
  {
    if n > 0 {
      ReasonsCounted(items, n - 1, r);
      WithPush(items, n, Some(r));
    }
  }

  lemma {:induction false} StableCounted(items: seq<Item>, n: nat)
    requires n <= |items|
    ensures CountTo(items, n, IsStable) == |With(items, n, None)|
  {
    if n > 0 {
      StableCounted(items, n - 1);
      WithPush(items, n, None);
    }
  }

  /** Stable replicas are counted as such, all others as unstable, and by their reasons. */
  lemma CountedExactly(items: seq<Item>, r: Reason)
    ensures Count(items, IsStable) == |With(items, |items|, None)|
    ensures Count(items, IsUnstable) == |items| - |With(items, |items|, None)|
    ensures Count(items, HasReason(r)) == |With(items, |items|, Some(r))|
  {
    StableCounted(items, |items|);
    ReasonsCounted(items, |items|, r);
    CountsSplit(items, |items|);
  }
}
