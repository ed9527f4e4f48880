/**
 Goal scores: every linear goal scores each (replica, node) pair by a raw value in its own unit, normalised
 to [0,100] between the least and greatest raw value.
 */
module GoalScores {
  import opened Prelude
  import opened OptimizerTypes
  import opened PowerCurve
  import opened ServiceCentroid

  datatype PluginContext = PluginContext(
    replicas: seq<ReplicaKey>, nodes: seq<NodeContext>, requests: map<ReplicaKey, Quantity>, current: Placement)

  datatype ObjectiveInputs = ObjectiveInputs(
    goals: seq<Goal>,
    ctx: PluginContext,
    prices: map<string, real>,
    cityLatency: LatencyMatrix,
    dependencies: map<Service, seq<Service>>,
    regionLatency: LatencyMatrix,
    services: map<ReplicaKey, Service>,
    nodeRegion: map<NodeId, string>,
    power: map<string, seq<Sample>>,
    walks: map<Service, Walk>)       // iteration orders, for each dependency

  datatype ObjectiveError =
    | EmptyInput | MissingInstanceType(n: NodeId) | MissingPrice(n: NodeId) | NegativePrice(n: NodeId)
    | NoSourceCity | MissingLatencyRow | MissingRegion(n: NodeId) | MissingLatency(n: NodeId) | NegativeLatency(n: NodeId)
    | MissingCurve(n: NodeId) | BadAllocatable(n: NodeId) | Curve(e: CurveError)
    | MissingRequest(r: ReplicaKey) | InvalidRequest(r: ReplicaKey)
    | MissingService(r: ReplicaKey) | NoCentroid | UnreadableLatency(cause: CentroidError)
    | NegativeWeight | UnknownGoal

  /** The services some service depends on. */
  function Dependees(inputs: ObjectiveInputs): set<Service> {
    set svc, dep | svc in inputs.dependencies && dep in inputs.dependencies[svc] :: dep
  }

  /** Replicas and nodes are listed without repetition, and every dependency has iteration orders of its own. */
  ghost predicate Proper(inputs: ObjectiveInputs) {
    && Distinct(inputs.ctx.replicas) && Distinct(NodeIds(inputs.ctx.nodes))
    && Dependees(inputs) <= inputs.walks.Keys
    && forall dep :: dep in inputs.walks ==> ProperWalk(inputs.walks[dep], inputs.services, inputs.regionLatency)
  }

  // ------------------------------------------------------------------ normalisation

  /** Maps [lo, hi] to [0, 100], clamping; a single-valued range maps to 0. */
  function Normalize(v: real, lo: real, hi: real): (s: real)
    ensures 0.0 <= s <= 100.0
  {
    if hi <= lo then 0.0
    else
      var c := if v < lo then lo else if v > hi then hi else v;
      NormalizeRange(c, lo, hi);
      (c - lo) * 100.0 / (hi - lo)
  }

  lemma NormalizeRange(c: real, lo: real, hi: real)
    requires lo < hi && lo <= c <= hi
    ensures 0.0 <= (c - lo) * 100.0 / (hi - lo) <= 100.0
  {
    var d, q := hi - lo, (c - lo) * 100.0 / (hi - lo);
    assert q * d == (c - lo) * 100.0;
    SignOfProduct(q, d);
    SignOfProduct(100.0 - q, d);
  }

  lemma SignOfProduct(a: real, d: real)
    requires d > 0.0
    ensures a < 0.0 ==> a * d < 0.0
  {
  }

  /** raw has a value for every pair. */
  predicate Complete(replicas: seq<ReplicaKey>, ids: seq<NodeId>, raw: Scores) {
    forall r {:trigger r in raw} {:trigger raw[r]} :: r in replicas ==>
      r in raw && forall n {:trigger n in raw[r]} :: n in ids ==> n in raw[r]
  }

  /** part has exactly the pairs, and holds raw, which stays in [lo, hi], normalised. */
  ghost predicate NormalForm(replicas: seq<ReplicaKey>, ids: seq<NodeId>, raw: Scores, lo: real, hi: real, part: Scores) {
    && (forall r {:trigger r in part} :: r in part <==> r in replicas)
    && (forall r, n {:trigger n in part[r]} :: r in part ==> (n in part[r] <==> n in ids))
    && (forall r, n {:trigger Coefficient(part, r, n)} {:trigger Coefficient(raw, r, n)} :: r in replicas && n in ids ==>
          && lo <= Coefficient(raw, r, n) <= hi
          && Coefficient(part, r, n) == Normalize(Coefficient(raw, r, n), lo, hi))
  }

  /** Both ends of the range are raw values. */
  ghost predicate Attained(replicas: seq<ReplicaKey>, ids: seq<NodeId>, raw: Scores, lo: real, hi: real) {
    && (exists r, n :: r in replicas && n in ids && Coefficient(raw, r, n) == lo)
    && (exists r, n :: r in replicas && n in ids && Coefficient(raw, r, n) == hi)
  }

  method RowExtremes(row: map<NodeId, real>, ids: seq<NodeId>, init: bool, lo0: real, hi0: real)
    returns (lo: real, hi: real)
    requires forall n :: n in ids ==> n in row
    requires init || ids != []
    ensures init ==> lo <= lo0 && hi0 <= hi
    ensures forall n :: n in ids ==> lo <= row[n] <= hi
    ensures (init && lo == lo0) || exists n :: n in ids && row[n] == lo
    ensures (init && hi == hi0) || exists n :: n in ids && row[n] == hi
  {
    lo, hi := lo0, hi0;
    for j := 0 to |ids|
      invariant init ==> lo <= lo0 && hi0 <= hi
      invariant forall n :: n in ids[..j] ==> lo <= row[n] <= hi
      invariant ((init || j == 0) && lo == lo0) || exists n :: n in ids[..j] && row[n] == lo
      invariant ((init || j == 0) && hi == hi0) || exists n :: n in ids[..j] && row[n] == hi
    {
      var v := row[ids[j]];
      assert ids[..j + 1] == ids[..j] + [ids[j]];
      assert ids[j] in ids[..j + 1];
      if !init && j == 0 {
        lo, hi := v, v;
      } else {
        if v < lo {
          lo := v;
        }
        if v > hi {
          hi := v;
        }
      }
    }
    assert ids[..|ids|] == ids;
  }

  /** Every value of the row lies in [lo, hi]. */
  predicate Within(row: map<NodeId, real>, ids: seq<NodeId>, lo: real, hi: real) {
    forall n :: n in ids ==> n in row && lo <= row[n] <= hi
  }

  /** lo and hi bound the first k rows and both occur in the matrix. */
  ghost predicate Spanned(replicas: seq<ReplicaKey>, ids: seq<NodeId>, raw: Scores, k: nat, lo: real, hi: real) {
    && k <= |replicas|
    && (forall i :: 0 <= i < k ==> replicas[i] in raw && Within(raw[replicas[i]], ids, lo, hi))
    && Attained(replicas, ids, raw, lo, hi)
  }

  /** A further row widens the range. */
  lemma SpannedPush(replicas: seq<ReplicaKey>, ids: seq<NodeId>, raw: Scores, k: nat, lo: real, hi: real, l: real, h: real)
    requires k < |replicas| && Spanned(replicas, ids, raw, k, lo, hi) && l <= lo && hi <= h
    requires replicas[k] in raw && Within(raw[replicas[k]], ids, l, h)
    requires l == lo || exists n :: n in ids && Coefficient(raw, replicas[k], n) == l
    requires h == hi || exists n :: n in ids && Coefficient(raw, replicas[k], n) == h
    ensures Spanned(replicas, ids, raw, k + 1, l, h)
  {
    forall i | 0 <= i < k ensures Within(raw[replicas[i]], ids, l, h) {
      assert Within(raw[replicas[i]], ids, lo, hi);
    }
    assert replicas[k] in replicas;
  }

  method Extremes(replicas: seq<ReplicaKey>, ids: seq<NodeId>, raw: Scores) returns (lo: real, hi: real)
    requires replicas != [] && ids != [] && Complete(replicas, ids, raw)
    ensures Spanned(replicas, ids, raw, |replicas|, lo, hi)
  {
    var r := replicas[0];
    assert r in replicas && ids[0] in ids;
    lo, hi := RowExtremes(raw[r], ids, false, 0.0, 0.0);
    FirstSpanned(replicas, ids, raw, lo, hi);
    for i := 1 to |replicas|
      invariant Spanned(replicas, ids, raw, i, lo, hi)
    {
      r := replicas[i];
      assert r in replicas;
      var l, h := RowExtremes(raw[r], ids, true, lo, hi);
      SpannedPush(replicas, ids, raw, i, lo, hi, l, h);
      lo, hi := l, h;
    }
  }

  lemma FirstSpanned(replicas: seq<ReplicaKey>, ids: seq<NodeId>, raw: Scores, lo: real, hi: real)
    requires replicas != [] && replicas[0] in raw && Within(raw[replicas[0]], ids, lo, hi)
    requires exists n :: n in ids && Coefficient(raw, replicas[0], n) == lo
    requires exists n :: n in ids && Coefficient(raw, replicas[0], n) == hi
    ensures Spanned(replicas, ids, raw, 1, lo, hi)
  {
    assert replicas[0] in replicas;
  }

  method NormalizeRow(row: map<NodeId, real>, ids: seq<NodeId>, lo: real, hi: real) returns (out: map<NodeId, real>)
    requires forall n :: n in ids ==> n in row
    ensures NormalRow(row, ids, lo, hi, out)
  {
    out := map[];
    for j := 0 to |ids|
      invariant forall n :: n in out <==> n in ids[..j]
      invariant forall n :: n in ids[..j] ==> out[n] == Normalize(row[n], lo, hi)
    {
      assert ids[..j + 1] == ids[..j] + [ids[j]];
      out := out[ids[j] := Normalize(row[ids[j]], lo, hi)];
    }
    assert ids[..|ids|] == ids;
  }

  /** row holds the values of from, normalised. */
  ghost predicate NormalRow(from: map<NodeId, real>, ids: seq<NodeId>, lo: real, hi: real, row: map<NodeId, real>) {
    && (forall n :: n in row <==> n in ids)
    && forall n :: n in ids ==> n in from && row[n] == Normalize(from[n], lo, hi)
  }

  lemma RowsAreNormalForm(replicas: seq<ReplicaKey>, ids: seq<NodeId>, raw: Scores, lo: real, hi: real, part: Scores)
    requires Complete(replicas, ids, raw) && forall r :: r in part ==> r in replicas
    requires forall i :: 0 <= i < |replicas| ==> Within(raw[replicas[i]], ids, lo, hi)
    requires forall i :: 0 <= i < |replicas| ==>
               replicas[i] in part && NormalRow(raw[replicas[i]], ids, lo, hi, part[replicas[i]])
    ensures NormalForm(replicas, ids, raw, lo, hi, part)
  {
    forall r | r in replicas ensures r in part && NormalRow(raw[r], ids, lo, hi, part[r]) && Within(raw[r], ids, lo, hi) {
      var i :| 0 <= i < |replicas| && replicas[i] == r;
    }
  }

  method NormalizeMatrix(replicas: seq<ReplicaKey>, ids: seq<NodeId>, raw: Scores)
    returns (part: Scores, lo: real, hi: real)
    requires replicas != [] && ids != [] && Complete(replicas, ids, raw)
    ensures NormalForm(replicas, ids, raw, lo, hi, part) && Attained(replicas, ids, raw, lo, hi)
  {
    lo, hi := Extremes(replicas, ids, raw);
    part := map[];
    for i := 0 to |replicas|
      invariant forall r :: r in part ==> r in replicas
      invariant forall k :: 0 <= k < i ==>
                  replicas[k] in part && NormalRow(raw[replicas[k]], ids, lo, hi, part[replicas[k]])
    {
      var r := replicas[i];
      assert r in replicas;
      var row := NormalizeRow(raw[r], ids, lo, hi);
      part := part[r := row];
    }
    RowsAreNormalForm(replicas, ids, raw, lo, hi, part);
  }

  // ------------------------------------------------------------------ raw values

  function PriceOf(prices: map<string, real>, n: NodeContext): Result<real, ObjectiveError> {
    if n.instanceType == "" then Err(MissingInstanceType(n.id))
    else if n.instanceType !in prices then Err(MissingPrice(n.id))
    else Ok(prices[n.instanceType])
  }

  function LatencyOf(row: map<string, real>, n: NodeContext): Result<real, ObjectiveError> {
    if n.region == "" then Err(MissingRegion(n.id))
    else if n.region !in row then Err(MissingLatency(n.id))
    else Ok(row[n.region])
  }

  /** Share of the node's CPU in use, clamped to [0,1]. */
  function Utilisation(n: NodeContext): real
    requires n.cpuAllocatable > 0
  {
    var used := if n.cpuAllocatable - n.cpuFree < 0 then 0 else n.cpuAllocatable - n.cpuFree;
    var u := used as real / n.cpuAllocatable as real;
    if u < 0.0 then 0.0 else if u > 1.0 then 1.0 else u
  }

  function WattsOf(power: map<string, seq<Sample>>, n: NodeContext): Result<real, ObjectiveError> {
    if n.instanceType == "" then Err(MissingInstanceType(n.id))
    else if n.instanceType !in power then Err(MissingCurve(n.id))
    else if n.cpuAllocatable <= 0 then Err(BadAllocatable(n.id))
    else
      match MarginalWatts(power[n.instanceType], Utilisation(n), n.cpuAllocatable as real / 1000.0)
      case Ok(w) => Ok(w)
      case Err(e) => Err(Curve(e))
  }

  function Cores(requests: map<ReplicaKey, Quantity>, r: ReplicaKey): real {
    if r in requests then requests[r].cpu as real / 1000.0 else 0.0
  }

  function RegionOf(inputs: ObjectiveInputs, n: NodeContext): string {
    if n.id in inputs.nodeRegion then inputs.nodeRegion[n.id] else n.region
  }

  function FindNode(nodes: seq<NodeContext>, id: NodeId): Option<NodeContext> {
    if nodes == [] then None
    else if nodes[|nodes| - 1].id == id then Some(nodes[|nodes| - 1])
    else FindNode(nodes[..|nodes| - 1], id)
  }

  /** Region of each replica that is placed on a known node. */
  function CurrentRegions(inputs: ObjectiveInputs): map<ReplicaKey, string> {
    map r | r in inputs.ctx.current && FindNode(inputs.ctx.nodes, inputs.ctx.current[r]).Some?
      :: RegionOf(inputs, FindNode(inputs.ctx.nodes, inputs.ctx.current[r]).value)
  }

  function CentroidOf(inputs: ObjectiveInputs, dep: Service): Option<string> {
    if dep !in inputs.walks then None
    else
      CentroidRegion(dep, CurrentRegions(inputs), inputs.services, inputs.regionLatency,
                     inputs.walks[dep].keys, inputs.walks[dep].cands)
  }

  /** Latency from a region to the centroid of a dependency. */
  function LatencyTo(inputs: ObjectiveInputs, region: string, dep: Service): Result<real, ObjectiveError> {
    match CentroidOf(inputs, dep)
    case None => Err(NoCentroid)
    case Some(c) =>
      match LookupRegionLatency(inputs.regionLatency, region, c)
      case Err(e) => Err(UnreadableLatency(e))
      case Ok(v) => Ok(v)
  }

  /** Latency from a region to the centroids of the dependencies, added up. */
  function DependencyCost(inputs: ObjectiveInputs, region: string, deps: seq<Service>): Result<real, ObjectiveError> {
    if deps == [] then Ok(0.0)
    else
      match DependencyCost(inputs, region, deps[..|deps| - 1])
      case Err(e) => Err(e)
      case Ok(sum) =>
        match LatencyTo(inputs, region, deps[|deps| - 1])
        case Err(e) => Err(e)
        case Ok(v) => Ok(sum + v)
  }

  function DependenciesOf(inputs: ObjectiveInputs, svc: Service): seq<Service> {
    if svc in inputs.dependencies then inputs.dependencies[svc] else []
  }

  function RawPrice(prices: map<string, real>, n: NodeContext): Result<real, ObjectiveError> {
    var p := PriceOf(prices, n);
    if p.Ok? && p.value < 0.0 then Err(NegativePrice(n.id)) else p
  }

  function RawLatency(cityLatency: LatencyMatrix, city: string, n: NodeContext): Result<real, ObjectiveError> {
    if city !in cityLatency then Err(MissingLatencyRow)
    else
      var l := LatencyOf(cityLatency[city], n);
      if l.Ok? && l.value < 0.0 then Err(NegativeLatency(n.id)) else l
  }

  function RawWatts(power: map<string, seq<Sample>>, requests: map<ReplicaKey, Quantity>, r: ReplicaKey, n: NodeContext):
    Result<real, ObjectiveError>
  {
    if r !in requests then Err(MissingRequest(r))
    else if requests[r].cpu <= 0 then Err(InvalidRequest(r))
    else
      (match WattsOf(power, n)
       case Err(e) => Err(e)
       case Ok(w) => Ok(w * Cores(requests, r)))
  }

  /** The value of a linear goal for a pair, in the goal's own unit: price, latency, watts, or summed
      latency to dependencies. */
  function RawValue(inputs: ObjectiveInputs, g: Goal, r: ReplicaKey, n: NodeContext): Result<real, ObjectiveError> {
    match g.kind
    case Cost => RawPrice(inputs.prices, n)
    case Latency => RawLatency(inputs.cityLatency, g.sourceCity, n)
    case Energy => RawWatts(inputs.power, inputs.ctx.requests, r, n)
    case Communication =>
      if r !in inputs.services then Err(MissingService(r))
      else DependencyCost(inputs, RegionOf(inputs, n), DependenciesOf(inputs, inputs.services[r]))
    case _ => Err(UnknownGoal)
  }

  /** The inputs a goal needs before any pair is looked at. */
  function MissingData(inputs: ObjectiveInputs, g: Goal): Option<ObjectiveError> {
    match g.kind
    case Cost => if inputs.prices == map[] then Some(EmptyInput) else None
    case Latency =>
      if g.sourceCity == "" then Some(NoSourceCity)
      else if g.sourceCity !in inputs.cityLatency || inputs.cityLatency[g.sourceCity] == map[] then Some(MissingLatencyRow)
      else None
    case Energy => if inputs.power == map[] then Some(EmptyInput) else None
    case Communication =>
      if inputs.dependencies == map[] || inputs.regionLatency == map[] || inputs.services == map[] then Some(EmptyInput)
      else if exists n :: n in inputs.ctx.nodes && RegionOf(inputs, n) == "" then Some(EmptyInput)
      else if exists dep :: dep in Dependees(inputs) && CentroidOf(inputs, dep).None? then Some(NoCentroid)
      else None
    case _ => Some(UnknownGoal)
  }

  predicate RowScorable(inputs: ObjectiveInputs, g: Goal, r: ReplicaKey) {
    forall i :: 0 <= i < |inputs.ctx.nodes| ==> RawValue(inputs, g, r, inputs.ctx.nodes[i]).Ok?
  }

  predicate Scorable(inputs: ObjectiveInputs, g: Goal) {
    MissingData(inputs, g).None? && forall r :: r in inputs.ctx.replicas ==> RowScorable(inputs, g, r)
  }

  predicate NothingToScore(ctx: PluginContext) { ctx.replicas == [] || ctx.nodes == [] }

  predicate RawRowOf(inputs: ObjectiveInputs, g: Goal, r: ReplicaKey, row: map<NodeId, real>) {
    forall i :: 0 <= i < |inputs.ctx.nodes| ==>
      inputs.ctx.nodes[i].id in row && RawValue(inputs, g, r, inputs.ctx.nodes[i]) == Ok(row[inputs.ctx.nodes[i].id])
  }

  /** raw holds the raw value of every pair. */
  predicate RawOf(inputs: ObjectiveInputs, g: Goal, raw: Scores) {
    forall r :: r in inputs.ctx.replicas ==> r in raw && RawRowOf(inputs, g, r, raw[r])
  }

  /** One goal's scoring: its raw values, their range, and the normalised scores. */
  datatype Scoring = Scoring(raw: Scores, lo: real, hi: real, part: Scores)

  ghost predicate Normalised(ctx: PluginContext, s: Scoring) {
    if NothingToScore(ctx) then s.part == map[]
    else NormalForm(ctx.replicas, NodeIds(ctx.nodes), s.raw, s.lo, s.hi, s.part)
  }

  /** raw is what goal g is worth, and s spans its range; a goal without anything to score has no raw values. */
  ghost predicate ScoredFrom(inputs: ObjectiveInputs, g: Goal, s: Scoring) {
    NothingToScore(inputs.ctx) ||
    (RawOf(inputs, g, s.raw) && Attained(inputs.ctx.replicas, NodeIds(inputs.ctx.nodes), s.raw, s.lo, s.hi))
  }

  method RawRow(inputs: ObjectiveInputs, g: Goal, r: ReplicaKey) returns (row: Result<map<NodeId, real>, ObjectiveError>)
    requires Distinct(NodeIds(inputs.ctx.nodes))
    ensures row.Ok? <==> RowScorable(inputs, g, r)
    ensures row.Ok? ==> RawRowOf(inputs, g, r, row.value)
  {
    var out: map<NodeId, real> := map[];
    var nodes := inputs.ctx.nodes;
    for i := 0 to |nodes|
      invariant forall k :: 0 <= k < i ==>
                  nodes[k].id in out && RawValue(inputs, g, r, nodes[k]) == Ok(out[nodes[k].id])
    {
      var v := RawValue(inputs, g, r, nodes[i]);
      if v.Err? {
        return Err(v.error);
      }
      forall k | 0 <= k < i ensures nodes[k].id != nodes[i].id {
        assert NodeIds(nodes)[k] != NodeIds(nodes)[i];
      }
      out := out[nodes[i].id := v.value];
    }
    return Ok(out);
  }

  method RawMatrix(inputs: ObjectiveInputs, g: Goal) returns (raw: Result<Scores, ObjectiveError>)
    requires Proper(inputs)
    ensures raw.Ok? <==> forall r :: r in inputs.ctx.replicas ==> RowScorable(inputs, g, r)
    ensures raw.Ok? ==> RawOf(inputs, g, raw.value)
  {
    var out: Scores := map[];
    var replicas := inputs.ctx.replicas;
    for i := 0 to |replicas|
      invariant forall q :: q in replicas[..i] ==> q in out && RawRowOf(inputs, g, q, out[q])
      invariant forall q :: q in replicas[..i] ==> RowScorable(inputs, g, q)
    {
      var q := replicas[i];
      assert q in replicas && replicas[..i + 1] == replicas[..i] + [q];
      var row := RawRow(inputs, g, q);
      if row.Err? {
        return Err(row.error);
      }
      out := out[q := row.value];
    }
    assert replicas[..|replicas|] == replicas;
    return Ok(out);
  }

  lemma RawIsComplete(inputs: ObjectiveInputs, g: Goal, raw: Scores)
    requires RawOf(inputs, g, raw)
    ensures Complete(inputs.ctx.replicas, NodeIds(inputs.ctx.nodes), raw)
  {
    forall r, n | r in inputs.ctx.replicas && n in NodeIds(inputs.ctx.nodes) ensures n in raw[r] {
      var i :| 0 <= i < |inputs.ctx.nodes| && NodeIds(inputs.ctx.nodes)[i] == n;
      assert inputs.ctx.nodes[i].id in raw[r];
    }
  }

  /** Scores one linear goal; fails exactly when data for some pair is missing or invalid. */
  method ScorePlacement(inputs: ObjectiveInputs, g: Goal) returns (r: Result<Scores, ObjectiveError>, ghost s: Scoring)
    requires Proper(inputs)
    ensures r.Ok? <==> NothingToScore(inputs.ctx) || Scorable(inputs, g)
    ensures r.Ok? ==> s.part == r.value && Normalised(inputs.ctx, s) && ScoredFrom(inputs, g, s)
  {
    s := Scoring(map[], 0.0, 0.0, map[]);
    if NothingToScore(inputs.ctx) {
      return Ok(map[]), s;
    }
    var missing := MissingData(inputs, g);
    if missing.Some? {
      return Err(missing.value), s;
    }
    var raw := RawMatrix(inputs, g);
    if raw.Err? {
      return Err(raw.error), s;
    }
    RawIsComplete(inputs, g, raw.value);
    var part, lo, hi := NormalizeMatrix(inputs.ctx.replicas, NodeIds(inputs.ctx.nodes), raw.value);
    s := Scoring(raw.value, lo, hi, part);
    return Ok(part), s;
  }
}
