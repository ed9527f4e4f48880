/**
 Plan execution and the migration protocol together: what the statuses of a plan say about the bindings that
 its passes have read.
 */
module PlanMigration {
  import opened MigrationExamples
  import opened MigrationProtocol
  import opened MigrationRuns
  import opened MigrationSafety
  import opened PlanExecution
  import opened PlanSafety
  import opened Prelude

  datatype Owner = Owner(namespace: string, name: string)

  function OwnerOf(k: MoveKey): Owner { Owner(k.namespace, k.name) }

  /** What happens to one GlobalDeployment: the move tables of the plans, and the events of its run. */
  datatype Life = Life(plans: Plans, es: seq<Event>)

  type History = map<Owner, Life>

  /** At some point of the run, binding i was b. */
  ghost predicate Seen(life: Life, i: nat, b: Replica) {
    exists n :: 0 <= n <= |life.es| && SeenAt(life, n, i, b)
  }

  predicate SeenAt(life: Life, n: nat, i: nat, b: Replica)
    requires n <= |life.es|
  {
    var w := Run(life.plans, life.es[..n]);
    i in w.replicas && w.replicas[i] == b
  }

  /** The pass reads bindings that exist at some point of the history. */
  ghost predicate Reads(h: History, c: PlanCalls) {
    forall k :: k in c.observed ==>
      k.index >= 0 && OwnerOf(k) in h && c.observed[k].present && Seen(h[OwnerOf(k)], k.index, c.observed[k])
  }

  /** The move tables of the history list this move of the plan. */
  predicate Listed(h: History, token: string, m: Move) {
    OwnerOf(m.key) in h && m.key.index >= 0 ==>
      var plans, i := h[OwnerOf(m.key)].plans, m.key.index as nat;
      token in plans && i in plans[token] && plans[token][i] == m.destination
  }

  predicate AllListed(h: History, plan: Plan) {
    forall i :: 0 <= i < |plan.moves| ==> Listed(h, plan.token, plan.moves[i])
  }

  predicate AllUnhaunted(h: History) {
    forall o :: o in h ==> Unhaunted(h[o].plans, h[o].es)
  }

  predicate AllWhole(h: History) {
    forall o :: o in h ==> Whole(h[o].plans, h[o].es)
  }

  lemma {:induction false} PrefixIsUnhaunted(plans: Plans, es: seq<Event>, n: nat)
    requires Unhaunted(plans, es) && n <= |es|
    ensures Unhaunted(plans, es[..n])
    decreases |es|
  {
    if n == |es| {
      assert es[..n] == es;
    } else {
      assert es[..|es| - 1][..n] == es[..n];
      PrefixIsUnhaunted(plans, es[..|es| - 1], n);
    }
  }

  lemma {:induction false} PrefixIsWhole(plans: Plans, es: seq<Event>, n: nat)
    requires Whole(plans, es) && n <= |es|
    ensures Whole(plans, es[..n])
    decreases |es|
  {
    if n == |es| {
      assert es[..n] == es;
    } else {
      assert es[..|es| - 1][..n] == es[..n];
      PrefixIsWhole(plans, es[..|es| - 1], n);
    }
  }

  /** The plan's own intent wrote the binding, which is Running with any Deployment where it is observed. */
  predicate Attributable(token: string, dest: Location, b: Replica) {
    b.token == token && b.phase == Running && b.target == dest && b.deployed <= {b.statusCluster}
  }

  predicate AtDestination(token: string, dest: Location, b: Replica) {
    Attributable(token, dest, b) && b.statusCluster == dest.cluster
  }

  /** A pass that reads a binding as Succeeded has read one that its own plan has written; and in a history
      without intents torn across clusters, one that is at the destination. */
  lemma ReadSuccessIsReal(h: History, token: string, m: Move, c: PlanCalls)
    requires token != "" && Listed(h, token, m) && Reads(h, c) && AllUnhaunted(h)
    requires m.key in c.observed && MoveProgressOf(token, c.observed[m.key]) == Succeeded
    ensures Attributable(token, m.destination, c.observed[m.key])
    ensures AllWhole(h) ==> AtDestination(token, m.destination, c.observed[m.key])
  {
    var life, i, b := h[OwnerOf(m.key)], m.key.index as nat, c.observed[m.key];
    var n :| 0 <= n <= |life.es| && SeenAt(life, n, i, b);
    PrefixIsUnhaunted(life.plans, life.es, n);
    SucceededMoveIsAttributed(life.plans, life.es[..n], i, token);
    if AllWhole(h) {
      PrefixIsWhole(life.plans, life.es, n);
      SucceededMoveIsAtDestination(life.plans, life.es[..n], i, token);
    }
  }

  /** The pass writes Succeeded for a move. */
  predicate WritesSuccess(plan: Plan, c: PlanCalls, k: MoveKey) {
    k in c.monitorPatch && k in c.observed && MoveProgressOf(plan.token, c.observed[k]) == Succeeded
  }

  lemma WorkSuccess(plan: Plan, s: PlanState, c: PlanCalls, i: nat)
    requires DistinctMoves(plan.moves) && Aligned(plan.moves, s.statuses) && i < |plan.moves|
    requires Aligned(plan.moves, Worked(plan, s, c).statuses) && Worked(plan, s, c).statuses[i].state == MoveSucceeded
    ensures s.statuses[i].state == MoveSucceeded || WritesSuccess(plan, c, plan.moves[i].key)
  {
    PassMovesPointwise(plan, s, c);
  }

  /** The status of move i, once there is one. */
  predicate Shows(s: PlanState, i: nat, st: MoveState) {
    i < |s.statuses| && s.statuses[i].state == st
  }

  lemma PassSuccess(plan: Plan, s: PlanState, c: PlanCalls, i: nat)
    requires DistinctMoves(plan.moves) && PlanOk(plan, s) && i < |plan.moves| && Shows(Passed(plan, s, c), i, MoveSucceeded)
    ensures Shows(s, i, MoveSucceeded) || WritesSuccess(plan, c, plan.moves[i].key)
  {
    if !s.phase.Terminal() && DesiredPhase(plan.strategy) == Executing {
      var s1 := s.(phase := Executing);
      BegunIsOk(plan, s1);
      var begun := Begun(plan, s1);
      if Works(plan, s, c) {
        WorkKeepsOk(plan, begun, c);
        PassMovesPointwise(plan, begun, c);
        WorkSuccess(plan, begun, c, i);
      }
    }
  }

  /** Whatever writes fail, a status is Succeeded only because some pass has read its binding as Succeeded. */
  lemma {:induction false} SuccessHasWitness(plan: Plan, s0: PlanState, cs: seq<PlanCalls>, i: nat) returns (n: nat)
    requires DistinctMoves(plan.moves) && Fresh(s0) && i < |plan.moves| && Shows(Runs(plan, s0, cs), i, MoveSucceeded)
    ensures n < |cs| && WritesSuccess(plan, cs[n], plan.moves[i].key)
  {
    var before, c := cs[..|cs| - 1], cs[|cs| - 1];
    RunKeepsOk(plan, s0, before);
    PassSuccess(plan, Runs(plan, s0, before), c, i);
    if WritesSuccess(plan, c, plan.moves[i].key) {
      n := |cs| - 1;
    } else {
      n := SuccessHasWitness(plan, s0, before, i);
    }
  }

  /** A move that a plan's status shows as Succeeded was read, by some pass, from a binding that this plan has
      written; in a history without intents torn across clusters, from one at the destination. */
  lemma SucceededStatusIsReal(h: History, plan: Plan, s0: PlanState, cs: seq<PlanCalls>, i: nat) returns (n: nat)
    requires DistinctMoves(plan.moves) && Fresh(s0) && i < |plan.moves| && Shows(Runs(plan, s0, cs), i, MoveSucceeded)
    requires plan.token != "" && AllListed(h, plan) && AllUnhaunted(h)
    requires forall c :: c in cs ==> Reads(h, c)
    ensures n < |cs| && plan.moves[i].key in cs[n].observed
    ensures Attributable(plan.token, plan.moves[i].destination, cs[n].observed[plan.moves[i].key])
    ensures AllWhole(h) ==> AtDestination(plan.token, plan.moves[i].destination, cs[n].observed[plan.moves[i].key])
  {
    n := SuccessHasWitness(plan, s0, cs, i);
    assert cs[n] in cs;
    ReadSuccessIsReal(h, plan.token, plan.moves[i], cs[n]);
  }

  /** Some pass has read the binding of this move at the destination. */
  predicate SeenAtDestination(token: string, m: Move, cs: seq<PlanCalls>) {
    exists n :: 0 <= n < |cs| && m.key in cs[n].observed && AtDestination(token, m.destination, cs[n].observed[m.key])
  }

  /** A plan that ends as Succeeded has seen every one of its moves at the destination, when no intent of the
      history tears across clusters. */
  lemma SucceededPlanHasMoved(h: History, plan: Plan, s0: PlanState, cs: seq<PlanCalls>)
    requires DistinctMoves(plan.moves) && Fresh(s0) && Runs(plan, s0, cs).phase == PlanSucceeded
    requires plan.token != "" && AllListed(h, plan) && AllWhole(h)
    requires forall c :: c in cs ==> Reads(h, c)
    ensures forall i :: 0 <= i < |plan.moves| ==> SeenAtDestination(plan.token, plan.moves[i], cs)
  {
    FinalPhaseIsDictated(plan, s0, cs);
    forall o | o in h ensures Unhaunted(h[o].plans, h[o].es) {
      RunKeepsSettled(h[o].plans, h[o].es);
    }
    forall i | 0 <= i < |plan.moves| ensures SeenAtDestination(plan.token, plan.moves[i], cs) {
      var n := SucceededStatusIsReal(h, plan, s0, cs, i);
    }
  }

  // ------------------------------------------------------------------ a plan that only seems to succeed

  const Key0 := MoveKey("ns", "gd", 0)

  const PlanToB := Plan(Conservative, "p", [Move(Key0, Location("b", "n"))])

  const Untouched := PlanState(NoPhase, false, [], Summary(0, 0, 0, 0), false)

  /** A pass whose intent tears and whose other calls succeed. */
  const TornPass := PlanCalls(
    Acked, Acked, Acked, {Key0}, {}, {Key0}, true, false, map[Key0 := TornInB], {Key0}, true, true)

  const TornHistory: History := map[OwnerOf(Key0) := Life(ToB, TornEvents)]

  lemma TornPassWrites()
    ensures var ss := [MoveStatus(Key0, MovePending)];
            && Executed(PlanToB.moves, ss, TornPass) == [MoveStatus(Key0, MoveFailure)]
            && Monitored("p", PlanToB.moves, [MoveStatus(Key0, MoveFailure)], TornPass) == [MoveStatus(Key0, MoveSucceeded)]
  {
    var moves := PlanToB.moves;
    assert moves[..0] == [];
    assert Executed(moves[..0], [MoveStatus(Key0, MovePending)], TornPass) == [MoveStatus(Key0, MovePending)];
    assert Monitored("p", moves[..0], [MoveStatus(Key0, MoveFailure)], TornPass) == [MoveStatus(Key0, MoveFailure)];
  }

  lemma CountOne(x: MoveStatus, states: set<MoveState>)
    ensures CountOf([x], states) == if x.state in states then 1 else 0
  {
    assert [x][..0] == [];
  }

  lemma OneSucceeded()
    ensures SummaryOf([MoveStatus(Key0, MoveSucceeded)]) == Summary(1, 1, 0, 0)
  {
    CountOne(MoveStatus(Key0, MoveSucceeded), {MoveSucceeded});
    CountOne(MoveStatus(Key0, MoveSucceeded), {MoveFailure});
    CountOne(MoveStatus(Key0, MoveSucceeded), {MovePending, MoveInProgress});
  }

  /** In the very pass whose intent tears, the failed move is marked Failed, found to be Succeeded, and the plan
      ends as Succeeded; the replica is still in "a". */
  lemma TornPlanExample()
    ensures Reads(TornHistory, TornPass) && AllListed(TornHistory, PlanToB) && Fresh(Untouched)
    ensures Passed(PlanToB, Untouched, TornPass).phase == PlanSucceeded
    ensures TornPass.observed[Key0].deployed == {"a"} && TornPass.observed[Key0].statusCluster == "a"
  {
    TornRun();
    assert TornEvents[..|TornEvents|] == TornEvents;
    assert SeenAt(Life(ToB, TornEvents), |TornEvents|, 0, TornInB);
    TornPassWrites();
    OneSucceeded();
    var s1 := PlanState(Executing, false, [], Summary(0, 0, 0, 0), false);
    assert Initialised(PlanToB.moves) == [MoveStatus(Key0, MovePending)];
    assert Begun(PlanToB, s1) == PlanState(Executing, true, [MoveStatus(Key0, MovePending)], Summary(0, 0, 0, 0), false);
  }
}
