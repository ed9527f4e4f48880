/**
 What passes bring about: the effects of one pass, told by what changes rather than by phase, and where
 repeated faultless passes lead: to Running, to Failed, or, for a GlobalDeployment that is being deleted, to
 nothing being left of it.
 */
module MigrationProgress {
  import opened MigrationProtocol
  import opened MigrationRuns
  import opened MigrationSafety
  import opened Prelude

  // ------------------------------------------------------------------ effects of one pass

  /** The pass gets to the phases in which Deployments are created. */
  predicate Rolls(b: Replica, c: Calls) {
    && b.present && b.finalizer && !b.deleting && c.ownerFound
    && b.target.cluster != "" && b.target.cluster in c.reachable
  }

  /** The observed cluster is seen to have no Deployment any more. */
  predicate OldIsGone(b: Replica, c: Calls) {
    && b.statusCluster != "" && b.statusCluster in c.reachable && c.delete == Acked && c.readable
    && (b.statusCluster in b.deployed ==> !c.lingers)
  }

  /** Exactly when a pass puts a Deployment into a cluster that has none: it is the target cluster, and the binding
      is being rolled out, moved away from a cluster that is seen to be empty, or found to have lost it. */
  lemma CreatesExactly(b: Replica, c: Calls, d: Cluster)
    requires d !in b.deployed
    ensures d in Reconciled(b, c).deployed <==>
            && d == b.target.cluster && Rolls(b, c) && c.create != Refused
            && (|| (b.phase == Assigned && c.namespaceReady)
                || (b.phase == Rescheduling && OldIsGone(b, c))
                || (b.phase == Applying && c.readable))
  {
  }

  /** Exactly when a pass takes a Deployment out of a cluster: from the target cluster for a binding marked for
      deletion, and from the observed cluster for one that is moved, unless it puts it right back there. */
  lemma DeletesExactly(b: Replica, c: Calls, d: Cluster)
    requires d in b.deployed
    ensures d !in Reconciled(b, c).deployed <==>
            && b.present && c.delete != Refused && !c.lingers && d != "" && d in c.reachable
            && (if b.deleting then b.phase != Deleting && d == b.target.cluster
                else
                  && b.phase == Rescheduling && d == b.statusCluster && Rolls(b, c)
                  && !(d == b.target.cluster && OldIsGone(b, c) && c.create != Refused))
  {
  }

  /** What it takes to enter a phase, besides the status patch. */
  predicate Enters(b: Replica, c: Calls, p: Phase) {
    match p
    case Pending => b.present && b.finalizer && !b.deleting && b.phase == Unset
    case Applying =>
      && Rolls(b, c) && c.create == Acked
      && (|| (b.phase == Assigned && c.namespaceReady && b.target.cluster !in b.deployed)
          || (b.phase == Rescheduling && OldIsGone(b, c)))
    case Running => Rolls(b, c) && b.phase == Applying && c.readable && b.target.cluster in b.deployed && c.health == Available
    case Failed =>
      && Rolls(b, c)
      && (|| (b.phase == Assigned && !c.namespaceReady)
          || (b.phase == Applying && c.readable && b.target.cluster in b.deployed && c.health == Broken))
    case Deleting =>
      b.present && b.deleting && b.target.cluster != "" && b.target.cluster in c.reachable && c.delete == Acked
    case _ => false
  }

  /** Exactly when a pass enters a phase. */
  lemma EntersExactly(b: Replica, c: Calls, p: Phase)
    requires b.phase != p
    ensures Reconciled(b, c).phase == p <==> b.phase != Deleting && Enters(b, c, p) && c.patch != Refused
  {
  }

  /** Exactly when a pass changes finalizer, presence or observed cluster; it never changes anything else. */
  lemma ChangesExactly(b: Replica, c: Calls)
    ensures var b1 := Reconciled(b, c);
            && (b1.finalizer && !b.finalizer <==>
                b.present && !b.finalizer && !b.deleting && b.phase != Deleting && c.patch != Refused)
            && (b.finalizer && !b1.finalizer <==>
                && b.present && b.finalizer && b.phase == Deleting && c.readable && c.patch != Refused
                && b.target.cluster != "" && b.target.cluster in c.reachable && b.target.cluster !in b.deployed)
            && (b1.present <==> b.present && !(b.finalizer && !b1.finalizer && b.deleting))
            && b1.statusCluster == (if b.phase == Applying && b1.phase == Running then b.target.cluster else b.statusCluster)
            && b1.target == b.target && b1.reschedule == b.reschedule && b1.token == b.token && b1.deleting == b.deleting
  {
  }

  // ------------------------------------------------------------------ effects of the other writes

  /** Exactly what scheduling does: a binding that waits for a slot gets it with the first of the two writes, and is
      Assigned with the second, which follows only an acknowledged first one or none. */
  lemma SchedulesExactly(b: Replica, slot: Location, spec: Fate, status: Fate)
    ensures var b1, waits := Scheduled(b, slot, spec, status), b.phase == Pending || b.phase == Unset;
            && (b1.target == slot <==> b.target == slot || (waits && spec != Refused))
            && (b1.target != slot ==> b1.target == b.target)
            && (b1.phase == Assigned <==> b.phase == Assigned || (waits && status != Refused && (b.target == slot || spec == Acked)))
            && (b1.phase != Assigned ==> b1.phase == b.phase)
            && b1.(target := b.target, phase := b.phase) == b
  {
  }

  /** Exactly what an intent does: a binding that does not carry all of it gets destination and token with the
      first write, and is Rescheduling with the second, which follows only an acknowledged first one. */
  lemma IntendsExactly(b: Replica, dest: Location, token: string, spec: Fate, status: Fate)
    ensures var b1, needed := IntentApplied(b, dest, token, spec, status), !(b.target == dest && b.reschedule && b.token == token);
            && (b1.target == dest && b1.reschedule && b1.token == token <==> !needed || spec != Refused)
            && (b1.phase == Rescheduling <==> b.phase == Rescheduling || (needed && spec == Acked && status != Refused))
            && (b1.phase != Rescheduling ==> b1.phase == b.phase)
            && ((needed && spec != Refused) || b1 == b)
            && b1.(target := b.target, reschedule := b.reschedule, token := b.token, phase := b.phase) == b
  {
  }

  /** What a binding says about the move of a plan: a Failed binding fails it, whatever token it carries; a Running
      one completes it if it carries the plan's token, or if the plan has none; anything else leaves it open. */
  lemma ProgressExactly(token: string, b: Replica)
    ensures MoveProgressOf(token, b) == MoveFailed <==> b.phase == Failed
    ensures MoveProgressOf(token, b) == Succeeded <==> b.phase == Running && (token == "" || b.token == token)
  {
  }

  // ------------------------------------------------------------------ faultless passes

  /** The binding after k passes with the same outcomes. */
  function Passes(b: Replica, c: Calls, k: nat): Replica {
    if k == 0 then b else Reconciled(Passes(b, c, k - 1), c)
  }

  /** A pass of a Running or Failed binding that is not being deleted does nothing. */
  lemma {:induction false} RestingStays(b: Replica, c: Calls, k: nat, m: nat)
    requires m <= k && var r := Passes(b, c, m); r.phase in {Running, Failed} && r.finalizer && !r.deleting
    ensures Passes(b, c, k) == Passes(b, c, m)
    decreases k
  {
    if m < k {
      RestingStays(b, c, k - 1, m);
    }
  }

  /** On its way to its target: a binding that is rolled out, moved, or watched. */
  predicate OnItsWay(b: Replica) {
    && b.present && !b.deleting && b.target.cluster != ""
    && (b.phase in {Rescheduling, Applying} || (b.phase == Assigned && b.target.cluster !in b.deployed))
  }

  /** All clusters the binding has to do with can be reached. */
  predicate Reached(b: Replica, reachable: set<Cluster>) {
    b.target.cluster in reachable && (b.phase == Rescheduling ==> b.statusCluster in reachable)
  }

  /** Arrived at its target, or broken there. */
  function Ended(b: Replica, health: Health): Replica {
    var b1 := b.(finalizer := true, deployed := {b.target.cluster});
    if health == Available then b1.(phase := Running, statusCluster := b.target.cluster) else b1.(phase := Failed)
  }

  /** With a finalizer, two passes end the way. */
  lemma TwoPassesEnd(b: Replica, reachable: set<Cluster>, health: Health)
    requires OnItsWay(b) && Placed(b) && Reached(b, reachable) && b.finalizer && health != Progressing
    ensures Reconciled(Reconciled(b, Smooth(reachable, health)), Smooth(reachable, health)) == Ended(b, health)
  {
    var c := Smooth(reachable, health);
    var b1 := Reconciled(b, c);
    if b.phase == Applying && b.target.cluster in b.deployed {
      assert b.deployed == {b.target.cluster};
      assert b1 == Ended(b, health);
    } else {
      assert b1 == b.(phase := Applying, deployed := {b.target.cluster});
    }
  }

  /** However a binding on its way got there, faultless passes end it in its target cluster and nowhere else:
      Running when the Deployment becomes available, Failed when it breaks. */
  lemma PassesEnd(b: Replica, reachable: set<Cluster>, health: Health, k: nat)
    requires OnItsWay(b) && Placed(b) && Reached(b, reachable) && health != Progressing && k >= 3
    ensures Passes(b, Smooth(reachable, health), k) == Ended(b, health)
  {
    var c := Smooth(reachable, health);
    assert Passes(b, c, 1) == Reconciled(b, c);
    assert Passes(b, c, 2) == Reconciled(Reconciled(b, c), c);
    if b.finalizer {
      TwoPassesEnd(b, reachable, health);
      RestingStays(b, c, k, 2);
    } else {
      var b1 := b.(finalizer := true);
      assert Reconciled(b, c) == b1;
      TwoPassesEnd(b1, reachable, health);
      assert Passes(b, c, 3) == Reconciled(Reconciled(b1, c), c);
      RestingStays(b, c, k, 3);
    }
  }

  /** A binding that is not on its way is not brought there: it stays in its phase. */
  lemma {:induction false} OthersWait(b: Replica, c: Calls, k: nat)
    requires b.present && !b.deleting && b.phase in {Pending, Running, Failed} && b.target.cluster != ""
    ensures Passes(b, c, k) in {b, b.(finalizer := true)}
  {
    if k > 0 {
      OthersWait(b, c, k - 1);
    }
  }

  lemma {:induction false} AssignedWaits(b: Replica, c: Calls, k: nat)
    requires b.present && !b.deleting && b.phase == Assigned && b.target.cluster in b.deployed && c.namespaceReady
    ensures Passes(b, c, k) in {b, b.(finalizer := true)}
  {
    if k > 0 {
      AssignedWaits(b, c, k - 1);
      assert b.deployed + {b.target.cluster} == b.deployed;
    }
  }

  lemma PassOn(plans: Plans, w: World, i: nat, b: Replica, c: Calls)
    ensures Apply(plans, w.With(i, b), Pass(i, c)) == w.With(i, Reconciled(b, c))
  {
    assert w.With(i, b).With(i, Reconciled(b, c)) == w.With(i, Reconciled(b, c));
  }

  lemma {:induction false} PassesAreEvents(plans: Plans, w: World, i: nat, c: Calls, more: seq<Event>)
    requires i in w.replicas && forall j :: 0 <= j < |more| ==> more[j] == Pass(i, c)
    ensures RunFrom(plans, w, more) == w.With(i, Passes(w.replicas[i], c, |more|))
  {
    if more == [] {
      assert w.replicas[i := w.replicas[i]] == w.replicas;
    } else {
      var n := |more| - 1;
      PassesAreEvents(plans, w, i, c, more[..n]);
      PassOn(plans, w, i, Passes(w.replicas[i], c, n), c);
    }
  }

  /** After any unhaunted run, vanished Deployments and lost writes included, three or more faultless passes end a
      present, assigned binding that is not being deleted in Running at its target, and deployed only there,
      exactly when it is not Failed and not in Assigned with its Deployment already there. */
  lemma ArrivesIff(plans: Plans, es: seq<Event>, i: nat, reachable: set<Cluster>, more: seq<Event>)
    requires Unhaunted(plans, es) && i in Run(plans, es).replicas
    requires var b := Run(plans, es).replicas[i];
             b.present && !b.deleting && b.phase !in {Unset, Pending, Running} && b.target.cluster != "" && Reached(b, reachable)
    requires |more| >= 3 && forall j :: 0 <= j < |more| ==> more[j] == Pass(i, Smooth(reachable, Available))
    ensures var b, w1 := Run(plans, es).replicas[i], Run(plans, es + more);
            && (i in w1.replicas && w1.replicas[i] == Ended(b, Available) <==>
                b.phase != Failed && !(b.phase == Assigned && b.target.cluster in b.deployed))
            && (b.phase != Failed && !(b.phase == Assigned && b.target.cluster in b.deployed) ==>
                w1 == Run(plans, es).With(i, Ended(b, Available)))
  {
    var w, c := Run(plans, es), Smooth(reachable, Available);
    var b := w.replicas[i];
    RunKeepsPlaced(plans, es);
    RunAppend(plans, Start, es, more);
    PassesAreEvents(plans, w, i, c, more);
    if OnItsWay(b) {
      PassesEnd(b, reachable, Available, |more|);
    } else if b.phase == Failed {
      OthersWait(b, c, |more|);
    } else {
      AssignedWaits(b, c, |more|);
    }
  }

  lemma VanishedArrives(plans: Plans, w: World, i: nat, reachable: set<Cluster>, more: seq<Event>)
    requires Stuck(w, i) && w.replicas[i].target.cluster != "" && w.replicas[i].target.cluster in reachable
    requires |more| >= 3 && forall j :: 0 <= j < |more| ==> more[j] == Pass(i, Smooth(reachable, Available))
    ensures RunFrom(plans, w.With(i, w.replicas[i].(deployed := {})), more) == w.With(i, Ended(w.replicas[i], Available))
  {
    var b1 := w.replicas[i].(deployed := {});
    PassesAreEvents(plans, w.With(i, b1), i, Smooth(reachable, Available), more);
    PassesEnd(b1, reachable, Available, |more|);
    assert w.With(i, b1).With(i, Ended(w.replicas[i], Available)) == w.With(i, Ended(w.replicas[i], Available));
  }

  lemma Vanishes(plans: Plans, w: World, i: nat)
    requires Stuck(w, i)
    ensures RunFrom(plans, w, [Vanish(i, w.replicas[i].target.cluster)]) == w.With(i, w.replicas[i].(deployed := {}))
  {
    var b, v := w.replicas[i], Vanish(i, w.replicas[i].target.cluster);
    RunOne(plans, w, [], v);
    assert [] + [v] == [v];
    assert b.deployed - {b.target.cluster} == {};
  }

  /** A binding that sits in Assigned over its own Deployment is freed by the Deployment vanishing, after which it
      arrives, and by a failing preparation of the namespace, which makes it Failed, so that it can be deleted. */
  lemma StuckIsFreed(plans: Plans, w: World, i: nat, reachable: set<Cluster>, more: seq<Event>, c: Calls)
    requires Stuck(w, i) && w.replicas[i].target.cluster != "" && w.replicas[i].target.cluster in reachable
    requires |more| >= 3 && forall j :: 0 <= j < |more| ==> more[j] == Pass(i, Smooth(reachable, Available))
    ensures RunFrom(plans, w, [Vanish(i, w.replicas[i].target.cluster)] + more) == w.With(i, Ended(w.replicas[i], Available))
    ensures c == Smooth(reachable, Available).(namespaceReady := false) ==>
              RunFrom(plans, w, [Pass(i, c)]) == w.With(i, w.replicas[i].(phase := Failed))
  {
    Vanishes(plans, w, i);
    RunAppend(plans, w, [Vanish(i, w.replicas[i].target.cluster)], more);
    VanishedArrives(plans, w, i, reachable, more);
    OnePass(plans, w, i, c);
  }

  /** The controller looks no more at a binding that is Running: when its Deployment vanishes no pass notices. */
  lemma RunningIsNotWatched(b: Replica, c: Calls, k: nat)
    requires b.present && !b.deleting && b.finalizer && b.phase == Running
    ensures Passes(b.(deployed := {}), c, k) == b.(deployed := {})
  {
    RestingStays(b.(deployed := {}), c, k, 0);
  }

  /** A binding that waits for a slot and has no Deployment anywhere is scheduled and rolled out. */
  lemma SlotIsReached(b: Replica, slot: Location, reachable: set<Cluster>, k: nat)
    requires b.present && !b.deleting && b.phase in {Unset, Pending} && b.deployed == {}
    requires slot.cluster != "" && slot.cluster in reachable && k >= 3
    ensures Passes(Scheduled(b, slot, Acked, Acked), Smooth(reachable, Available), k)
            == b.(target := slot, finalizer := true, phase := Running, statusCluster := slot.cluster, deployed := {slot.cluster})
  {
    PassesEnd(Scheduled(b, slot, Acked, Acked), reachable, Available, k);
  }

  /** So does a newly created one, whether or not its first status was written. */
  lemma CreatedIsRolledOut(slot: Location, statusLands: bool, reachable: set<Cluster>, k: nat)
    requires slot.cluster != "" && slot.cluster in reachable && k >= 3
    ensures Passes(Scheduled(NewBinding({}, statusLands), slot, Acked, Acked), Smooth(reachable, Available), k)
            == Replica(true, Running, slot, false, "", slot.cluster, true, false, {slot.cluster})
    ensures NewBinding({}, statusLands).phase == if statusLands then Pending else Unset
  {
    SlotIsReached(NewBinding({}, statusLands), slot, reachable, k);
  }

  /** A stable binding is moved by an intent, wherever its Deployment is. */
  lemma DestinationIsReached(b: Replica, dest: Location, token: string, reachable: set<Cluster>, k: nat)
    requires StableForPlan(b) && Placed(b) && {b.statusCluster, dest.cluster} <= reachable && dest.cluster != "" && k >= 3
    requires !(b.target == dest && b.reschedule && b.token == token)
    ensures Passes(IntentApplied(b, dest, token, Acked, Acked), Smooth(reachable, Available), k)
            == b.(target := dest, reschedule := true, token := token, finalizer := true,
                  statusCluster := dest.cluster, deployed := {dest.cluster})
  {
    PassesEnd(IntentApplied(b, dest, token, Acked, Acked), reachable, Available, k);
  }

  // ------------------------------------------------------------------ deletion of a GlobalDeployment

  /** A pass over a GlobalDeployment that is being deleted, with all its delete requests acknowledged, marks exactly
      the present, unmarked bindings that are Running or Failed, or removes them when they have no finalizer. */
  lemma RequestsExactly(w: World, patch: Fate)
    requires w.ownerDeleting && w.ownerFinalizer
    ensures var w1 := DeletePass(w, w.Deletables(), patch);
            && w1.replicas.Keys == w.replicas.Keys
            && (forall i :: i in w.replicas ==> Demanded(w.replicas[i], w1.replicas[i]))
            && (!w1.ownerFinalizer <==> patch != Refused && forall i :: i in w.replicas ==> !w.replicas[i].present)
  {
    var w1 := DeletePass(w, w.Deletables(), patch);
    if w.Deletables() == {} {
      forall i | i in w.replicas ensures !Deletable(w.replicas[i]) {
        assert i !in w.Deletables();
      }
    } else {
      var i :| i in w.Deletables();
      assert w.replicas[i].present;
    }
  }

  /** Two faultless passes of the controllers of the bindings in order, one binding after the other. */
  function Sweep(order: seq<nat>, c: Calls): seq<Event> {
    if order == [] then [] else Sweep(order[..|order| - 1], c) + [Pass(order[|order| - 1], c), Pass(order[|order| - 1], c)]
  }

  lemma SweepOne(plans: Plans, w: World, order: seq<nat>, c: Calls)
    requires order != [] && order[|order| - 1] in RunFrom(plans, w, Sweep(order[..|order| - 1], c)).replicas
    ensures var v, i := RunFrom(plans, w, Sweep(order[..|order| - 1], c)), order[|order| - 1];
            RunFrom(plans, w, Sweep(order, c)) == v.With(i, Reconciled(Reconciled(v.replicas[i], c), c))
  {
    var i := order[|order| - 1];
    RunAppend(plans, w, Sweep(order[..|order| - 1], c), [Pass(i, c), Pass(i, c)]);
    TwoPasses(plans, RunFrom(plans, w, Sweep(order[..|order| - 1], c)), i, c, c);
  }

  /** Every listed binding is passed twice. */
  lemma {:induction false} SweepPasses(plans: Plans, w: World, order: seq<nat>, c: Calls)
    requires Distinct(order) && forall i :: i in order ==> i in w.replicas
    ensures var w1 := RunFrom(plans, w, Sweep(order, c));
            && w1.ownerDeleting == w.ownerDeleting && w1.ownerFinalizer == w.ownerFinalizer && w1.replicas.Keys == w.replicas.Keys
            && forall i :: i in w.replicas ==>
                 w1.replicas[i] == if i in order then Reconciled(Reconciled(w.replicas[i], c), c) else w.replicas[i]
  {
    if order != [] {
      var rest, last := order[..|order| - 1], order[|order| - 1];
      assert order == rest + [last] && last !in rest;
      SweepPasses(plans, w, rest, c);
      SweepOne(plans, w, order, c);
    }
  }

  /** A binding marked for deletion has a finalizer. */
  predicate MarkIsHeld(b: Replica) {
    b.present && b.deleting ==> b.finalizer
  }

  lemma StepHoldsMarks(plans: Plans, w: World, e: Event)
    requires (forall i :: i in w.replicas ==> MarkIsHeld(w.replicas[i])) && Enabled(plans, w, e)
    ensures forall i :: i in Next(plans, w, e).replicas ==> MarkIsHeld(Next(plans, w, e).replicas[i])
  {
    forall i | i in Next(plans, w, e).replicas ensures MarkIsHeld(Next(plans, w, e).replicas[i]) {
      if i in w.replicas {
        assert MarkIsHeld(w.replicas[i]);
      }
    }
  }

  lemma {:induction false} RunHoldsMarks(plans: Plans, es: seq<Event>)
    ensures forall i :: i in Run(plans, es).replicas ==> MarkIsHeld(Run(plans, es).replicas[i])
  {
    if es != [] {
      var v := Run(plans, es[..|es| - 1]);
      RunHoldsMarks(plans, es[..|es| - 1]);
      if Enabled(plans, v, es[|es| - 1]) {
        StepHoldsMarks(plans, v, es[|es| - 1]);
      }
    }
  }

  /** A marked binding is gone after two faultless passes, its Deployment in the target cluster with it. */
  lemma MarkedGoes(b: Replica, c: Calls)
    requires b.present && b.deleting && b.finalizer && b.target.cluster != "" && b.target.cluster in c.reachable
    requires b.phase == Deleting ==> b.target.cluster !in b.deployed
    requires c == Smooth(c.reachable, c.health)
    ensures var b2 := Reconciled(Reconciled(b, c), c); !b2.present && b2.deployed == b.deployed - {b.target.cluster}
  {
    if b.phase == Deleting {
      assert b.deployed - {b.target.cluster} == b.deployed;
    }
  }

  /** The bindings whose deletion is requested. */
  function Requested(w: World): set<nat> {
    set i | i in w.replicas && w.replicas[i].present && !w.replicas[i].deleting && w.replicas[i].phase in {Running, Failed}
  }

  /** The deletion of a GlobalDeployment: delete requests, two passes over each binding, and a last look. */
  function Removal(w: World, order: seq<nat>, c: Calls): seq<Event> {
    [OwnerPass(Requested(w), Acked)] + Sweep(order, c) + [OwnerPass({}, Acked)]
  }

  /** The binding can be deleted, or is being deleted and its Deployment is not still terminating. */
  predicate Removable(b: Replica) {
    (b.deleting || b.phase in {Running, Failed}) && !(b.phase == Deleting && b.target.cluster in b.deployed)
  }

  function AfterRequest(b: Replica): Replica {
    if b.present && !b.deleting && b.phase in {Running, Failed} then DeleteRequested(b) else b
  }

  lemma RequestedAreDeletable(w: World)
    ensures Requested(w) == w.Deletables()
  {
  }

  lemma DemandedIsRequest(b: Replica, b1: Replica)
    requires Demanded(b, b1)
    ensures b1 == AfterRequest(b)
  {
  }

  lemma OneOwnerPass(plans: Plans, w: World, hit: set<nat>)
    requires hit <= w.Deletables()
    ensures RunFrom(plans, w, [OwnerPass(hit, Acked)]) == DeletePass(w, hit, Acked)
  {
    RunOne(plans, w, [], OwnerPass(hit, Acked));
    assert [] + [OwnerPass(hit, Acked)] == [OwnerPass(hit, Acked)];
  }

  lemma FirstLook(plans: Plans, w: World)
    requires w.ownerDeleting && w.ownerFinalizer
    ensures var w1 := RunFrom(plans, w, [OwnerPass(Requested(w), Acked)]);
            && w1.replicas.Keys == w.replicas.Keys && w1.ownerDeleting
            && (forall i :: i in w.replicas ==> w1.replicas[i] == AfterRequest(w.replicas[i]))
            && (!w1.ownerFinalizer ==> forall i :: i in w.replicas ==> !w.replicas[i].present)
  {
    var w1 := DeletePass(w, w.Deletables(), Acked);
    RequestedAreDeletable(w);
    RequestsExactly(w, Acked);
    OneOwnerPass(plans, w, w.Deletables());
    forall i | i in w.replicas ensures w1.replicas[i] == AfterRequest(w.replicas[i]) {
      DemandedIsRequest(w.replicas[i], w1.replicas[i]);
    }
  }

  /** What becomes of one binding. */
  lemma RemovedOrKept(b: Replica, c: Calls)
    requires c == Smooth(c.reachable, c.health) && MarkIsHeld(b)
    requires b.present ==> b.target.cluster != "" && b.target.cluster in c.reachable && (b.phase == Deleting ==> b.deleting)
    ensures var b1 := Reconciled(Reconciled(AfterRequest(b), c), c);
            && (b1.present <==> b.present && !Removable(b))
            && (b.present && Removable(b) && b.finalizer ==> b1.deployed == b.deployed - {b.target.cluster})
  {
    if b.present && Removable(b) && b.finalizer {
      MarkedGoes(AfterRequest(b), c);
    }
  }

  lemma LastLook(plans: Plans, w: World)
    requires w.ownerDeleting
    ensures var w1 := RunFrom(plans, w, [OwnerPass({}, Acked)]);
            && w1.replicas == w.replicas
            && (!w1.ownerFinalizer <==> !w.ownerFinalizer || forall i :: i in w.replicas ==> !w.replicas[i].present)
  {
    OneOwnerPass(plans, w, {});
    assert Marked(w.replicas, {}) == w.replicas;
    if w.ownerFinalizer {
      if w.Deletables() == {} {
        assert w.AnyPresent() <==> exists i :: i in w.replicas && w.replicas[i].present;
      } else {
        var i :| i in w.Deletables();
        assert w.replicas[i].present;
      }
    }
  }

  lemma RemovalRuns(plans: Plans, w: World, order: seq<nat>, c: Calls)
    requires w.ownerDeleting && w.ownerFinalizer && Distinct(order) && forall i :: i in order <==> i in w.replicas
    ensures var w1 := RunFrom(plans, w, Removal(w, order, c));
            && w1.replicas.Keys == w.replicas.Keys
            && (forall i :: i in w.replicas ==> w1.replicas[i] == Reconciled(Reconciled(AfterRequest(w.replicas[i]), c), c))
            && (!w1.ownerFinalizer <==> forall i :: i in w.replicas ==> !w1.replicas[i].present)
  {
    var first, last := [OwnerPass(Requested(w), Acked)], [OwnerPass({}, Acked)];
    FirstLook(plans, w);
    var v := RunFrom(plans, w, first);
    RunAppend(plans, w, first, Sweep(order, c));
    SweepPasses(plans, v, order, c);
    RunAppend(plans, w, first + Sweep(order, c), last);
    LastLook(plans, RunFrom(plans, v, Sweep(order, c)));
    if !v.ownerFinalizer {
      forall i | i in w.replicas ensures !Reconciled(Reconciled(AfterRequest(w.replicas[i]), c), c).present {
        assert !w.replicas[i].present;
      }
    }
  }

  /** No intent tears in events that are none. */
  lemma {:induction false} NoIntentIsWhole(plans: Plans, es: seq<Event>, more: seq<Event>)
    requires Whole(plans, es) && forall k :: 0 <= k < |more| ==> !more[k].Intent?
    ensures Whole(plans, es + more)
  {
    if more == [] {
      assert es + more == es;
    } else {
      assert (es + more)[..|es + more| - 1] == es + more[..|more| - 1];
      NoIntentIsWhole(plans, es, more[..|more| - 1]);
    }
  }

  lemma {:induction false} SweepHasNoIntent(order: seq<nat>, c: Calls)
    ensures forall k :: 0 <= k < |Sweep(order, c)| ==> !Sweep(order, c)[k].Intent?
  {
    if order != [] {
      SweepHasNoIntent(order[..|order| - 1], c);
    }
  }

  /** Every binding has a target cluster that can be reached. */
  predicate AllReachable(w: World, c: Calls) {
    forall i :: i in w.replicas && w.replicas[i].present ==>
      w.replicas[i].target.cluster != "" && w.replicas[i].target.cluster in c.reachable
  }

  lemma RemovalKeeps(plans: Plans, es: seq<Event>, w: World, w1: World, c: Calls)
    requires Unhaunted(plans, es) && w == Run(plans, es) && AllReachable(w, c) && c == Smooth(c.reachable, c.health)
    requires w1.replicas.Keys == w.replicas.Keys
    requires forall i :: i in w.replicas ==> w1.replicas[i] == Reconciled(Reconciled(AfterRequest(w.replicas[i]), c), c)
    ensures forall i :: i in w.replicas ==> (w1.replicas[i].present <==> w.replicas[i].present && !Removable(w.replicas[i]))
  {
    RunKeepsPlaced(plans, es);
    RunHoldsMarks(plans, es);
    forall i | i in w.replicas ensures w1.replicas[i].present <==> w.replicas[i].present && !Removable(w.replicas[i]) {
      assert Placed(w.replicas[i]) && MarkIsHeld(w.replicas[i]);
      RemovedOrKept(w.replicas[i], c);
    }
  }

  lemma RemovalLeavesNothing(plans: Plans, es: seq<Event>, steps: seq<Event>, w: World, order: seq<nat>, c: Calls)
    requires Whole(plans, es) && steps == Removal(w, order, c) && !Run(plans, es + steps).ownerFinalizer
    ensures forall i :: i in Run(plans, es + steps).replicas ==> Run(plans, es + steps).replicas[i].deployed == {}
  {
    SweepHasNoIntent(order, c);
    NoIntentIsWhole(plans, es, steps);
    forall i | i in Run(plans, es + steps).replicas ensures Run(plans, es + steps).replicas[i].deployed == {} {
      NoDeploymentOutlivesFinalizer(plans, es + steps, i);
    }
  }

  /** After any unhaunted run, a faultless deletion of a GlobalDeployment, its delete requests acknowledged and all
      target clusters reachable, ends with no binding left and its finalizer gone exactly when, beforehand, every
      binding is Running or Failed or marked already, and no cleanup still waits for a terminating Deployment.
      While no intent has torn across clusters, nothing is deployed any more then. */
  lemma DeletionEndsIff(plans: Plans, es: seq<Event>, order: seq<nat>, c: Calls)
    requires Unhaunted(plans, es) && Run(plans, es).ownerDeleting && Run(plans, es).ownerFinalizer
    requires Distinct(order) && forall i :: i in order <==> i in Run(plans, es).replicas
    requires c == Smooth(c.reachable, c.health) && AllReachable(Run(plans, es), c)
    ensures var w, w1 := Run(plans, es), Run(plans, es + Removal(Run(plans, es), order, c));
            && w1.replicas.Keys == w.replicas.Keys
            && (!w1.ownerFinalizer <==> forall i :: i in w.replicas && w.replicas[i].present ==> Removable(w.replicas[i]))
            && (!w1.ownerFinalizer ==> forall i :: i in w.replicas ==> !w1.replicas[i].present)
            && (!w1.ownerFinalizer && Whole(plans, es) ==> forall i :: i in w.replicas ==> w1.replicas[i].deployed == {})
  {
    var w, steps := Run(plans, es), Removal(Run(plans, es), order, c);
    RunAppend(plans, Start, es, steps);
    RemovalRuns(plans, w, order, c);
    var w1 := Run(plans, es + steps);
    RemovalKeeps(plans, es, w, w1, c);
    if !w1.ownerFinalizer && Whole(plans, es) {
      RemovalLeavesNothing(plans, es, steps, w, order, c);
    }
  }

  // ------------------------------------------------------------------ deletions that never end

  /** The GlobalDeployment is being deleted while binding i still waits for a slot. */
  predicate Blocked(w: World, i: nat) {
    && w.ownerDeleting && w.ownerFinalizer && i in w.replicas
    && w.replicas[i].present && !w.replicas[i].deleting && w.replicas[i].phase in {Unset, Pending}
  }

  lemma BlockedStep(plans: Plans, w: World, e: Event, i: nat)
    requires Blocked(w, i)
    ensures Blocked(Apply(plans, w, e), i)
  {
    if e.OwnerPass? && Enabled(plans, w, e) {
      assert i !in e.hit;
      assert w.replicas[i].present;
    }
  }

  /** Such a deletion never ends, whatever happens: the binding is neither scheduled any more nor deleted, and so the
      finalizer of the GlobalDeployment never goes. */
  lemma {:induction false} WaitingBlocksDeletion(plans: Plans, w: World, es: seq<Event>, i: nat)
    requires Blocked(w, i)
    ensures Blocked(RunFrom(plans, w, es), i)
  {
    if es != [] {
      WaitingBlocksDeletion(plans, w, es[..|es| - 1], i);
      BlockedStep(plans, RunFrom(plans, w, es[..|es| - 1]), es[|es| - 1], i);
    }
  }
}
