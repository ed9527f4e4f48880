/**
 What runs of the migration protocol guarantee, and exactly which events take the guarantees away.
 */
module MigrationSafety {
  import opened MigrationProtocol
  import opened MigrationRuns
  import opened Prelude

  // ------------------------------------------------------------------ one cluster per replica

  lemma OneClusterAtMost(s: set<Cluster>)
    requires AtMostOne(s)
    ensures |s| <= 1
  {
    if s != {} {
      var c :| c in s;
      assert s == {c};
    }
  }

  /** In every unhaunted run a replica's Deployment exists in at most one cluster, whatever calls fail and
      whatever intents tear. */
  lemma DeployedInAtMostOneCluster(plans: Plans, es: seq<Event>, i: nat)
    requires Unhaunted(plans, es) && i in Run(plans, es).replicas
    ensures AtMostOne(Run(plans, es).replicas[i].deployed) && |Run(plans, es).replicas[i].deployed| <= 1
  {
    RunKeepsPlaced(plans, es);
    OneClusterAtMost(Run(plans, es).replicas[i].deployed);
  }

  /** Runs are unhaunted when no intent tears across clusters, through any number of re-creations of the
      GlobalDeployment; and when it is never re-created, whatever tears. */
  lemma WhichRunsAreUnhaunted(plans: Plans, es: seq<Event>)
    requires Whole(plans, es) || RecreateOwner !in es
    ensures Unhaunted(plans, es)
  {
    if Whole(plans, es) {
      RunKeepsSettled(plans, es);
    } else {
      FirstLifeIsUnhaunted(plans, es);
    }
  }

  /** Calls that all succeed, reaching the given clusters. */
  function Smooth(reachable: set<Cluster>, health: Health): Calls {
    Calls(reachable, true, true, true, Acked, false, Acked, Acked, health)
  }

  /** All events are passes of the controller of binding i. */
  predicate PassesOf(es: seq<Event>, i: nat) {
    forall k :: 0 <= k < |es| ==> es[k].Pass? && es[k].i == i
  }

  lemma {:induction false} PassesKeepPlaced(plans: Plans, w: World, more: seq<Event>, i: nat)
    requires WorldPlaced(plans, w) && PassesOf(more, i)
    ensures WorldPlaced(plans, RunFrom(plans, w, more))
  {
    if more != [] {
      var v, last := RunFrom(plans, w, more[..|more| - 1]), more[|more| - 1];
      PassesKeepPlaced(plans, w, more[..|more| - 1], i);
      if Enabled(plans, v, last) {
        StepKeepsPlaced(plans, v, last);
      }
    }
  }

  lemma OnePass(plans: Plans, w: World, i: nat, c: Calls)
    requires i in w.replicas
    ensures RunFrom(plans, w, [Pass(i, c)]) == w.With(i, Reconciled(w.replicas[i], c))
  {
    RunOne(plans, w, [], Pass(i, c));
    assert [] + [Pass(i, c)] == [Pass(i, c)];
  }

  lemma TwoPasses(plans: Plans, w: World, i: nat, c: Calls, d: Calls)
    requires i in w.replicas
    ensures RunFrom(plans, w, [Pass(i, c), Pass(i, d)])
            == w.With(i, Reconciled(Reconciled(w.replicas[i], c), d))
  {
    OnePass(plans, w, i, c);
    RunOne(plans, w, [Pass(i, c)], Pass(i, d));
    assert [Pass(i, c)] + [Pass(i, d)] == [Pass(i, c), Pass(i, d)];
    var w1 := w.With(i, Reconciled(w.replicas[i], c));
    assert w1.With(i, Reconciled(w1.replicas[i], d)) == w.With(i, Reconciled(Reconciled(w.replicas[i], c), d));
  }

  /** Two faultless passes over an assigned binding add its target cluster to those of its Deployment. */
  lemma AssignedDeploys(b: Replica, c: Calls)
    requires b.present && b.phase == Assigned && !b.deleting && b.target.cluster != ""
    requires c == Smooth({b.target.cluster}, Progressing)
    ensures Reconciled(Reconciled(b, c), c).deployed == b.deployed + {b.target.cluster}
  {
  }

  lemma {:induction false} PassesKeepReplica(plans: Plans, w: World, more: seq<Event>, i: nat)
    requires i in w.replicas && PassesOf(more, i)
    ensures i in RunFrom(plans, w, more).replicas
  {
    if more != [] {
      PassesKeepReplica(plans, w, more[..|more| - 1], i);
    }
  }

  lemma HauntingBreaks(plans: Plans, v: World, e: Event) returns (more: seq<Event>)
    requires WorldPlaced(plans, v) && Haunts(plans, v, e)
    ensures PassesOf(more, e.i) && e.i in RunFrom(plans, Apply(plans, v, e), more).replicas
    ensures !AtMostOne(RunFrom(plans, Apply(plans, v, e), more).replicas[e.i].deployed)
  {
    var w, i := Apply(plans, v, e), e.i;
    var b := w.replicas[i];
    var c := Smooth({b.target.cluster}, Progressing);
    more := [Pass(i, c), Pass(i, c)];
    TwoPasses(plans, w, i, c, c);
    AssignedDeploys(b, c);
    var d :| d in b.deployed && d != b.target.cluster;
    assert {d, b.target.cluster} <= RunFrom(plans, w, more).replicas[i].deployed;
  }

  lemma OthersDoNot(plans: Plans, v: World, e: Event, more: seq<Event>)
    requires WorldPlaced(plans, v) && e.Schedule? && Enabled(plans, v, e) && !Haunts(plans, v, e) && PassesOf(more, e.i)
    ensures e.i in RunFrom(plans, Apply(plans, v, e), more).replicas
    ensures AtMostOne(RunFrom(plans, Apply(plans, v, e), more).replicas[e.i].deployed)
  {
    StepKeepsPlaced(plans, v, e);
    PassesKeepPlaced(plans, Apply(plans, v, e), more, e.i);
    PassesKeepReplica(plans, Apply(plans, v, e), more, e.i);
  }

  /** No passes of its controller can deploy binding i twice. */
  ghost predicate StaysSingle(plans: Plans, w: World, i: nat) {
    forall more: seq<Event> :: PassesOf(more, i) ==>
      i in RunFrom(plans, w, more).replicas && AtMostOne(RunFrom(plans, w, more).replicas[i].deployed)
  }

  /** Exactly the haunting assignments endanger a binding: after any other one, no passes of its controller
      can deploy it twice; after a haunting one, two faultless passes do. */
  lemma AssignmentIsSafeIff(plans: Plans, es: seq<Event>, e: Event)
    requires Unhaunted(plans, es) && e.Schedule? && Enabled(plans, Run(plans, es), e)
    ensures StaysSingle(plans, Apply(plans, Run(plans, es), e), e.i) <==> !Haunts(plans, Run(plans, es), e)
  {
    var v := Run(plans, es);
    RunKeepsPlaced(plans, es);
    if Haunts(plans, v, e) {
      var more := HauntingBreaks(plans, v, e);
      assert PassesOf(more, e.i);
    } else {
      forall more: seq<Event> | PassesOf(more, e.i)
        ensures e.i in RunFrom(plans, Apply(plans, v, e), more).replicas
        ensures AtMostOne(RunFrom(plans, Apply(plans, v, e), more).replicas[e.i].deployed)
      {
        OthersDoNot(plans, v, e, more);
      }
    }
  }

  // ------------------------------------------------------------------ nothing outlives its finalizer

  /** While no intent tears across clusters, no Deployment outlives its binding or the binding's finalizer,
      nor the finalizer of the GlobalDeployment. */
  lemma NoDeploymentOutlivesFinalizer(plans: Plans, es: seq<Event>, i: nat)
    requires Whole(plans, es) && i in Run(plans, es).replicas
    ensures var w := Run(plans, es);
            && (!(w.replicas[i].present && w.replicas[i].finalizer) ==> w.replicas[i].deployed == {})
            && (!w.ownerFinalizer ==> w.replicas[i].deployed == {})
  {
    RunKeepsSettled(plans, es);
    RunKeepsPlaced(plans, es);
  }

  /** A binding the GlobalDeployment controller may delete: all of its Deployment is in the cluster its deletion
      cleans up exactly when the binding has Failed or is observed where it is targeted. */
  lemma DeletableIsCleanIff(plans: Plans, es: seq<Event>, i: nat)
    requires Unhaunted(plans, es) && i in Run(plans, es).Deletables()
    ensures var b := Run(plans, es).replicas[i];
            b.deployed != {} ==>
              (b.deployed <= {b.target.cluster} <==> b.phase == Failed || b.statusCluster == b.target.cluster)
  {
    RunKeepsPlaced(plans, es);
  }

  /** While no intent tears across clusters that is always so. */
  lemma DeletableIsClean(plans: Plans, es: seq<Event>, i: nat)
    requires Whole(plans, es) && i in Run(plans, es).Deletables()
    ensures Run(plans, es).replicas[i].deployed <= {Run(plans, es).replicas[i].target.cluster}
  {
    RunKeepsSettled(plans, es);
    RunKeepsPlaced(plans, es);
  }

  /** Deleting a binding removes its Deployment only from the target cluster: when every call succeeds,
      two passes remove the binding and leave exactly what was deployed elsewhere. */
  lemma DeletionLeavesOtherClusters(b: Replica, c: Calls)
    requires b.present && b.finalizer && b.phase != Deleting && b.target.cluster != ""
    requires c == Smooth(c.reachable, c.health) && b.target.cluster in c.reachable
    ensures var b2 := Reconciled(Reconciled(DeleteRequested(b), c), c);
            !b2.present && b2.deployed == b.deployed - {b.target.cluster}
  {
  }

  /** In every unhaunted run, whether a faultless deletion leaves a Deployment behind can be read off the
      binding beforehand: it leaves none exactly when the binding has Failed or is observed where it is
      targeted. */
  lemma DeletionIsCompleteIff(plans: Plans, es: seq<Event>, i: nat, c: Calls)
    requires Unhaunted(plans, es) && i in Run(plans, es).Deletables()
    requires Run(plans, es).replicas[i].finalizer && Run(plans, es).replicas[i].target.cluster != ""
    requires c == Smooth(c.reachable, c.health) && Run(plans, es).replicas[i].target.cluster in c.reachable
    ensures var b := Run(plans, es).replicas[i];
            b.deployed != {} ==>
              (Reconciled(Reconciled(DeleteRequested(b), c), c).deployed == {} <==>
               b.phase == Failed || b.statusCluster == b.target.cluster)
  {
    DeletionLeavesOtherClusters(Run(plans, es).replicas[i], c);
    DeletableIsCleanIff(plans, es, i);
  }

  // ------------------------------------------------------------------ moves that count as Succeeded

  /** A move counts as Succeeded only when its own intent wrote the binding: the binding carries the plan's
      token and destination, is Running, and any Deployment of it is where it is observed. */
  lemma SucceededMoveIsAttributed(plans: Plans, es: seq<Event>, i: nat, token: string)
    requires Unhaunted(plans, es) && i in Run(plans, es).replicas && Run(plans, es).replicas[i].present
    requires token != "" && token in plans && i in plans[token]
    requires MoveProgressOf(token, Run(plans, es).replicas[i]) == Succeeded
    ensures var b := Run(plans, es).replicas[i];
            && b.token == token && b.phase == Running && b.target == plans[token][i]
            && b.deployed <= {b.statusCluster}
  {
    RunKeepsPlaced(plans, es);
  }

  /** While no intent tears across clusters, a Succeeded move is observed at its destination, and so is any
      Deployment of it. */
  lemma SucceededMoveIsAtDestination(plans: Plans, es: seq<Event>, i: nat, token: string)
    requires Whole(plans, es) && i in Run(plans, es).replicas && Run(plans, es).replicas[i].present
    requires token != "" && token in plans && i in plans[token]
    requires MoveProgressOf(token, Run(plans, es).replicas[i]) == Succeeded
    ensures var b := Run(plans, es).replicas[i];
            && b.token == token && b.phase == Running && b.target == plans[token][i]
            && b.statusCluster == plans[token][i].cluster
            && b.deployed <= {plans[token][i].cluster}
  {
    RunKeepsSettled(plans, es);
    SucceededMoveIsAttributed(plans, es, i, token);
  }

  /** A stable, settled binding stays settled under the intent of another plan exactly when the intent does
      not tear across clusters. */
  lemma IntentSettlesIff(b: Replica, dest: Location, token: string, spec: Fate, status: Fate)
    requires StableForPlan(b) && Settled(b) && b.token != token
    ensures Settled(IntentApplied(b, dest, token, spec, status)) <==>
            !(Torn(spec, status) && dest.cluster != b.statusCluster)
  {
  }

  /** After any run, the next intent makes a move count as Succeeded although it is not at its destination
      exactly when that intent tears across clusters; and applying it again does not mend it. */
  lemma FalseSuccessIff(plans: Plans, es: seq<Event>, e: Event)
    requires e.Intent? && Enabled(plans, Run(plans, es), e)
    requires e.token != "" && Run(plans, es).replicas[e.i].token != e.token
    ensures var b := Apply(plans, Run(plans, es), e).replicas[e.i];
            && (MoveProgressOf(e.token, b) == Succeeded && b.statusCluster != plans[e.token][e.i].cluster
                <==> TearsAcross(plans, Run(plans, es), e))
            && (TearsAcross(plans, Run(plans, es), e) ==>
                forall s, t :: IntentApplied(b, plans[e.token][e.i], e.token, s, t) == b)
  {
  }

  // ------------------------------------------------------------------ which guards the results need

  /** The plan controller patches without looking at the phase.  From any phase, an intent that lands is
      safe exactly when the Deployment is nowhere but in the observed and the destination cluster;
      otherwise one faultless pass puts it into two clusters. */
  lemma IntentSafeIff(b: Replica, dest: Location, token: string)
    requires Placed(b) && b.present && b.finalizer && !b.deleting && b.phase != Deleting
    requires b.statusCluster != "" && dest.cluster != "" && b.token != token
    ensures var b1 := IntentApplied(b, dest, token, Acked, Acked);
            && (b.deployed <= {b.statusCluster, dest.cluster} <==> Placed(b1))
            && (b.deployed <= {b.statusCluster, dest.cluster} <==>
                forall c: Calls :: AtMostOne(Reconciled(b1, c).deployed))
  {
    var b1 := IntentApplied(b, dest, token, Acked, Acked);
    if b.deployed <= {b.statusCluster, dest.cluster} {
      forall c: Calls ensures AtMostOne(Reconciled(b1, c).deployed) {
        PassKeepsPlaced(b1, c);
      }
    } else {
      var c := Smooth({b.statusCluster, dest.cluster}, Available);
      var d :| d in b.deployed && d !in {b.statusCluster, dest.cluster};
      assert {d, dest.cluster} <= Reconciled(b1, c).deployed;
      assert !AtMostOne(Reconciled(b1, c).deployed);
    }
  }

  /** The phase guard implies that condition, in every unhaunted run. */
  lemma StableIntentIsSafe(plans: Plans, es: seq<Event>, i: nat)
    requires Unhaunted(plans, es) && i in Run(plans, es).replicas && StableForPlan(Run(plans, es).replicas[i])
    ensures var b := Run(plans, es).replicas[i]; b.deployed <= {b.statusCluster} && b.statusCluster != ""
  {
    RunKeepsPlaced(plans, es);
  }

  /** With all calls succeeding, an intent and two passes end a migration: the Deployment is in the
      destination and nowhere else, observed there, and the move counts as Succeeded.  Before the last
      pass it does not. */
  lemma SmoothMigration(b: Replica, dest: Location, token: string, reachable: set<Cluster>)
    requires StableForPlan(b) && Placed(b) && Settled(b) && b.finalizer && token != "" && b.token != token
    requires dest.cluster != "" && {b.statusCluster, dest.cluster} <= reachable
    ensures var b1 := IntentApplied(b, dest, token, Acked, Acked);
            var b2 := Reconciled(b1, Smooth(reachable, Progressing));
            var b3 := Reconciled(b2, Smooth(reachable, Available));
            && b2.deployed == {dest.cluster} && MoveProgressOf(token, b2) == InProgress
            && b3 == b.(target := dest, reschedule := true, token := token,
                        statusCluster := dest.cluster, deployed := {dest.cluster})
            && MoveProgressOf(token, b3) == Succeeded
  {
  }

  // ------------------------------------------------------------------ bindings that stay in Assigned

  /** A create that landed while the status patch did not leaves the binding in Assigned, where
      AlreadyExists is an error: passes that can prepare the namespace all leave it there exactly when the
      Deployment is already in the target cluster.  In that phase the binding cannot be deleted either. */
  lemma AssignedStaysIff(b: Replica)
    requires b.present && b.phase == Assigned && !b.deleting && b.finalizer && b.target.cluster != ""
    ensures b.target.cluster in b.deployed <==> forall c: Calls :: c.namespaceReady ==> Reconciled(b, c).phase == Assigned
    ensures b.target.cluster in b.deployed ==> forall c: Calls :: c.namespaceReady ==> Reconciled(b, c) == b
    ensures !Deletable(b)
  {
    if b.target.cluster in b.deployed {
      assert b.deployed + {b.target.cluster} == b.deployed;
    } else {
      assert Reconciled(b, Smooth({b.target.cluster}, Available)).phase == Applying;
    }
  }

  /** Binding i sits in Assigned although its Deployment exists, and its GlobalDeployment is kept by its
      finalizer. */
  predicate Stuck(w: World, i: nat) {
    && i in w.replicas && w.ownerFinalizer
    && var b := w.replicas[i];
       b.present && b.phase == Assigned && !b.deleting && b.finalizer && b.deployed == {b.target.cluster}
  }

  /** The ways out: the Deployment vanishes from cluster c, or the namespace of the replica cannot be prepared. */
  predicate Frees(e: Event, i: nat, c: Cluster) {
    e == Vanish(i, c) || (e.Pass? && e.i == i && !e.calls.namespaceReady)
  }

  lemma StuckStep(plans: Plans, w: World, e: Event, i: nat)
    requires Stuck(w, i) && !Frees(e, i, w.replicas[i].target.cluster)
    ensures Stuck(Apply(plans, w, e), i) && Apply(plans, w, e).replicas[i] == w.replicas[i]
  {
    var b := w.replicas[i];
    if e.Pass? && e.i == i {
      assert b.deployed + {b.target.cluster} == b.deployed;
    } else if e.Vanish? && e.i == i {
      assert b.deployed - {e.cluster} == b.deployed;
    } else if e.OwnerPass? && Enabled(plans, w, e) {
      assert i !in e.hit;
    }
  }

  /** Without one of these, a stuck binding is the same after every continuation, and the finalizer of its
      GlobalDeployment never goes. */
  lemma {:induction false} StuckForever(plans: Plans, w: World, es: seq<Event>, i: nat)
    requires Stuck(w, i) && forall k :: 0 <= k < |es| ==> !Frees(es[k], i, w.replicas[i].target.cluster)
    ensures var w1 := RunFrom(plans, w, es);
            i in w1.replicas && w1.replicas[i] == w.replicas[i] && w1.ownerFinalizer && Stuck(w1, i)
  {
    if es != [] {
      StuckForever(plans, w, es[..|es| - 1], i);
      StuckStep(plans, RunFrom(plans, w, es[..|es| - 1]), es[|es| - 1], i);
    }
  }
}
