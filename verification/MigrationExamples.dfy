/**
 Concrete runs of the migration protocol in which a guarantee is lost.
 */
module MigrationExamples {
  import opened MigrationProtocol
  import opened MigrationRuns
  import opened MigrationSafety
  import opened Prelude

  /** One more event of a run, and the world it leads to. */
  lemma Then(plans: Plans, es: seq<Event>, e: Event, w: World, w1: World)
    requires Run(plans, es) == w && w1 == Apply(plans, w, e)
    ensures Run(plans, es + [e]) == w1
  {
    RunOne(plans, Start, es, e);
  }

  /** One more pass of the controller of the only replica. */
  lemma ThenPass(plans: Plans, es: seq<Event>, c: Calls, w: World, b1: Replica)
    requires Run(plans, es) == w && w.replicas.Keys == {0} && b1 == Reconciled(w.replicas[0], c)
    ensures Run(plans, es + [Pass(0, c)]) == World(w.ownerDeleting, w.ownerFinalizer, map[0 := b1])
  {
    assert w.replicas[0 := b1] == map[0 := b1];
    RunOne(plans, Start, es, Pass(0, c));
  }

  function Alone(b: Replica): World { World(false, true, map[0 := b]) }

  // ------------------------------------------------------------------ a replica that runs in cluster a

  const Setup: seq<Event> := [
    AddOwnerFinalizer, CreateBinding(0, true), Pass(0, Smooth({}, Available)),
    Schedule(0, Location("a", "n"), Acked, Acked), Pass(0, Smooth({"a"}, Available)), Pass(0, Smooth({"a"}, Available))]

  const AssignedInA := Replica(true, Assigned, Location("a", "n"), false, "", "", true, false, {})

  const RunningInA := Replica(true, Running, Location("a", "n"), false, "", "a", true, false, {"a"})

  lemma AssignedRun(plans: Plans)
    ensures Run(plans, Setup[..4]) == Alone(AssignedInA)
  {
    var es := Setup;
    var b := NewBinding({}, true);
    Then(plans, [], es[0], Start, World(false, true, map[]));
    Then(plans, [es[0]], es[1], World(false, true, map[]), Alone(b));
    ThenPass(plans, [es[0]] + [es[1]], Smooth({}, Available), Alone(b), b.(finalizer := true));
    Then(plans, [es[0]] + [es[1]] + [es[2]], es[3], Alone(b.(finalizer := true)), Alone(AssignedInA));
    assert [] + [es[0]] == [es[0]] && [es[0]] + [es[1]] + [es[2]] + [es[3]] == es[..4];
  }

  lemma RunningRun(plans: Plans)
    ensures Run(plans, Setup) == Alone(RunningInA)
  {
    var es, c := Setup, Smooth({"a"}, Available);
    var b := AssignedInA.(phase := Applying, deployed := {"a"});
    AssignedRun(plans);
    assert {} + {"a"} == {"a"} && Reconciled(AssignedInA, c) == b;
    ThenPass(plans, es[..4], c, Alone(AssignedInA), b);
    ThenPass(plans, es[..4] + [es[4]], c, Alone(b), RunningInA);
    assert es[..4] + [es[4]] + [es[5]] == es;
  }

  const ToB: Plans := map["p" := map[0 := Location("b", "n")], "q" := map[0 := Location("c", "n")]]

  // ------------------------------------------------------------------ an intent that tears

  const TornInB := Replica(true, Running, Location("b", "n"), true, "p", "a", true, false, {"a"})

  const TornEvents: seq<Event> := Setup + [Intent(0, "p", Acked, Refused)]

  /** A migration from "a" to "b" whose intent stops between its two patches. */
  lemma TornRun()
    ensures Run(ToB, TornEvents) == Alone(TornInB)
  {
    RunningRun(ToB);
    Then(ToB, Setup, Intent(0, "p", Acked, Refused), Alone(RunningInA), Alone(TornInB));
  }

  const OrphanEvents: seq<Event> := [
    DeleteOwner, OwnerPass({0}, Acked), Pass(0, Smooth({"b"}, Available)), Pass(0, Smooth({"b"}, Available)),
    OwnerPass({}, Acked)]

  const OrphanInA := TornInB.(phase := Deleting, deleting := true, finalizer := false, present := false)

  lemma MarkedForDeletion()
    ensures Apply(ToB, World(true, true, map[0 := TornInB]), OwnerPass({0}, Acked))
            == World(true, true, map[0 := TornInB.(deleting := true)])
  {
    assert World(true, true, map[0 := TornInB]).Deletables() == {0};
  }

  lemma OwnerReleased()
    ensures Apply(ToB, World(true, true, map[0 := OrphanInA]), OwnerPass({}, Acked)) == World(true, false, map[0 := OrphanInA])
  {
    assert World(true, true, map[0 := OrphanInA]).Deletables() == {};
  }

  const DeletingInB := TornInB.(deleting := true)

  const CleaningInB := TornInB.(deleting := true, phase := Deleting)

  /** Up to the binding's deletion mark. */
  lemma MarkedRun(t: seq<Event>)
    requires Run(ToB, t) == Alone(TornInB)
    ensures Run(ToB, t + [OrphanEvents[0]] + [OrphanEvents[1]]) == World(true, true, map[0 := DeletingInB])
  {
    Then(ToB, t, OrphanEvents[0], Alone(TornInB), World(true, true, map[0 := TornInB]));
    MarkedForDeletion();
    Then(ToB, t + [OrphanEvents[0]], OrphanEvents[1], World(true, true, map[0 := TornInB]),
         World(true, true, map[0 := DeletingInB]));
  }

  /** Its cleanup, in "b" only. */
  lemma CleanedRun(t: seq<Event>)
    requires Run(ToB, t) == World(true, true, map[0 := DeletingInB])
    ensures Run(ToB, t + [OrphanEvents[2]] + [OrphanEvents[3]]) == World(true, true, map[0 := OrphanInA])
  {
    var c := Smooth({"b"}, Available);
    assert {"a"} - {"b"} == {"a"} && Reconciled(DeletingInB, c) == CleaningInB;
    ThenPass(ToB, t, c, World(true, true, map[0 := DeletingInB]), CleaningInB);
    ThenPass(ToB, t + [OrphanEvents[2]], c, World(true, true, map[0 := CleaningInB]), OrphanInA);
  }

  lemma OrphanRun()
    ensures Run(ToB, TornEvents + OrphanEvents) == World(true, false, map[0 := OrphanInA])
  {
    var t, o := TornEvents, OrphanEvents;
    TornRun();
    MarkedRun(t);
    CleanedRun(t + [o[0]] + [o[1]]);
    OwnerReleased();
    Then(ToB, t + [o[0]] + [o[1]] + [o[2]] + [o[3]], o[4], World(true, true, map[0 := OrphanInA]),
         World(true, false, map[0 := OrphanInA]));
    assert t + [o[0]] + [o[1]] + [o[2]] + [o[3]] + [o[4]] == t + o;
  }

  /** With a torn intent the move counts as Succeeded although nothing moved, and deleting the
      GlobalDeployment then ends with the binding and both finalizers gone and the Deployment still there. */
  lemma TornIntentExample()
    ensures var w := Run(ToB, TornEvents);
            && w.replicas == map[0 := TornInB]
            && MoveProgressOf("p", w.replicas[0]) == Succeeded
            && w.replicas[0].statusCluster != ToB["p"][0].cluster
    ensures var w := Run(ToB, TornEvents + OrphanEvents);
            && OwnerGone(w) && 0 in w.replicas && !w.replicas[0].present && w.replicas[0].deployed == {"a"}
  {
    TornRun();
    OrphanRun();
  }

  // ------------------------------------------------------------------ the GlobalDeployment comes back

  const Returned: seq<Event> := [RecreateOwner, AddOwnerFinalizer, CreateBinding(0, true)]

  const PendingOverA := NewBinding({"a"}, true)

  /** The new binding takes the place of the old one. */
  lemma ReturnedRun(t: seq<Event>)
    requires Run(ToB, t) == World(true, false, map[0 := OrphanInA])
    ensures Run(ToB, t + [Returned[0]] + [Returned[1]] + [Returned[2]]) == Alone(PendingOverA)
  {
    var r, gone := Returned, map[0 := OrphanInA];
    Then(ToB, t, r[0], World(true, false, gone), World(false, false, gone));
    Then(ToB, t + [r[0]], r[1], World(false, false, gone), World(false, true, gone));
    assert gone[0 := PendingOverA] == map[0 := PendingOverA];
    Then(ToB, t + [r[0]] + [r[1]], r[2], World(false, true, gone), Alone(PendingOverA));
  }

  const ReturnedInB := Replica(true, Applying, Location("b", "n"), false, "", "", true, false, {"a", "b"})

  const IntoB := Schedule(0, Location("b", "n"), Acked, Acked)

  const ThroughB := Pass(0, Smooth({"b"}, Available))

  /** It is assigned to "b" and deployed there too. */
  lemma DeployedTwice(t: seq<Event>)
    requires Run(ToB, t) == Alone(PendingOverA)
    ensures Run(ToB, t + [IntoB] + [ThroughB] + [ThroughB]) == Alone(ReturnedInB)
  {
    var b, c := PendingOverA.(target := Location("b", "n"), phase := Assigned), Smooth({"b"}, Available);
    Then(ToB, t, IntoB, Alone(PendingOverA), Alone(b));
    ThenPass(ToB, t + [IntoB], c, Alone(b), b.(finalizer := true));
    assert {"a"} + {"b"} == {"a", "b"} && Reconciled(b.(finalizer := true), c) == ReturnedInB;
    ThenPass(ToB, t + [IntoB] + [ThroughB], c, Alone(b.(finalizer := true)), ReturnedInB);
  }

  const ReturnEvents: seq<Event> := Returned + [IntoB, ThroughB, ThroughB]

  /** Re-creating the GlobalDeployment after that puts the replica into two clusters: its new binding does not
      know of the Deployment that was left behind. */
  lemma RecreationExample()
    ensures Run(ToB, TornEvents + OrphanEvents + ReturnEvents) == Alone(ReturnedInB)
    ensures !AtMostOne(ReturnedInB.deployed)
  {
    var t, r := TornEvents + OrphanEvents, Returned;
    OrphanRun();
    ReturnedRun(t);
    DeployedTwice(t + [r[0]] + [r[1]] + [r[2]]);
    assert t + [r[0]] + [r[1]] + [r[2]] + [IntoB] + [ThroughB] + [ThroughB] == t + ReturnEvents;
    assert "a" in ReturnedInB.deployed && "b" in ReturnedInB.deployed;
  }

  // ------------------------------------------------------------------ an intent on a Failed binding

  const MovingToB := TornInB.(phase := Rescheduling)

  const AppliedInB := TornInB.(phase := Applying, deployed := {"b"})

  const FailedInB := TornInB.(phase := Failed, deployed := {"b"})

  const MovingEvents: seq<Event> := Setup + [Intent(0, "p", Acked, Acked)]

  const AppliedEvents: seq<Event> := MovingEvents + [Pass(0, Smooth({"a", "b"}, Available))]

  const FailedEvents: seq<Event> := AppliedEvents + [Pass(0, Smooth({"b"}, Broken))]

  lemma MovingRun()
    ensures Run(ToB, MovingEvents) == Alone(MovingToB)
  {
    RunningRun(ToB);
    Then(ToB, Setup, Intent(0, "p", Acked, Acked), Alone(RunningInA), Alone(MovingToB));
  }

  lemma AppliedRun()
    ensures Run(ToB, AppliedEvents) == Alone(AppliedInB)
  {
    var c := Smooth({"a", "b"}, Available);
    MovingRun();
    assert {"a"} - {"a"} == {} && {} + {"b"} == {"b"};
    assert Reconciled(MovingToB, c) == AppliedInB;
    ThenPass(ToB, MovingEvents, c, Alone(MovingToB), AppliedInB);
  }

  /** A faultless migration to "b" whose Deployment breaks there leaves the binding Failed and observed in "a". */
  lemma FailedRun()
    ensures Run(ToB, FailedEvents) == Alone(FailedInB)
  {
    AppliedRun();
    ThenPass(ToB, AppliedEvents, Smooth({"b"}, Broken), Alone(AppliedInB), FailedInB);
  }

  /** Another plan's intent on that binding, which the plan controller would apply, ends with Deployments in
      two clusters after one faultless pass. */
  lemma FailedBindingIntentExample()
    ensures Run(ToB, FailedEvents) == Alone(FailedInB)
    ensures Reconciled(IntentApplied(FailedInB, ToB["q"][0], "q", Acked, Acked), Smooth({"a", "c"}, Available)).deployed
            == {"b", "c"}
  {
    FailedRun();
  }
}
