/**
 The replica migration protocol: one ReplicaBinding per replica, driven by three controllers that
 share it and the member clusters.

 `Replica` is what the API server and the member clusters hold about one replica: the binding object
 (phase, target, observed cluster, request token, finalizer, deletion mark) and the set of clusters in
 which the replica's member Deployment exists.  The functions give one reconcile pass of each controller
 for every way its remote calls can fare; `BindingReconciler` and `DeploymentReconciler` are the
 imperative forms.  MigrationRuns.dfy has the runs and what they keep, MigrationSafety.dfy what they guarantee.
 */
module MigrationProtocol {
  import opened Prelude

  type Cluster = string

  /** A (cluster, node) location: the destination of a move. */
  datatype Location = Location(cluster: Cluster, node: string)

  datatype Phase = Unset | Pending | Assigned | Applying | Running | Failed | Rescheduling | Deleting

  /** What the status of a member Deployment says. */
  datatype Health = Available | Broken | Progressing

  datatype Replica = Replica(
    present: bool,              // the binding object exists
    phase: Phase,
    target: Location,           // spec.targetCluster, spec.targetNodeName
    reschedule: bool,           // spec.reschedule
    token: string,              // spec.rescheduleRequest
    statusCluster: Cluster,     // status.clusterName
    finalizer: bool,
    deleting: bool,             // deletionTimestamp is set
    deployed: set<Cluster>)     // clusters holding the member Deployment

  /** Everything outside the controller's control during one pass of the ReplicaBinding controller. */
  datatype Calls = Calls(
    reachable: set<Cluster>,    // clusters whose member client can be built
    ownerFound: bool,           // the GlobalDeployment can be read
    namespaceReady: bool,
    readable: bool,             // reads of the member Deployment succeed
    delete: Fate,
    lingers: bool,              // an accepted delete leaves the Deployment terminating
    create: Fate,
    patch: Fate,
    health: Health)
  {
    /** The client cache refuses the empty cluster name. */
    predicate Client(c: Cluster) { c != "" && c in reachable }
  }

  /** A newly created binding.  The API server may drop the status given at creation, and the status
      update that follows may fail. */
  function NewBinding(deployed: set<Cluster>, statusLands: bool): Replica {
    Replica(true, if statusLands then Pending else Unset, Location("", ""), false, "", "", false, false, deployed)
  }

  // ------------------------------------------------------------------ member cluster calls

  function AfterDelete(deployed: set<Cluster>, c: Cluster, fate: Fate, lingers: bool): set<Cluster> {
    if fate.Lands() && !lingers then deployed - {c} else deployed
  }

  function AfterCreate(deployed: set<Cluster>, c: Cluster, fate: Fate): set<Cluster> {
    if fate.Lands() then deployed + {c} else deployed
  }

  // ------------------------------------------------------------------ one pass of the ReplicaBinding controller

  /** Phase Deleting: drop the finalizer once the Deployment is seen to be gone from the target cluster.
      Dropping it from a binding marked for deletion removes the object. */
  function AwaitCleanup(b: Replica, c: Calls): Replica {
    if b.finalizer && c.Client(b.target.cluster) && c.readable && b.target.cluster !in b.deployed && c.patch.Lands()
    then b.(finalizer := false, present := !b.deleting)
    else b
  }

  /** The deletion mark is set: delete the Deployment in the target cluster, then enter Deleting. */
  function BeginCleanup(b: Replica, c: Calls): Replica {
    if !c.Client(b.target.cluster) then b
    else
      var b1 := b.(deployed := AfterDelete(b.deployed, b.target.cluster, c.delete, c.lingers));
      if c.delete == Acked && c.patch.Lands() then b1.(phase := Deleting) else b1
  }

  /** Phase Assigned: create the Deployment.  AlreadyExists counts as a failure here. */
  function ApplyAssignment(b: Replica, c: Calls): Replica {
    if !c.namespaceReady then (if c.patch.Lands() then b.(phase := Failed) else b)
    else
      var b1 := b.(deployed := AfterCreate(b.deployed, b.target.cluster, c.create));
      if c.create == Acked && b.target.cluster !in b.deployed && c.patch.Lands() then b1.(phase := Applying) else b1
  }

  /** Phase Rescheduling: delete in the observed cluster, wait until it is gone, create in the target
      cluster.  AlreadyExists counts as success here. */
  function Redeploy(b: Replica, c: Calls): Replica {
    if !c.Client(b.statusCluster) then b
    else
      var b1 := b.(deployed := AfterDelete(b.deployed, b.statusCluster, c.delete, c.lingers));
      if c.delete != Acked || !c.readable || b.statusCluster in b1.deployed then b1
      else
        var b2 := b1.(deployed := AfterCreate(b1.deployed, b.target.cluster, c.create));
        if c.create == Acked && c.patch.Lands() then b2.(phase := Applying) else b2
  }

  /** Phase Applying: recreate a vanished Deployment, otherwise follow its health. */
  function WatchRollout(b: Replica, c: Calls): Replica {
    if !c.readable then b
    else if b.target.cluster !in b.deployed then
      b.(deployed := AfterCreate(b.deployed, b.target.cluster, c.create))
    else if c.patch == Refused then b
    else
      match c.health
      case Available => b.(phase := Running, statusCluster := b.target.cluster)
      case Broken => b.(phase := Failed)
      case Progressing => b
  }

  /** One reconcile pass. */
  function Reconciled(b: Replica, c: Calls): Replica {
    if !b.present then b
    else if b.phase == Deleting then AwaitCleanup(b, c)
    else if b.deleting then BeginCleanup(b, c)
    else if !b.finalizer then (if c.patch.Lands() then b.(finalizer := true) else b)
    else if b.phase == Unset then (if c.patch.Lands() then b.(phase := Pending) else b)
    else if b.phase in {Failed, Running, Pending} then b
    else if !c.ownerFound || !c.Client(b.target.cluster) then b
    else
      match b.phase
      case Assigned => ApplyAssignment(b, c)
      case Rescheduling => Redeploy(b, c)
      case _ => WatchRollout(b, c)
  }

  /** The binding and its member Deployments as mutable state, with the controller that reconciles them. */
  class BindingReconciler {
    var present: bool
    var phase: Phase
    var target: Location
    var reschedule: bool
    var token: string
    var statusCluster: Cluster
    var finalizer: bool
    var deleting: bool
    var deployed: set<Cluster>

    function View(): Replica reads this {
      Replica(present, phase, target, reschedule, token, statusCluster, finalizer, deleting, deployed)
    }

    constructor (b: Replica)
      ensures View() == b
    {
      present, phase, target, reschedule, token := b.present, b.phase, b.target, b.reschedule, b.token;
      statusCluster, finalizer, deleting, deployed := b.statusCluster, b.finalizer, b.deleting, b.deployed;
    }

    /** Deletes the member Deployment in cluster c; a missing Deployment is not an error. */
    method MemberDelete(c: Cluster, fate: Fate, lingers: bool) returns (ok: bool)
      modifies `deployed
      ensures deployed == AfterDelete(old(deployed), c, fate, lingers)
      ensures ok <==> fate == Acked
    {
      if fate.Lands() && !lingers {
        deployed := deployed - {c};
      }
      ok := fate == Acked;
    }

    /** Creates the member Deployment in cluster c and says whether the name was taken. */
    method MemberCreate(c: Cluster, fate: Fate) returns (ok: bool, taken: bool)
      modifies `deployed
      ensures deployed == AfterCreate(old(deployed), c, fate)
      ensures taken <==> fate == Acked && c in old(deployed)
      ensures ok <==> fate == Acked && c !in old(deployed)
    {
      taken := fate == Acked && c in deployed;
      ok := fate == Acked && !taken;
      if fate.Lands() {
        deployed := deployed + {c};
      }
    }

    method PatchPhase(p: Phase, fate: Fate)
      modifies `phase
      ensures phase == if fate.Lands() then p else old(phase)
    {
      if fate.Lands() {
        phase := p;
      }
    }

    method Reconcile(c: Calls)
      modifies this
      ensures View() == Reconciled(old(View()), c)
    {
      if !present {
        return;
      }
      if phase == Deleting {
        if !finalizer || !c.Client(target.cluster) || !c.readable || target.cluster in deployed {
          return;
        }
        if c.patch.Lands() {
          finalizer := false;
          present := !deleting;
        }
        return;
      }
      if deleting {
        if !c.Client(target.cluster) {
          return;
        }
        var gone := MemberDelete(target.cluster, c.delete, c.lingers);
        if gone {
          PatchPhase(Deleting, c.patch);
        }
        return;
      }
      if !finalizer {
        finalizer := c.patch.Lands();
        return;
      }
      if phase == Unset {
        PatchPhase(Pending, c.patch);
        return;
      }
      if phase == Failed || phase == Running || phase == Pending {
        return;
      }
      if !c.ownerFound || !c.Client(target.cluster) {
        return;
      }
      if phase == Assigned {
        ReconcileAssigned(c);
      } else if phase == Rescheduling {
        ReconcileRescheduling(c);
      } else {
        ReconcileApplying(c);
      }
    }

    method ReconcileAssigned(c: Calls)
      requires phase == Assigned
      modifies this
      ensures View() == ApplyAssignment(old(View()), c)
    {
      if !c.namespaceReady {
        PatchPhase(Failed, c.patch);
        return;
      }
      var created, _ := MemberCreate(target.cluster, c.create);
      if created {
        PatchPhase(Applying, c.patch);
      }
    }

    method ReconcileRescheduling(c: Calls)
      requires phase == Rescheduling
      modifies this
      ensures View() == Redeploy(old(View()), c)
    {
      if !c.Client(statusCluster) {
        return;
      }
      var ok := MemberDelete(statusCluster, c.delete, c.lingers);
      if !ok || !c.readable || statusCluster in deployed {
        return;
      }
      var created, taken := MemberCreate(target.cluster, c.create);
      if created || taken {
        PatchPhase(Applying, c.patch);
      }
    }

    method ReconcileApplying(c: Calls)
      requires phase == Applying
      modifies this
      ensures View() == WatchRollout(old(View()), c)
    {
      if !c.readable {
        return;
      }
      if target.cluster !in deployed {
        var _, _ := MemberCreate(target.cluster, c.create);
        return;
      }
      match c.health
      case Available =>
        if c.patch.Lands() {
          phase := Running;
          statusCluster := target.cluster;
        }
      case Broken =>
        PatchPhase(Failed, c.patch);
      case Progressing =>
    }
  }

  // ------------------------------------------------------------------ the other two controllers

  /** GlobalDeployment controller, scheduling: the spec update and the status update are two writes, and
      only a binding that is still Pending (or has no phase yet) is scheduled. */
  function Scheduled(b: Replica, slot: Location, spec: Fate, status: Fate): Replica {
    if !(b.phase in {Unset, Pending}) then b
    else if b.target != slot && spec != Acked then (if spec.Lands() then b.(target := slot) else b)
    else if status.Lands() then b.(target := slot, phase := Assigned)
    else b.(target := slot)
  }

  /** Plan controller, one move: the spec patch carries destination and token together, the status patch
      follows only when the spec patch was acknowledged.  The code does not look at the phase first. */
  function IntentApplied(b: Replica, dest: Location, token: string, spec: Fate, status: Fate): Replica {
    if b.target == dest && b.reschedule && b.token == token then b
    else if !spec.Lands() then b
    else
      var b1 := b.(target := dest, reschedule := true, token := token);
      if spec == Acked && status.Lands() then b1.(phase := Rescheduling) else b1
  }

  /** The spec patch of an intent landed and its status patch did not. */
  predicate Torn(spec: Fate, status: Fate) {
    spec.Lands() && !(spec == Acked && status.Lands())
  }

  datatype MoveProgress = InProgress | Succeeded | MoveFailed

  /** Plan controller: what the binding says about the move of a plan with this token. */
  function MoveProgressOf(token: string, b: Replica): MoveProgress {
    if b.phase == Failed then MoveFailed
    else if token != "" && b.token != token then InProgress
    else if b.phase == Rescheduling || b.phase == Applying then InProgress
    else if b.phase == Running then Succeeded
    else InProgress
  }

  /** Deleting an object that has a finalizer only marks it. */
  function DeleteRequested(b: Replica): Replica {
    if b.finalizer then b.(deleting := true) else b.(present := false)
  }

  /** The GlobalDeployment controller asks for deletion only in these phases. */
  predicate Deletable(b: Replica) {
    b.present && !b.deleting && b.phase in {Running, Failed}
  }

  /** A GlobalDeployment and its replicas, by replica index. */
  datatype World = World(ownerDeleting: bool, ownerFinalizer: bool, replicas: map<nat, Replica>) {
    function Deletables(): set<nat> { set i | i in replicas && Deletable(replicas[i]) }
    predicate AnyPresent() { exists i :: i in replicas && replicas[i].present }
    function With(i: nat, b: Replica): World { this.(replicas := replicas[i := b]) }
  }

  function Marked(replicas: map<nat, Replica>, hit: set<nat>): map<nat, Replica> {
    map i | i in replicas :: if i in hit then DeleteRequested(replicas[i]) else replicas[i]
  }

  /** The deletable ones among the first k bindings. */
  ghost function Among(w: World, order: seq<nat>, k: nat): set<nat>
    requires k <= |order|
  {
    set j | 0 <= j < k && order[j] in w.replicas && Deletable(w.replicas[order[j]]) :: order[j]
  }

  lemma AmongPush(w: World, order: seq<nat>, k: nat)
    requires k < |order| && Distinct(order) && order[k] in w.replicas
    ensures order[k] !in Among(w, order, k)
    ensures Among(w, order, k + 1) == Among(w, order, k) + (if Deletable(w.replicas[order[k]]) then {order[k]} else {})
  {
  }

  lemma AllAmong(w: World, order: seq<nat>)
    requires forall i :: i in order <==> i in w.replicas
    ensures Among(w, order, |order|) == w.Deletables()
  {
    forall i | i in w.Deletables() ensures i in Among(w, order, |order|) {
      var j :| 0 <= j < |order| && order[j] == i;
    }
  }

  lemma MarkOne(replicas: map<nat, Replica>, hit: set<nat>, i: nat)
    requires i in replicas && i !in hit
    ensures Marked(replicas, hit)[i := DeleteRequested(replicas[i])] == Marked(replicas, hit + {i})
  {
  }

  /** What an acknowledged delete request makes of a binding: one that is Running or Failed is marked, or removed
      when it has no finalizer; others are left alone. */
  predicate Demanded(b: Replica, b1: Replica) {
    b1 ==
    if b.present && !b.deleting && (b.phase == Running || b.phase == Failed)
    then (if b.finalizer then b.(deleting := true) else b.(present := false))
    else b
  }

  /** GlobalDeployment controller, deletion: `hit` are the bindings whose delete request landed.  While any
      binding was deletable the pass stops there; otherwise the finalizer goes once no binding is left. */
  function DeletePass(w: World, hit: set<nat>, patch: Fate): World
    requires hit <= w.Deletables()
  {
    if !w.ownerDeleting || !w.ownerFinalizer then w
    else if w.Deletables() != {} then
      w.(replicas := Marked(w.replicas, hit))
    else if w.AnyPresent() || !patch.Lands() then w
    else w.(ownerFinalizer := false)
  }

  class DeploymentReconciler {
    var ownerDeleting: bool
    var ownerFinalizer: bool
    var replicas: map<nat, Replica>

    function View(): World reads this { World(ownerDeleting, ownerFinalizer, replicas) }

    constructor (w: World)
      ensures View() == w
    {
      ownerDeleting, ownerFinalizer, replicas := w.ownerDeleting, w.ownerFinalizer, w.replicas;
    }

    /** Requests deletion of every deletable binding in list order and stops at the first request that is
        not acknowledged; `hit` are the bindings whose request took effect. */
    method IssueDeletes(order: seq<nat>, fates: map<nat, Fate>) returns (requested: bool, failed: bool, ghost hit: set<nat>)
      requires Distinct(order) && forall i :: i in order <==> i in replicas
      modifies `replicas
      ensures hit <= old(View()).Deletables()
      ensures replicas == Marked(old(replicas), hit)
      ensures !failed ==> hit == old(View()).Deletables() && (requested <==> hit != {})
      ensures failed ==> exists i :: i in old(View()).Deletables() && (i in fates ==> fates[i] != Acked)
    {
      hit, requested, failed := {}, false, false;
      ghost var was := View();
      assert replicas == Marked(was.replicas, hit);
      var k := 0;
      while k < |order|
        invariant 0 <= k <= |order|
        invariant hit == Among(was, order, k)
        invariant replicas == Marked(was.replicas, hit)
        invariant requested <==> hit != {}
      {
        var i := order[k];
        assert i in order;
        AmongPush(was, order, k);
        if Deletable(replicas[i]) {
          var fate := if i in fates then fates[i] else Refused;
          if fate.Lands() {
            MarkOne(was.replicas, hit, i);
            replicas := replicas[i := DeleteRequested(replicas[i])];
            hit := hit + {i};
          }
          if fate != Acked {
            failed := true;
            return;
          }
          requested := true;
        }
        k := k + 1;
      }
      AllAmong(was, order);
    }

    /** One deletion pass.  `hit` are the bindings that were in fact marked. */
    method ReconcileDelete(order: seq<nat>, fates: map<nat, Fate>, patch: Fate) returns (ghost hit: set<nat>)
      requires Distinct(order) && forall i :: i in order <==> i in replicas
      modifies this
      ensures hit <= old(View()).Deletables()
      ensures View() == DeletePass(old(View()), hit, patch)
      ensures old(ownerDeleting && ownerFinalizer) && hit != old(View()).Deletables() ==>
                exists i :: i in old(View()).Deletables() && (i in fates ==> fates[i] != Acked)
      ensures replicas.Keys == old(replicas.Keys)
      ensures old(ownerDeleting && ownerFinalizer) && (forall i :: i in order ==> i in fates && fates[i] == Acked) ==>
                forall i :: i in replicas ==> Demanded(old(replicas)[i], replicas[i])
    {
      hit := {};
      if !ownerDeleting || !ownerFinalizer {
        return;
      }
      ghost var was := View();
      var requested, failed;
      requested, failed, hit := IssueDeletes(order, fates);
      if requested || failed {
        return;
      }
      assert Marked(was.replicas, {}) == was.replicas;
      if !View().AnyPresent() && patch.Lands() {
        ownerFinalizer := false;
      }
    }
  }
}
