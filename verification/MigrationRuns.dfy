/**
 Runs of the migration protocol.  A run interleaves, in any order and any number, scheduling, ReplicaBinding
 passes, plan intents, deletion passes, Deployments that vanish, and deletion and re-creation of the
 GlobalDeployment, with every remote call free to fail.
 */
module MigrationRuns {
  import opened MigrationProtocol
  import opened Prelude

  /** The move tables of all plans: token, then replica index, then destination. */
  type Plans = map<string, map<nat, Location>>

  datatype Event =
    | AddOwnerFinalizer
    | CreateBinding(i: nat, statusLands: bool)
    | Schedule(i: nat, slot: Location, spec: Fate, status: Fate)
    | Pass(i: nat, calls: Calls)
    | Intent(i: nat, token: string, spec: Fate, status: Fate)
    | DeleteOwner
    | OwnerPass(hit: set<nat>, patch: Fate)
    | RecreateOwner
    | Vanish(i: nat, cluster: Cluster)

  /** The bindings a plan is made for: stable replicas, that is Running ones not being deleted. */
  predicate StableForPlan(b: Replica) {
    b.present && b.phase == Running && !b.deleting
  }

  /** A GlobalDeployment that is being deleted is gone once it has no finalizer. */
  predicate OwnerGone(w: World) {
    w.ownerDeleting && !w.ownerFinalizer
  }

  predicate Enabled(plans: Plans, w: World, e: Event) {
    match e
    case AddOwnerFinalizer => !w.ownerDeleting
    case CreateBinding(i, _) => w.ownerFinalizer && !w.ownerDeleting && (i in w.replicas ==> !w.replicas[i].present)
    case Schedule(i, slot, _, _) => !w.ownerDeleting && i in w.replicas && w.replicas[i].present && slot.cluster != ""
    case Pass(i, _) => i in w.replicas
    case Intent(i, token, _, _) =>
      i in w.replicas && StableForPlan(w.replicas[i]) && token in plans && i in plans[token]
    case DeleteOwner => true
    case OwnerPass(hit, _) => hit <= w.Deletables()
    case RecreateOwner => OwnerGone(w)
    case Vanish(i, _) => i in w.replicas
  }

  /** Names of bindings and Deployments repeat, so a re-created binding takes up whatever Deployment an earlier
      one of its name has left behind. */
  function Next(plans: Plans, w: World, e: Event): World
    requires Enabled(plans, w, e)
  {
    match e
    case AddOwnerFinalizer => w.(ownerFinalizer := true)
    case CreateBinding(i, statusLands) =>
      w.With(i, NewBinding(if i in w.replicas then w.replicas[i].deployed else {}, statusLands))
    case Schedule(i, slot, spec, status) => w.With(i, Scheduled(w.replicas[i], slot, spec, status))
    case Pass(i, calls) => w.With(i, Reconciled(w.replicas[i], calls))
    case Intent(i, token, spec, status) =>
      w.With(i, IntentApplied(w.replicas[i], plans[token][i], token, spec, status))
    case DeleteOwner => w.(ownerDeleting := true)
    case OwnerPass(hit, patch) => DeletePass(w, hit, patch)
    case RecreateOwner => w.(ownerDeleting := false)
    case Vanish(i, cluster) => w.With(i, w.replicas[i].(deployed := w.replicas[i].deployed - {cluster}))
  }

  const Start := World(false, false, map[])

  /** An event that is not enabled does not happen. */
  function Apply(plans: Plans, w: World, e: Event): World {
    if Enabled(plans, w, e) then Next(plans, w, e) else w
  }

  /** The world after the events es, from w. */
  function RunFrom(plans: Plans, w: World, es: seq<Event>): World {
    if es == [] then w else Apply(plans, RunFrom(plans, w, es[..|es| - 1]), es[|es| - 1])
  }

  /** The world after the events es, from the empty control plane. */
  function Run(plans: Plans, es: seq<Event>): World { RunFrom(plans, Start, es) }

  // ------------------------------------------------------------------ events that do harm

  /** The intent stops between its spec patch and its status patch, and its destination is not the cluster
      the replica is in. */
  predicate TearsAcross(plans: Plans, w: World, e: Event) {
    && e.Intent? && Enabled(plans, w, e) && Torn(e.spec, e.status)
    && plans[e.token][e.i].cluster != w.replicas[e.i].statusCluster
  }

  /** No intent of the run tears while changing the cluster. */
  predicate Whole(plans: Plans, es: seq<Event>) {
    es == [] ||
    (Whole(plans, es[..|es| - 1]) && !TearsAcross(plans, Run(plans, es[..|es| - 1]), es[|es| - 1]))
  }

  /** The binding is assigned to a cluster while a Deployment of its name is in another. */
  predicate Haunts(plans: Plans, w: World, e: Event) {
    && e.Schedule? && Enabled(plans, w, e) && w.replicas[e.i].phase in {Unset, Pending}
    && Scheduled(w.replicas[e.i], e.slot, e.spec, e.status).phase == Assigned
    && !(w.replicas[e.i].deployed <= {e.slot.cluster})
  }

  /** No binding of the run is assigned away from a Deployment left behind by an earlier one. */
  predicate Unhaunted(plans: Plans, es: seq<Event>) {
    es == [] ||
    (Unhaunted(plans, es[..|es| - 1]) && !Haunts(plans, Run(plans, es[..|es| - 1]), es[|es| - 1]))
  }

  // ------------------------------------------------------------------ invariants of one replica

  predicate AtMostOne(s: set<Cluster>) {
    forall c, d :: c in s && d in s ==> c == d
  }

  /** Where the Deployment can be, phase by phase; kept even by torn intents. */
  predicate Located(b: Replica) {
    match b.phase
    case Unset => !b.deleting
    case Pending => !b.deleting
    case Assigned => b.deployed <= {b.target.cluster} && !b.deleting
    case Applying => b.deployed <= {b.target.cluster} && !b.deleting
    case Running => b.deployed <= {b.statusCluster} && b.statusCluster != ""
    case Failed => b.deployed <= {b.target.cluster}
    case Rescheduling => b.deployed <= {b.statusCluster, b.target.cluster} && b.statusCluster != "" && !b.deleting
    case Deleting => b.deleting
  }

  predicate Placed(b: Replica) {
    AtMostOne(b.deployed) && (b.present ==> Located(b))
  }

  /** The token names the plan that last wrote the binding, and target is that plan's destination. */
  predicate Attributed(plans: Plans, i: nat, b: Replica) {
    b.token != "" ==>
      && b.token in plans && i in plans[b.token]
      && b.target == plans[b.token][i] && b.reschedule
      && (b.present ==> b.phase in {Running, Rescheduling, Applying, Failed, Deleting})
  }

  /** Additionally kept while no intent tears across clusters: observed and target cluster agree, and a
      Deployment exists only under a binding that has a finalizer and has been assigned. */
  predicate Settled(b: Replica) {
    && (b.present && b.phase == Running ==> b.statusCluster == b.target.cluster)
    && (b.present && b.phase == Deleting ==> b.deployed <= {b.target.cluster})
    && (b.present && b.phase in {Unset, Pending} ==> b.deployed == {})
    && (!(b.present && b.finalizer) ==> b.deployed == {})
  }

  // ------------------------------------------------------------------ one pass keeps them

  lemma RedeployKeepsPlaced(b: Replica, c: Calls)
    requires Placed(b) && b.present && b.finalizer && b.phase == Rescheduling
    ensures Placed(Redeploy(b, c))
  {
  }

  lemma CleanupKeepsPlaced(b: Replica, c: Calls)
    requires Placed(b) && b.present && b.deleting
    ensures Placed(BeginCleanup(b, c)) && (b.phase == Deleting ==> Placed(AwaitCleanup(b, c)))
  {
  }

  lemma RolloutKeepsPlaced(b: Replica, c: Calls)
    requires Placed(b) && b.present && b.target.cluster != ""
    ensures b.phase == Assigned ==> Placed(ApplyAssignment(b, c))
    ensures b.phase == Applying ==> Placed(WatchRollout(b, c))
  {
  }

  lemma PassKeepsPlaced(b: Replica, c: Calls)
    requires Placed(b)
    ensures Placed(Reconciled(b, c))
  {
    if b.present {
      if b.deleting {
        CleanupKeepsPlaced(b, c);
      } else if b.finalizer {
        if b.phase == Rescheduling {
          RedeployKeepsPlaced(b, c);
        } else if b.target.cluster != "" {
          RolloutKeepsPlaced(b, c);
        }
      }
    }
  }

  lemma PassKeepsAttributed(plans: Plans, i: nat, b: Replica, c: Calls)
    requires Attributed(plans, i, b)
    ensures Attributed(plans, i, Reconciled(b, c))
  {
  }

  lemma PassKeepsSettled(b: Replica, c: Calls)
    requires Placed(b) && Settled(b)
    ensures Settled(Reconciled(b, c))
  {
  }

  // ------------------------------------------------------------------ invariants of the world

  predicate WorldPlaced(plans: Plans, w: World) {
    && (forall i :: i in w.replicas ==> Placed(w.replicas[i]) && Attributed(plans, i, w.replicas[i]))
    && (!w.ownerFinalizer ==> forall i :: i in w.replicas ==> !w.replicas[i].present)
  }

  predicate WorldSettled(w: World) {
    forall i :: i in w.replicas ==> Settled(w.replicas[i])
  }

  /** A binding that has not been assigned has no Deployment yet. */
  predicate Unused(b: Replica) {
    b.present && b.phase in {Unset, Pending} ==> b.deployed == {}
  }

  /** Kept until the GlobalDeployment is re-created: no binding of it succeeds another one. */
  predicate FirstLife(w: World) {
    && (!w.ownerDeleting ==> forall i :: i in w.replicas ==> w.replicas[i].present && !w.replicas[i].deleting)
    && forall i :: i in w.replicas ==> Unused(w.replicas[i])
  }

  /** Replacing one replica keeps the world's invariant when the new replica meets its share of it. */
  lemma WithKeepsPlaced(plans: Plans, w: World, i: nat, b: Replica)
    requires WorldPlaced(plans, w) && Placed(b) && Attributed(plans, i, b)
    requires !w.ownerFinalizer ==> !b.present
    ensures WorldPlaced(plans, w.With(i, b))
  {
  }

  lemma IntentKeepsPlaced(plans: Plans, i: nat, b: Replica, token: string, spec: Fate, status: Fate)
    requires Placed(b) && Attributed(plans, i, b) && StableForPlan(b) && token in plans && i in plans[token]
    ensures var b1 := IntentApplied(b, plans[token][i], token, spec, status);
            Placed(b1) && Attributed(plans, i, b1)
  {
  }

  lemma ScheduleKeepsPlaced(plans: Plans, i: nat, b: Replica, slot: Location, spec: Fate, status: Fate)
    requires Placed(b) && Attributed(plans, i, b) && b.present
    requires b.phase in {Unset, Pending} && Scheduled(b, slot, spec, status).phase == Assigned ==>
               b.deployed <= {slot.cluster}
    ensures var b1 := Scheduled(b, slot, spec, status);
            Placed(b1) && Attributed(plans, i, b1)
  {
  }

  lemma OwnerPassKeepsPlaced(plans: Plans, w: World, hit: set<nat>, patch: Fate)
    requires WorldPlaced(plans, w) && hit <= w.Deletables()
    ensures WorldPlaced(plans, DeletePass(w, hit, patch))
  {
    var w1 := DeletePass(w, hit, patch);
    forall i | i in w1.replicas
      ensures Placed(w1.replicas[i]) && Attributed(plans, i, w1.replicas[i])
    {
      assert i in w.replicas && (i in hit ==> Deletable(w.replicas[i]));
    }
  }

  lemma StepKeepsPlaced(plans: Plans, w: World, e: Event)
    requires WorldPlaced(plans, w) && Enabled(plans, w, e) && !Haunts(plans, w, e)
    ensures WorldPlaced(plans, Next(plans, w, e))
  {
    match e
    case AddOwnerFinalizer =>
    case DeleteOwner =>
    case RecreateOwner =>
    case OwnerPass(hit, patch) =>
      OwnerPassKeepsPlaced(plans, w, hit, patch);
    case CreateBinding(i, statusLands) =>
      WithKeepsPlaced(plans, w, i, NewBinding(if i in w.replicas then w.replicas[i].deployed else {}, statusLands));
    case Schedule(i, slot, spec, status) =>
      ScheduleKeepsPlaced(plans, i, w.replicas[i], slot, spec, status);
      WithKeepsPlaced(plans, w, i, Scheduled(w.replicas[i], slot, spec, status));
    case Pass(i, calls) =>
      PassKeepsPlaced(w.replicas[i], calls);
      PassKeepsAttributed(plans, i, w.replicas[i], calls);
      WithKeepsPlaced(plans, w, i, Reconciled(w.replicas[i], calls));
    case Intent(i, token, spec, status) =>
      IntentKeepsPlaced(plans, i, w.replicas[i], token, spec, status);
      WithKeepsPlaced(plans, w, i, IntentApplied(w.replicas[i], plans[token][i], token, spec, status));
    case Vanish(i, cluster) =>
      WithKeepsPlaced(plans, w, i, w.replicas[i].(deployed := w.replicas[i].deployed - {cluster}));
  }

  lemma OwnerPassKeepsSettled(w: World, hit: set<nat>, patch: Fate)
    requires WorldSettled(w) && hit <= w.Deletables()
    ensures WorldSettled(DeletePass(w, hit, patch))
  {
    var w1 := DeletePass(w, hit, patch);
    forall i | i in w1.replicas ensures Settled(w1.replicas[i]) {
      assert i in w.replicas && (i in hit ==> Deletable(w.replicas[i]));
    }
  }

  lemma WithKeepsSettled(w: World, i: nat, b: Replica)
    requires WorldSettled(w) && Settled(b)
    ensures WorldSettled(w.With(i, b))
  {
  }

  lemma StepKeepsSettled(plans: Plans, w: World, e: Event)
    requires WorldPlaced(plans, w) && WorldSettled(w) && Enabled(plans, w, e) && !TearsAcross(plans, w, e)
    ensures WorldSettled(Next(plans, w, e)) && !Haunts(plans, w, e)
  {
    match e
    case AddOwnerFinalizer =>
    case DeleteOwner =>
    case RecreateOwner =>
    case OwnerPass(hit, patch) =>
      OwnerPassKeepsSettled(w, hit, patch);
    case CreateBinding(i, statusLands) =>
      WithKeepsSettled(w, i, NewBinding(if i in w.replicas then w.replicas[i].deployed else {}, statusLands));
    case Schedule(i, slot, spec, status) =>
      WithKeepsSettled(w, i, Scheduled(w.replicas[i], slot, spec, status));
    case Pass(i, calls) =>
      PassKeepsSettled(w.replicas[i], calls);
      WithKeepsSettled(w, i, Reconciled(w.replicas[i], calls));
    case Intent(i, token, spec, status) =>
      WithKeepsSettled(w, i, IntentApplied(w.replicas[i], plans[token][i], token, spec, status));
    case Vanish(i, cluster) =>
      WithKeepsSettled(w, i, w.replicas[i].(deployed := w.replicas[i].deployed - {cluster}));
  }

  lemma PassKeepsUnused(b: Replica, c: Calls)
    requires Unused(b)
    ensures Unused(Reconciled(b, c)) && (b.present && !b.deleting ==> Reconciled(b, c).present)
    ensures Reconciled(b, c).deleting == b.deleting
  {
  }

  lemma WithKeepsFirstLife(w: World, i: nat, b: Replica)
    requires FirstLife(w) && Unused(b) && (!w.ownerDeleting ==> b.present && !b.deleting)
    ensures FirstLife(w.With(i, b))
  {
  }

  lemma StepKeepsFirstLife(plans: Plans, w: World, e: Event)
    requires FirstLife(w) && Enabled(plans, w, e) && !e.RecreateOwner?
    ensures FirstLife(Next(plans, w, e)) && !Haunts(plans, w, e)
  {
    match e
    case AddOwnerFinalizer =>
    case DeleteOwner =>
    case RecreateOwner =>
    case OwnerPass(hit, patch) =>
    case CreateBinding(i, statusLands) =>
      WithKeepsFirstLife(w, i, NewBinding({}, statusLands));
    case Schedule(i, slot, spec, status) =>
      WithKeepsFirstLife(w, i, Scheduled(w.replicas[i], slot, spec, status));
    case Pass(i, calls) =>
      PassKeepsUnused(w.replicas[i], calls);
      WithKeepsFirstLife(w, i, Reconciled(w.replicas[i], calls));
    case Intent(i, token, spec, status) =>
      WithKeepsFirstLife(w, i, IntentApplied(w.replicas[i], plans[token][i], token, spec, status));
    case Vanish(i, cluster) =>
      WithKeepsFirstLife(w, i, w.replicas[i].(deployed := w.replicas[i].deployed - {cluster}));
  }

  // ------------------------------------------------------------------ every run keeps them

  lemma {:induction false} RunKeepsPlaced(plans: Plans, es: seq<Event>)
    requires Unhaunted(plans, es)
    ensures WorldPlaced(plans, Run(plans, es))
  {
    if es != [] {
      var v, last := Run(plans, es[..|es| - 1]), es[|es| - 1];
      RunKeepsPlaced(plans, es[..|es| - 1]);
      if Enabled(plans, v, last) {
        StepKeepsPlaced(plans, v, last);
      }
    }
  }

  /** Runs without intents torn across clusters are unhaunted, also through deletion and re-creation. */
  lemma {:induction false} RunKeepsSettled(plans: Plans, es: seq<Event>)
    requires Whole(plans, es)
    ensures Unhaunted(plans, es) && WorldSettled(Run(plans, es))
  {
    if es != [] {
      var v, last := Run(plans, es[..|es| - 1]), es[|es| - 1];
      RunKeepsSettled(plans, es[..|es| - 1]);
      RunKeepsPlaced(plans, es[..|es| - 1]);
      if Enabled(plans, v, last) {
        StepKeepsSettled(plans, v, last);
      }
    }
  }

  /** So are runs with torn intents in which the GlobalDeployment is not re-created. */
  lemma {:induction false} FirstLifeIsUnhaunted(plans: Plans, es: seq<Event>)
    requires RecreateOwner !in es
    ensures Unhaunted(plans, es) && FirstLife(Run(plans, es))
  {
    if es != [] {
      var v, last := Run(plans, es[..|es| - 1]), es[|es| - 1];
      assert last in es;
      FirstLifeIsUnhaunted(plans, es[..|es| - 1]);
      if Enabled(plans, v, last) {
        StepKeepsFirstLife(plans, v, last);
      }
    }
  }

  lemma {:induction false} RunAppend(plans: Plans, w: World, es: seq<Event>, more: seq<Event>)
    ensures RunFrom(plans, w, es + more) == RunFrom(plans, RunFrom(plans, w, es), more)
  {
    if more == [] {
      assert es + more == es;
    } else {
      assert (es + more)[..|es + more| - 1] == es + more[..|more| - 1];
      RunAppend(plans, w, es, more[..|more| - 1]);
    }
  }

  /** One more event. */
  lemma RunOne(plans: Plans, w: World, es: seq<Event>, e: Event)
    ensures RunFrom(plans, w, es + [e]) == Apply(plans, RunFrom(plans, w, es), e)
  {
    assert (es + [e])[..|es|] == es;
  }
}
