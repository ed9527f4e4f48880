# KubeMorph: model and proofs

A Dafny model of the two hard cores of KubeMorph, the multi-cluster migration protocol and the placement
optimizer, and of the smaller algorithms around them, with proofs of what they guarantee.
`dafny verify dfyconfig.toml` checks the whole project.

## What is modelled

**Migration protocol** (`MigrationProtocol.dfy`, `MigrationRuns.dfy`, `MigrationSafety.dfy`,
`MigrationProgress.dfy`, `MigrationExamples.dfy`).  One `Replica` holds what the API server and the member clusters know about one
ReplicaBinding: phase, target, observed cluster, request token, finalizer, deletion mark, and the set of
clusters that hold the member Deployment.  One pass of the ReplicaBinding controller is a function of the
replica and of the outcomes of its remote calls; a write can be refused, can take effect without being
acknowledged (which is also how a crash between a member create and the status patch looks), or can be
acknowledged.  The classes are the imperative forms, proved equal to the functions.  A run interleaves binding
creation, scheduling, passes, plan intents, vanishing Deployments, and deletion and re-creation of the
GlobalDeployment, in any order.  Two kinds of events do harm, and results say which of them they exclude: an
intent *tears across clusters* when it stops between its spec patch and its status patch and its destination is
another cluster; an assignment *haunts* when a Deployment that an earlier binding of the same name has left
behind is in another cluster.  Runs apply an intent only to a Running binding that is not being deleted, as the
stability filter of the policy controller intends, and request deletion only as the GlobalDeployment
controller does.  The plan controller itself has no such check: `IntentSafeIff` says exactly when an intent is
safe without it.  Besides what every run keeps, the results say what passes bring about: the effects of a single
pass, told by what changes rather than by phase, and where faultless passes lead from any state a run can reach.

**Plan execution** (`PlanExecution.dfy`, `PlanSafety.dfy`, `PlanProgress.dfy`, `PlanMigration.dfy`,
`PlanSystem.dfy`, `SystemProgress.dfy`).  Move
statuses, summary counters and plan phase, pass by pass, with reads and writes that may fail; what a plan's
statuses say about the runs its bindings are read from; and passes and runs as one system, in which the passes
issue the intents and read the bindings, with what success means there and when it is reached.  A failing re-read of the plan itself looks like the writes that
follow it failing.

**Scheduler** (`CandidateOrder.dfy`, `NextFit.dfy`).  Grouping, sorting and interleaving of nodes, and
next-fit with a cursor per deployment.

**Policy lease** (`PolicyLease.dfy`).  Attempts are atomic, the clock does not go back, and all policies use
one lease duration.

**Placement optimizer** (`PowerCurve.dfy`, `ServiceCentroid.dfy`, `GoalScores.dfy`, `RawValues.dfy`, `Objective.dfy`,
`IlpModel.dfy`, `EncodingCorrect.dfy`, `PlanMetrics.dfy`, `ScoreBounds.dfy`, `ReadableMetrics.dfy`,
`ScoreProportion.dfy`, `CentroidOrder.dfy`, `TwoBuilds.dfy`, `TieExample.dfy`, `PlacementPipeline.dfy`).  Goals
become raw values, normalised scores and a weighted matrix; the integer program is data (variables, rows,
objective terms); solutions are read back as an assignment, from which scores, moves and the figures shown to
users follow.  Scores are `real`.  The solver is an oracle: results speak about every 0/1 solution of the rows,
or about an optimal one where they say so.  The objective is built once for the solver and again for the plan's
scores; the orders in which Go walks through maps are inputs of each build, for each dependency of its own.
Replicas and nodes are distinct, as the controller builds them.

**Accounting** (`NodeAccounting.dfy`, `CurrentLayout.dfy`).  Pod requests per node, free resources, and the
layout of a policy's replicas with the comparison that decides whether its status is written.
`Prelude.dfy` and `OptimizerTypes.dfy` hold shared definitions.

Lemmas whose names end in `Exactly` tell what a definition means on the fields of its inputs, as sums, orders or
conditions that do not mention the definition's own parts; the general results rest on the definitions so fixed.

## What the proofs bring to light

- An intent is two writes.  When only the spec patch lands and the destination is another cluster, the move is
  reported as Succeeded without having moved anything (`FalseSuccessIff`), even in the same pass, with the whole
  plan (`TornPlanExample`); deleting the GlobalDeployment then leaves the old Deployment running
  (`TornIntentExample`).
- Within one life of the GlobalDeployment at-most-one-cluster holds even then.  When it is created again under
  the same name, its new binding does not know of what was left behind, and the replica can end up in two
  clusters (`RecreationExample`); `AssignmentIsSafeIff` names the assignments that do this.
- Whether a deletion will leave a Deployment behind can be read off the binding, but the code does not look
  (`DeletionIsCompleteIff`).
- An intent on a Failed binding can end with two Deployments (`FailedBindingIntentExample`, `IntentSafeIff`).
- A create whose status patch is lost leaves the binding in Assigned, because an existing Deployment is an
  error there, and such a binding is not deletable (`AssignedStaysIff`); only a vanishing Deployment or a failing
  preparation of the namespace frees it and its GlobalDeployment (`StuckForever`).
- A GlobalDeployment that is deleted while one of its bindings still waits for a slot is never released: such a
  binding is no longer scheduled, and it is not deleted either (`WaitingBlocksDeletion`).  `DeletionEndsIff` says
  exactly which deletions end.
- A binding that is Running is not looked at any more: when its Deployment vanishes, no pass puts it back
  (`RunningIsNotWatched`), while one that is still on its way is mended (`ArrivesIff`).
- A deployment without a cursor starts behind the first candidate node, not at it (`FreshStartsBehindFirst`).
- The penalty adjustment also creates an entry for a current node that has no score, which makes objective and
  expected score differ in cases `ObjectiveAgreesIff` describes (`UncoveredExample`).  The controller always
  builds a context for every candidate node
  (controller/internal/controller/optimizationpolicy_controller.go:741 and 1197-1239), so its own problems are
  not among them.
- A latency matrix with a nameless region can hide a nearer region (`NamelessCentroidIsMinimalIff`).
- When several regions are equally near to a service's replicas, its centroid is whichever the map iteration
  meets first (`CentroidIsFixedIff`).  The solver and the plan then may not speak about the same objective: an
  optimal plan can show a loss, which clamping turns into an improvement of zero (`TieHidesLoss`).
  `RawsAreFixedIff` says exactly when a Communication goal does not depend on it, and `TwoBuildsAgree` what then
  holds.
- A node's requested resources depend on the order of its pods when init containers dominate
  (`OrderMatters`, `TotalIsReservedIff`); the code itself calls this an approximation.
- The comparison of layouts does not look at stability: a stable replica and one that only waits to run can
  exchange their states and leave the stored layout with the wrong flags (`ExchangeUnnoticed`); without such a
  pair that cannot happen (`FlagsAreKeptIff`).

## Model

| member | source | states |
|---|---|---|
| MigrationProtocol.BindingReconciler.Reconcile | controller/internal/controller/replicabinding_controller.go:64-401 | One pass of the phase machine changes the binding and the member clusters exactly as the pass function says, for every outcome of its remote calls. |
| MigrationProtocol.BindingReconciler.ReconcileRescheduling | controller/internal/controller/replicabinding_controller.go:248-297 | Delete in the observed cluster, wait until it is gone there, create in the target cluster (an existing Deployment is fine), then Applying. |
| MigrationProtocol.DeploymentReconciler.IssueDeletes | controller/internal/controller/globaldeployment_controller.go:358-376 | Deletion is requested of every Running or Failed binding not yet marked, stopping at the first request that fails; a request marks a binding that has a finalizer and removes one that has none. |
| MigrationProtocol.DeploymentReconciler.ReconcileDelete | controller/internal/controller/globaldeployment_controller.go:324-405 | The finalizer of a GlobalDeployment goes only in a pass that found nothing deletable and no binding left. |
| MigrationSafety.DeployedInAtMostOneCluster | controller/internal/controller/replicabinding_controller.go:221-396 | In every unhaunted run, torn intents and failed or half-acknowledged calls included, a replica is deployed in at most one cluster. |
| MigrationSafety.WhichRunsAreUnhaunted | controller/internal/controller/reorchestrationplan_controller.go:160-187 | Runs are unhaunted when no intent tears across clusters, through deletion and re-creation under the same name, or when the GlobalDeployment is never re-created, whatever tears. |
| MigrationSafety.AssignmentIsSafeIff | controller/internal/controller/globaldeployment_controller.go:223-260 | After an assignment no passes of its controller can deploy the binding twice exactly when the assignment is not haunting, that is, no Deployment left behind under its name is in another cluster. |
| MigrationSafety.NoDeploymentOutlivesFinalizer | controller/internal/controller/replicabinding_controller.go:77-169 | While no intent tears across clusters, no Deployment is left once the binding or its finalizer is gone, nor once the finalizer of the GlobalDeployment is gone. |
| MigrationSafety.SucceededMoveIsAttributed | controller/internal/controller/reorchestrationplan_controller.go:396-426 | In every unhaunted run a move counts as Succeeded only when the binding carries that plan's token and destination and is Running, with any Deployment where it is observed. |
| MigrationSafety.SucceededMoveIsAtDestination | controller/internal/controller/reorchestrationplan_controller.go:145-191 | While no intent tears across clusters a Succeeded move is observed in its destination cluster and deployed nowhere else. |
| MigrationSafety.IntentSettlesIff | controller/internal/controller/reorchestrationplan_controller.go:157-187 | The intent of another plan leaves a stable, settled binding settled exactly when it does not stop between its two patches with a destination in another cluster. |
| MigrationSafety.FalseSuccessIff | controller/internal/controller/reorchestrationplan_controller.go:157-187 | After any run, the next intent makes a move count as Succeeded away from its destination exactly when it tears across clusters, and applying it again does not mend that. |
| MigrationSafety.IntentSafeIff | controller/internal/controller/reorchestrationplan_controller.go:157-187 | The plan controller does not look at the phase before patching; an intent that lands keeps the replica in one cluster exactly when it is deployed nowhere but in the observed and the destination cluster. |
| MigrationSafety.StableIntentIsSafe | controller/internal/controller/optimizationpolicy_controller.go:275-290 | The stability filter (Running, not being deleted) implies that condition in every unhaunted run. |
| MigrationSafety.DeletionLeavesOtherClusters | controller/internal/controller/replicabinding_controller.go:116-157 | Two faultless passes over a binding that is to be deleted remove it and clean up its target cluster and nothing else. |
| MigrationSafety.DeletableIsCleanIff | controller/internal/controller/globaldeployment_controller.go:366 | In every unhaunted run a binding that may be deleted and is deployed is deployed only in its target cluster exactly when it has Failed or is observed where it is targeted. |
| MigrationSafety.DeletionIsCompleteIff | controller/internal/controller/globaldeployment_controller.go:358-376 | A faultless deletion of a deployed binding leaves nothing behind exactly when, beforehand, the binding has Failed or is observed where it is targeted: the guard the deletion lacks. |
| MigrationSafety.DeletableIsClean | controller/internal/controller/globaldeployment_controller.go:366 | While no intent tears across clusters a binding that may be deleted is deployed at most in its target cluster. |
| MigrationSafety.SmoothMigration | controller/internal/controller/replicabinding_controller.go:248-378 | An intent and two faultless passes complete a migration: only the destination holds the Deployment, and the move counts as Succeeded only after the second pass. |
| MigrationSafety.AssignedStaysIff | controller/internal/controller/replicabinding_controller.go:221-245 | Passes that can prepare the namespace all leave a binding in Assigned exactly when the Deployment already exists in the target cluster, as after a crash between create and status patch; it cannot be deleted meanwhile. |
| MigrationSafety.StuckForever | controller/internal/controller/replicabinding_controller.go:221-245 | In every continuation without a failing namespace preparation for it and without its Deployment vanishing, such a binding stays as it is and the finalizer of its GlobalDeployment never goes. |
| MigrationProgress.CreatesExactly | controller/internal/controller/replicabinding_controller.go:221-316 | A pass puts a Deployment into a cluster exactly when that is the target, the create takes effect, and the binding is being rolled out, is moved away from a cluster seen to be empty, or is found to have lost its Deployment while it is watched. |
| MigrationProgress.DeletesExactly | controller/internal/controller/replicabinding_controller.go:116-297 | A pass takes a Deployment away exactly from the target cluster of a binding marked for deletion, or from the observed cluster of one that is moved, unless it puts it right back there. |
| MigrationProgress.EntersExactly | controller/internal/controller/replicabinding_controller.go:104-401 | What it takes, in calls and fields, to enter each phase: Failed also from a namespace that cannot be prepared, Running only over an available Deployment in the target cluster. |
| MigrationProgress.ChangesExactly | controller/internal/controller/replicabinding_controller.go:75-190 | Exactly when a pass adds or drops the finalizer, removes the binding, or changes the observed cluster; it never touches target, token or deletion mark. |
| MigrationProgress.ArrivesIff | controller/internal/controller/replicabinding_controller.go:221-378 | After any unhaunted run, vanished Deployments and lost writes included, three faultless passes end an assigned binding Running and deployed at its target alone exactly when it is not Failed and not in Assigned over its own Deployment. |
| MigrationProgress.PassesEnd | controller/internal/controller/replicabinding_controller.go:248-388 | From every phase on the way, with or without its Deployment or finalizer, faultless passes end a binding at its target: Running when the Deployment becomes available, Failed when it breaks. |
| MigrationProgress.StuckIsFreed | controller/internal/controller/replicabinding_controller.go:221-245 | A binding stuck in Assigned arrives once its Deployment has vanished, and becomes Failed in a pass that cannot prepare the namespace. |
| MigrationProgress.RunningIsNotWatched | controller/internal/controller/replicabinding_controller.go:188-190 | When the Deployment of a Running binding vanishes, no number of passes with any outcomes changes anything. |
| MigrationProgress.CreatedIsRolledOut | controller/internal/controller/globaldeployment_controller.go:166-260 | A newly created binding that is given a slot ends Running there after three faultless passes, whether or not its first status was written. |
| MigrationProgress.DestinationIsReached | controller/internal/controller/reorchestrationplan_controller.go:157-187 | An acknowledged intent moves a stable binding to its destination with three faultless passes, wherever its Deployment is. |
| MigrationProgress.RequestsExactly | controller/internal/controller/globaldeployment_controller.go:358-402 | An acknowledged deletion pass marks, or removes when there is no finalizer, exactly the present, unmarked bindings that are Running or Failed, and drops the GlobalDeployment's finalizer exactly when no binding is present. |
| MigrationProgress.DeletionEndsIff | controller/internal/controller/globaldeployment_controller.go:324-405 | After any unhaunted run a faultless deletion with reachable targets ends with no binding and no finalizer exactly when every binding is Running, Failed or marked already and no cleanup waits for a terminating Deployment; while no intent has torn across clusters nothing is deployed then. |
| MigrationProgress.WaitingBlocksDeletion | controller/internal/controller/globaldeployment_controller.go:108-111 | In every continuation, a GlobalDeployment that is being deleted while a binding waits for a slot keeps that binding and its finalizer. |
| MigrationExamples.TornIntentExample | controller/internal/controller/reorchestrationplan_controller.go:160-186 | A run with an intent whose status patch is lost: the move counts as Succeeded without having moved, and deletion then leaves the Deployment behind. |
| MigrationExamples.RecreationExample | controller/internal/controller/globaldeployment_controller.go:166-200 | That run continued: the GlobalDeployment is created again, its new binding is assigned to the other cluster, and the replica is deployed in two. |
| MigrationExamples.FailedBindingIntentExample | controller/internal/controller/reorchestrationplan_controller.go:157-187 | A run to a Failed binding observed in one cluster and deployed in another; an intent to a third cluster ends with two Deployments. |
| PlanExecution.PlanReconciler.PatchMoveStatus | controller/internal/controller/reorchestrationplan_controller.go:225-258 | The entry of the move gets the new state, or is appended when missing; other entries are untouched. |
| PlanExecution.PlanReconciler.PatchMoveStatusIf | controller/internal/controller/reorchestrationplan_controller.go:197-223 | Only an entry in the expected state advances; nothing is appended. |
| PlanExecution.PlanReconciler.RecomputeSummary | controller/internal/controller/reorchestrationplan_controller.go:260-289 | The counters become the numbers of entries per state, InProgress counting as pending. |
| PlanExecution.PlanReconciler.ConvergePlanPhase | controller/internal/controller/reorchestrationplan_controller.go:428-495 | One scan with three flags sets the phase the counters dictate, and only when no move is pending. |
| PlanExecution.PlanReconciler.ExecuteMoves | controller/internal/controller/reorchestrationplan_controller.go:112-195 | Statuses are initialised once, and an error of that write ends the pass even when it took effect; moves whose intent fails are marked Failed, others advance from Pending to InProgress. |
| PlanExecution.PlanReconciler.MonitorAndConverge | controller/internal/controller/reorchestrationplan_controller.go:291-364 | Statuses follow the bindings that can be read; a timed-out pass leaves the stored statuses as they are. |
| PlanExecution.PlanReconciler.Reconcile | controller/internal/controller/reorchestrationplan_controller.go:37-110 | One pass of the plan controller, terminal phases first, for every outcome of its writes. |
| PlanSafety.PassMovesPointwise | controller/internal/controller/reorchestrationplan_controller.go:145-191 | With distinct moves a pass changes each move's state as a function of that move's binding and writes alone. |
| PlanSafety.CountsAddUp | controller/internal/controller/reorchestrationplan_controller.go:269-287 | Succeeded, failed and pending add up to the number of entries. |
| PlanSafety.StatusesMirrorMoves | controller/internal/controller/reorchestrationplan_controller.go:128-138 | In every run, from the first initialisation on, the statuses list the moves one to one and in order; once a summary has been written it counts every move, in all later states, and after a pass whose last summary write takes effect it is what the statuses say. |
| PlanSafety.FinalPhaseIsDictated | controller/internal/controller/reorchestrationplan_controller.go:446-471 | In every run a final phase means that all moves are terminal, and Succeeded, Failed and PartiallyFailed tell all-succeeded, all-failed and mixed apart. |
| PlanSafety.TerminalIsAbsorbing | controller/internal/controller/reorchestrationplan_controller.go:51-54 | No sequence of passes changes a plan in a terminal phase. |
| PlanSafety.PreviewNeverStarts | controller/internal/controller/reorchestrationplan_controller.go:63-79 | Plans with Preview or an unknown strategy never start and never list a move. |
| PlanSafety.TokensIdentifyPlans | controller/internal/controller/reorchestrationplan_controller.go:366-394 | Plans with different UIDs never share a request token, whatever their names and labels. |
| PlanSafety.TokenExactly | controller/internal/controller/reorchestrationplan_controller.go:366-394 | The token is policy namespace, policy and plan name, joined by slashes, then # and the UID if there is one; labels take precedence. |
| PlanSafety.TokensEqualIff | controller/internal/controller/reorchestrationplan_controller.go:385-393 | Also without UIDs, tokens of plans with plain names are equal exactly when namespaces, policies and names are. |
| PlanProgress.PassShows | controller/internal/controller/reorchestrationplan_controller.go:333-426 | After a pass a move shows what its binding shows, if that was read and the write took effect: Failed for a Failed binding whatever its token, Succeeded for a Running one with the plan's token, else InProgress; otherwise, and in a timed-out pass, what its intent has left. |
| PlanProgress.PassEndsIff | controller/internal/controller/reorchestrationplan_controller.go:345-494 | A pass that reads every binding ends the plan exactly when each is Failed, or Running with the plan's token, as Succeeded, Failed or PartiallyFailed by which of them occur, and the summary counts them. |
| PlanProgress.ErrorsEndPass | controller/internal/controller/reorchestrationplan_controller.go:81-142 | What an error of the phase write or of the initialisation leaves behind, for a write that took effect and for one that did not. |
| PlanProgress.WaitingStays | controller/internal/controller/reorchestrationplan_controller.go:63-92 | A pass of a Preview plan, or of one with an unknown strategy, sets its phase to Pending and nothing else. |
| PlanProgress.FailureHasWitness | controller/internal/controller/reorchestrationplan_controller.go:145-361 | In every run of passes a status is Failed only because some pass could not complete the intent of its move or has read its binding as Failed. |
| PlanProgress.SummaryCounts | controller/internal/controller/reorchestrationplan_controller.go:260-289 | The counters are the numbers of entries that show Succeeded, that show Failed, and of all others. |
| PlanProgress.MonitorListsMoves | controller/internal/controller/reorchestrationplan_controller.go:300-318 | A monitor that finds no statuses lists all moves as Pending first and goes on only if that write is acknowledged. |
| PlanMigration.ReadSuccessIsReal | controller/internal/controller/reorchestrationplan_controller.go:396-426 | A pass that reads a binding as Succeeded, at any moment of a run, reads one that its own plan has written; while no intent tears across clusters, one at the destination. |
| PlanMigration.SuccessHasWitness | controller/internal/controller/reorchestrationplan_controller.go:347-361 | In every run of passes, whatever writes fail, a status is Succeeded only because some pass has read its binding as Succeeded. |
| PlanMigration.SucceededStatusIsReal | controller/internal/controller/reorchestrationplan_controller.go:347-426 | A move shown as Succeeded was read by some pass from a binding with the plan's token and destination, and at the destination while no intent tears across clusters. |
| PlanMigration.SucceededPlanHasMoved | controller/internal/controller/reorchestrationplan_controller.go:428-495 | Whatever histories the passes read from, a plan that ends as Succeeded has seen every one of its moves Running at the destination, when no intent of the history tears across clusters. |
| PlanSystem.SucceededMoveWasMoved | controller/internal/controller/reorchestrationplan_controller.go:112-364 | In every run of plan passes and protocol events as one system, a move shown as Succeeded was issued by a pass of the plan and has arrived at its destination since, when no intent of the run tears across clusters. |
| PlanSystem.SucceededPlanHasMovedAll | controller/internal/controller/reorchestrationplan_controller.go:37-110 | In such a run a plan that ends as Succeeded has issued and completed every one of its moves. |
| PlanSystem.CarriersWereIssued | controller/internal/controller/reorchestrationplan_controller.go:145-191 | A binding carries a plan's token only after a pass of that plan has issued its intent. |
| SystemProgress.SystemShows | controller/internal/controller/reorchestrationplan_controller.go:112-364 | In the system of passes and runs, a move shows after a pass what its binding is then, if the pass has seen it, and otherwise whether its intent was complete: in place already, or both patches acknowledged. |
| SystemProgress.FaultlessPlanCompletes | controller/internal/controller/reorchestrationplan_controller.go:37-495 | A Conservative or Aggressive plan of any number of moves of stable bindings, in any unhaunted histories, is completed by two of its passes with three passes of each moved binding in between when no call fails: it has Succeeded, every replica runs at its destination and nowhere else, and nothing else of its binding has changed. |
| PlanMigration.TornPlanExample | controller/internal/controller/reorchestrationplan_controller.go:112-195 | One pass whose only intent tears ends the plan as Succeeded while the replica is still in its old cluster. |
| NextFit.PickNextFit | controller/internal/controller/globaldeployment_controller.go:1048-1060 | The pick is the fitting node met first after the cursor, cyclically; there is none exactly when no node fits. |
| NextFit.TanfScheduler.SchedulePending | controller/internal/controller/globaldeployment_controller.go:209-270 | One pass places the Pending bindings by consecutive picks from the stored cursor; a binding without a fit is skipped, a failed read or write ends the pass, and cursors of other deployments stay. |
| NextFit.PicksAreFair | controller/internal/controller/globaldeployment_controller.go:216-270 | For any number of placements and any starting cursor the pick counts of two fitting positions differ by at most one; unfit positions are never picked. |
| NextFit.PicksAddUp | controller/internal/controller/globaldeployment_controller.go:216-270 | The pick counts add up to the number of placed replicas. |
| NextFit.NextExactly | controller/internal/controller/globaldeployment_controller.go:1048-1060 | A pick is the first position behind the cursor, going round, whose node can take the replica. |
| NextFit.UsableExactly | controller/internal/controller/globaldeployment_controller.go:233-241 | A node can take a replica when it is ready and has the requested CPU and memory free, or nothing is requested. |
| NextFit.FreshStartsBehindFirst | controller/internal/controller/globaldeployment_controller.go:1062-1066 | Without a stored cursor the second node is the first to be tried. |
| CandidateOrder.SortNodes | controller/internal/controller/globaldeployment_controller.go:965-976 | A permutation with larger free CPU first, then larger free memory. |
| CandidateOrder.BuildOrderedNodes | controller/internal/controller/globaldeployment_controller.go:909-995 | The candidate list interleaves the sorted per-cluster lists of eligible nodes, clusters by ID, and is a permutation of all eligible nodes. |
| CandidateOrder.InterleavingVisitsPlaces | controller/internal/controller/globaldeployment_controller.go:978-994 | Position by position the list visits every existing (rank, cluster) place, counted exactly once, by rank and then by cluster. |
| CandidateOrder.OrderedByRankThenCluster | controller/internal/controller/globaldeployment_controller.go:957-994 | A node of lower rank precedes every node of higher rank, clusters come by ID within a rank, and within one cluster roomier nodes come first. |
| CandidateOrder.InterleavingIsPermutation | controller/internal/controller/globaldeployment_controller.go:978-994 | Interleaving loses and duplicates no node. |
| CandidateOrder.CandidatesExactly | controller/internal/controller/globaldeployment_controller.go:923-955 | A candidate occurs as often as ready clusters, not last probed more than two minutes ago, report a ready, named node with these free resources, not both zero. |
| CandidateOrder.LexExactly | controller/internal/controller/globaldeployment_controller.go:957-963 | Cluster IDs are ordered as strings: prefixes first, else by the first different character. |
| PolicyLease.LeaseStore.TryAcquire | controller/internal/controller/optimizationpolicy_controller.go:1245-1319 | Create, renew, refuse or take over, for every outcome of the write. |
| PolicyLease.SuccessesNeverOverlap | controller/internal/controller/optimizationpolicy_controller.go:1245-1319 | Over every run with a clock that does not go back, successes of different policies are more than one lease duration apart. |
| PolicyLease.DiligentHolderStays | controller/internal/controller/optimizationpolicy_controller.go:1274-1286 | A holder that renews at least once per duration keeps the lease and nobody else succeeds meanwhile. |
| PolicyLease.TakeoverAfterDuration | controller/internal/controller/optimizationpolicy_controller.go:1288-1304 | A rival takes over exactly when more than the duration has passed since the last renewal. |
| PolicyLease.SucceedsExactly | controller/internal/controller/optimizationpolicy_controller.go:1245-1319 | An attempt that can read and whose write is acknowledged succeeds exactly when there is no lease, it is its own, its last renewal is unknown, or more than its duration has passed since. |
| PolicyLease.LeavesExactly | controller/internal/controller/optimizationpolicy_controller.go:1254-1315 | The lease after an attempt: the attempt's own when its write takes effect, acknowledged or not, else the old one. |
| PolicyLease.FirstComesFirst | controller/internal/controller/optimizationpolicy_controller.go:1248-1269 | In every run from no lease, the first attempt that can read and whose write takes effect makes its policy the holder, and it has succeeded if the write was acknowledged. |
| PolicyLease.AbandonedPassesOn | controller/internal/controller/optimizationpolicy_controller.go:1288-1315 | When a holder stops renewing, the first rival's attempt that goes through after more than one duration succeeds, whatever fails before. |
| IlpModel.BuildIlpModel | controller/internal/optimizer/ilp.go:144-244 | A problem is accepted exactly when it has nodes, stays within the variable limit, and its required data are complete and positive; the counts are those of the program that is built. |
| IlpModel.VariableCount | controller/internal/optimizer/ilp.go:155-158 | The program has one variable per pair of replica and node. |
| IlpModel.Compile | controller/internal/optimizer/ortools_solver_cgo.go:105-198 | The loops build exactly the assignment rows, the required capacity rows and the nonzero objective terms. |
| IlpModel.Extract | controller/internal/optimizer/ortools_solver_cgo.go:220-234 | Reads each replica's first chosen node, and fails exactly when some replica has none. |
| EncodingCorrect.EncodingIsSound | controller/internal/optimizer/ortools_solver_cgo.go:105-234 | Every 0/1 solution of the rows is read back as a total assignment into candidate nodes that keeps all required capacities, and has a one exactly where it places. |
| EncodingCorrect.EncodingIsComplete | controller/internal/optimizer/ortools_solver_cgo.go:105-234 | Every feasible assignment is a solution of the rows and is read back as itself. |
| EncodingCorrect.EncodingRoundTrip | controller/internal/optimizer/ortools_solver_cgo.go:220-234 | Reading a solution back and encoding it again gives the same values. |
| EncodingCorrect.SolvableIffPlaceable | controller/internal/optimizer/ortools_solver_cgo.go:105-198 | The program has a solution exactly when some placement is feasible. |
| EncodingCorrect.SolutionsMeetRequests | controller/internal/optimizer/ortools_solver_cgo.go:105-234 | On the fields of requests and capacities: the rows of an accepted problem accept an assignment exactly when no node is asked for more CPU than it has, if CPU is required, nor for more memory, if memory is; and every 0/1 solution is read back as such an assignment. |
| EncodingCorrect.AcceptedExactly | controller/internal/optimizer/ilp.go:144-244 | On the fields: nodes, at most 10,000 variables unless another limit is set, positive requests and capacities of what is required, contexts of candidate nodes, and a current placement for an enabled Migration goal. |
| PlanMetrics.BuildPlanMetricsAndMoves | controller/internal/optimizer/plan.go:47-111 | Scores, clamped improvement and moves of a plan; the number of pods to move is the number of moves. |
| PlanMetrics.ApplyMigrationPenalty | controller/internal/optimizer/ortools_solver_cgo.go:265-291 | In any order, each penalised replica's row gets dearer by its penalty except at the current node. |
| PlanMetrics.ObjectiveIsExpectedScore | controller/internal/optimizer/ortools_solver_cgo.go:66-135 | For one score matrix and every solution the value of the objective is the expected score, less the penalties of replicas placed where no score row reaches. |
| PlanMetrics.ObjectiveAgreesIff | controller/internal/optimizer/ortools_solver_cgo.go:265-291 | For one score matrix, objective and expected score agree exactly when no penalised replica with a known current node is placed outside its score row; covering scores rule that out. |
| PlanMetrics.UncoveredExample | controller/internal/optimizer/ortools_solver_cgo.go:265-291 | An accepted problem whose contexts cover one of two candidate nodes, and a solution with objective 0 and expected score 100. |
| PlanMetrics.OptimalIsLeast | controller/internal/optimizer/plan.go:61-98 | For the score matrix the solver had, an optimal solution has the least expected score of all feasible placements. |
| PlanMetrics.OptimalNeverWorse | controller/internal/optimizer/plan.go:95-102 | When the current placement is feasible and the plan is scored with the matrix the solver had, an optimal plan is never worse than staying; whether it is scored so is `TwoBuildsAgree`. |
| PlanMetrics.MovesReachExpected | controller/internal/optimizer/plan.go:77-84 | Carrying out the moves turns the current placement into the expected one on all replicas with both, and changes nothing else. |
| PlanMetrics.MovesAreTheDifference | controller/internal/optimizer/plan.go:77-84 | Each move leaves its replica's node for another, no replica has two, and every changed replica has one. |
| PlanMetrics.ScoresAreSums | controller/internal/optimizer/plan.go:61-98 | The current score is the sum of the scores of the current nodes, the expected score that of the expected nodes plus the penalties of the replicas that change their node. |
| GoalScores.NormalizeMatrix | controller/internal/optimizer/plugin_energy.go:96-131 | Scores are the raw values normalised between the least and the greatest of them, both of which occur. |
| GoalScores.ScorePlacement | controller/internal/optimizer/plugin_cost.go:23-75 | A linear goal is scored exactly when all its data are present and valid, and its scores are its normalised raw values for every pair. |
| RawValues.ScorableExactly | controller/internal/optimizer/plugin_communication.go:258-395 | Which goals can be scored: those of which every pair has a value, a Latency goal with a named city, a Communication goal with dependencies, a region for every node and a centroid for everything depended on. |
| RawValues.PriceExactly | controller/internal/optimizer/plugin_cost.go:31-55 | A Cost goal is worth the price of the node's instance type, known and not negative. |
| RawValues.LatencyExactly | controller/internal/optimizer/plugin_latency.go:32-55 | A Latency goal is worth the latency from the source city to the node's own region, known and not negative. |
| RawValues.ShareInUse | controller/internal/optimizer/plugin_energy.go:74-84 | Utilisation is the share of allocatable CPU that is not free, between zero and one. |
| RawValues.WattsExactly | controller/internal/optimizer/plugin_energy.go:55-105 | An Energy goal is worth the slope of the segment of the power curve that contains the node's utilisation, per core of the node, times the requested cores. |
| RawValues.WattsKnownIff | controller/internal/optimizer/plugin_energy.go:55-180 | It has a value exactly when request, instance type and allocatable CPU are given and the curve has two samples in range, apart where an end of it counts. |
| RawValues.FullerCostsMore | controller/internal/optimizer/plugin_energy.go:74-180 | On a steepening curve a node with less free CPU is never worth fewer watts than one that is otherwise like it. |
| RawValues.CommunicationExactly | controller/internal/optimizer/plugin_communication.go:363-395 | A Communication goal is worth the sum of the latencies from the node's region to the centroids of the dependencies of the replica's service, and has a value exactly when all of them can be told. |
| RawValues.RegionsExactly | controller/internal/optimizer/plugin_communication.go:293-324 | A replica counts in the region of the candidate node it is placed on, overridden or its own. |
| RawValues.NormalizeExactly | controller/internal/optimizer/plugins.go:78-92 | A score is in proportion to where the value lies in the range, zero when the range is a point, and never outside zero to a hundred. |
| Objective.AccumulatePlacementScores | controller/internal/optimizer/objective.go:368-379 | Adds weighted scores into the matrix, in any order, making rows that are missing. |
| Objective.BuildObjective | controller/internal/optimizer/objective.go:248-366 | Succeeds exactly when every enabled goal has a positive weight, a known type and its data; the result is the weighted sum of the goals' scores for every pair and the weighted penalty for every replica. |
| Objective.ObjectiveExactly | controller/internal/optimizer/objective.go:254-379 | The objective scores a pair with the sum of weight times score over the linear goals, and a move with 100 times the weights of the Migration goals. |
| Objective.AcceptableExactly | controller/internal/optimizer/objective.go:254-366 | Weight zero is always accepted, a negative weight or an unknown kind never, and a positive weight when there is nothing to score or the goal can be scored. |
| ScoreBounds.ObjectiveInRange | controller/internal/optimizer/objective.go:254-366 | With total enabled weight W, each score with and without the replica's penalty lies in [0, 100 W]. |
| ScoreBounds.SolverCoefficientsInRange | controller/internal/optimizer/ortools_solver_cgo.go:265-291 | So do the coefficients of candidate nodes after the penalty adjustment. |
| ScoreBounds.ScoresInRange | controller/internal/optimizer/plan.go:61-98 | Current and expected score of any placements lie in [0, 100 W] per replica. |
| ScoreBounds.PercentagesInRange | controller/internal/optimizer/plan.go:95-102 | Both improvement percentages lie in [0, 100]. |
| ScoreBounds.PercentagesAgreeIff | controller/internal/controller/optimizationpolicy_solver_wiring.go:333-341 | For the same current and expected scores, the percentages of the threshold gate and of the summary are equal exactly when nothing is gained or the current score is at least the gate's smallest divisor. |
| ScoreBounds.ValidatePolicy | controller/internal/controller/optimizationpolicy_controller.go:1346-1428 | A policy is valid exactly when its goal types are known, its positive weights add up to one within a millionth, a periodic one has a rebalance point that parses, and a conservative one a threshold in [0, 100]; else the first failing check is named. |
| ScoreBounds.ChecksExactly | controller/internal/controller/optimizationpolicy_controller.go:1346-1428 | What the four checks ask for, on the fields: the five goal types, a sum of positive weights between 0.999999 and 1.000001 unless there are no goals, a rebalance point, a threshold of 0 to 100. |
| ScoreBounds.PercentagesExactly | controller/internal/controller/optimizationpolicy_solver_wiring.go:333-341 | The percentage of the gate is 100 times the gain over the magnitude of the current score, or over a billionth when that is larger; that of the summary over the current score; both are zero without a gain. |
| ScoreBounds.ValidatedScoresInRange | controller/internal/controller/optimizationpolicy_controller.go:1370-1391 | A validated list keeps W within a millionth of one, and scores with penalties within 100.0001. |
| ReadableMetrics.ComputeCostTotal | controller/internal/optimizer/human_readable_impl.go:7-35 | Total price of both placements, and exactly when it cannot be told. |
| ReadableMetrics.ComputeEnergyTotalW | controller/internal/optimizer/human_readable_impl.go:134-162 | Total marginal watts of both placements, and exactly when they cannot be told. |
| ReadableMetrics.ComputeLatencyAvgMs | controller/internal/optimizer/human_readable_impl.go:56-99 | Average latency over the replicas whose region has one, and exactly when it cannot be told. |
| ReadableMetrics.GenerateMoves | controller/internal/controller/optimizationpolicy_controller.go:950-993 | The controller's moves are those of the plan metrics, and each cluster has one display name throughout the plan, whatever the reads of its object give. |
| ReadableMetrics.ComputeMigrationMoves | controller/internal/optimizer/human_readable_impl.go:201-215 | The Migration figure is the number of moves. |
| ReadableMetrics.FiguresExactly | controller/internal/optimizer/human_readable_impl.go:23-162 | A figure is the sum of what the placed replicas are worth on their nodes, for Energy times their cores, and the latency average times the number of replicas with a latency is their sum. |
| ReadableMetrics.NodeValueExactly | controller/internal/optimizer/human_readable_impl.go:36-55 | What a node is worth in a figure: its price, whatever its sign, the latency of its region, which may be missing, the watts one core is scored with. |
| ReadableMetrics.ReadableExactly | controller/internal/optimizer/human_readable_impl.go:7-162 | When a figure can be told, on the fields of nodes and data. |
| ReadableMetrics.ShownByName | controller/internal/controller/optimizationpolicy_controller.go:952-972 | A cluster is shown by its annotation, else its name, else its ID. |
| ScoreProportion.SingleGoalProportional | controller/internal/optimizer/plugins.go:78-92 | With a single linear goal, score drop times range of raw values equals 100 times weight times drop of the raw total. |
| ScoreProportion.TotalsAreProportional | controller/internal/optimizer/human_readable_impl.go:23-34 | For Cost and Energy that is the drop shown to users, for all placements that are total on the scored nodes. |
| ScoreProportion.LatencyIsProportional | controller/internal/optimizer/human_readable_impl.go:73-98 | For Latency it is the drop of the average times the number of replicas, when node regions are not overridden differently. |
| PlacementPipeline.BuiltObjectiveAgrees | controller/internal/optimizer/ortools_solver_cgo.go:240-292 | For one build of the objective from any goal list, the value of a solution is its expected score, and an optimum is least among all feasible placements. |
| PlacementPipeline.TwoBuildsAgree | controller/internal/optimizer/end_to_end.go:12-24 | The solver minimises one build of the objective and the plan is scored with another: without a Communication goal, or when its raw values do not depend on iteration orders, both are the same, an optimum is least as the plan scores it, and clamping hides no loss. |
| TwoBuilds.BuildsAgree | controller/internal/optimizer/ortools_solver_cgo.go:240-292 | Two successful builds from inputs that differ in iteration orders alone give the same scores and penalties, without a Communication goal or under the condition of `RawsAreFixedIff`. |
| TwoBuilds.BuildsSucceedTogether | controller/internal/optimizer/objective.go:248-366 | Under the same condition one of the builds succeeds exactly when the other does. |
| TwoBuilds.RawsAreFixedIff | controller/internal/optimizer/plugin_communication.go:324-395 | A Communication goal that can be scored in some order can be scored in every order with the same raw values exactly when every dependency has a nearest named region, and the nearest regions of each dependency of a placed replica are equally far from every candidate node. |
| TieExample.TieHidesLoss | controller/internal/optimizer/ortools_solver_cgo.go:66-292 | Two builds from the inputs of a caller and a service with replicas in two regions: moving the caller is optimal and costs the solver nothing, while the plan shows an expected score of 100 over a current one of 0 and an improvement of 0. |
| TieExample.BothBuildsSucceed | controller/internal/optimizer/plugin_communication.go:324-395 | Both builds of that example succeed, their inputs differ only in the order of two regions, and the condition fails for them. |
| PlacementPipeline.OptimalPlanMinimisesShownFigure | controller/internal/optimizer/human_readable_impl.go:7-162 | With a single Cost, Energy or Latency goal no feasible placement shows users a smaller price, power or average latency than an optimal plan. |
| PowerCurve.MarginalWattsPerCore | controller/internal/optimizer/plugin_energy.go:135-180 | Sorts a copy of the samples and finds the slope, with every error case. |
| PowerCurve.SortSamplesSorts | controller/internal/optimizer/plugin_energy.go:142-144 | Sorting gives a sorted permutation. |
| PowerCurve.InteriorSlopeIsDefined | controller/internal/optimizer/plugin_energy.go:168-179 | Strictly inside a sorted curve the search always finds a segment, of nonzero width even with duplicate samples. |
| PowerCurve.ErrorsExactly | controller/internal/optimizer/plugin_energy.go:135-180 | The error cases, and no others. |
| PowerCurve.ConvexMarginalIsMonotone | controller/internal/optimizer/plugin_energy.go:150-179 | On convex curves with distinct utilisations the marginal watts never fall as utilisation rises. |
| PowerCurve.SlopeExactly | controller/internal/optimizer/plugin_energy.go:135-180 | Watts per core times cores times the width of the segment that counts is the difference of its powers: the segment ending at or after the utilisation, the first below the curve, the last beyond it. |
| ServiceCentroid.ComputeServiceCentroidRegion | controller/internal/optimizer/plugin_communication.go:538-590 | For any iteration orders: the result of the scan, and exactly when there is none. |
| ServiceCentroid.CentroidIsMinimal | controller/internal/optimizer/plugin_communication.go:571-585 | Without a nameless candidate the result is a candidate with the least average latency. |
| ServiceCentroid.NamelessCentroidIsMinimalIff | controller/internal/optimizer/plugin_communication.go:581-589 | With a nameless candidate it is, in any order, exactly when some named candidate is at least as near as the nameless one. |
| ServiceCentroid.EmptyNameExample | controller/internal/optimizer/plugin_communication.go:581-584 | A nameless region that is nearest makes the scan return a farther one. |
| ServiceCentroid.CentroidIgnoresOrder | controller/internal/optimizer/plugin_communication.go:538-590 | The least average does not depend on the order in which the maps are walked; which region attains it can. |
| ServiceCentroid.AverageExactly | controller/internal/optimizer/plugin_communication.go:571-580 | A candidate can be compared when it has a latency, not negative, to every region of the service, and its average times their number is the sum of these. |
| ServiceCentroid.RegionsOfOne | controller/internal/optimizer/plugin_communication.go:545-563 | A replica stands for its region when that is known and it runs the service, by name alone when the service has no namespace. |
| CentroidOrder.NearestIsFixedIff | controller/internal/optimizer/plugin_communication.go:571-585 | The scan ends alike in every order of the candidates exactly when nothing can be found in any, or one named region alone is nearest: nearer than every other named one and at least as near as a nameless one. |
| CentroidOrder.CentroidIsFixedIff | controller/internal/optimizer/plugin_communication.go:538-590 | The same for the whole computation, over all orders in which both maps can be walked. |
| NodeAccounting.SumPodRequestsByNode | controller/internal/controller/cluster_controller.go:366-412 | Per node, the running total over its unfinished pods: containers added, init containers lifting the total to at least their request. |
| NodeAccounting.TotalInBounds | controller/internal/controller/cluster_controller.go:386-407 | For non-negative requests the total lies between the sum of container requests and the sum of what the pods reserve. |
| NodeAccounting.TotalIsReservedIff | controller/internal/controller/cluster_controller.go:396-407 | It is what the pods reserve exactly when no pod with a dominating init container follows a nonzero total. |
| NodeAccounting.OrderMatters | controller/internal/controller/cluster_controller.go:396-407 | The same two pods in the other order give another total. |
| NodeAccounting.BuildNodeSummaries | controller/internal/controller/cluster_controller.go:414-471 | Per node, requested plus free is allocatable, readiness is the first Ready condition, and the only label kept is a nonempty host name. |
| NodeAccounting.SumNodeResources | controller/internal/controller/cluster_controller.go:351-364 | Capacity and allocatable of the whole cluster. |
| NodeAccounting.ResourcesAreConserved | controller/internal/controller/cluster_controller.go:351-457 | The allocatable total is the sum of requested and free over the nodes. |
| NodeAccounting.PublishedFreeInBounds | controller/internal/controller/cluster_controller.go:434-440 | How far the free resources the scheduler sees can be off. |
| NodeAccounting.RequestsExactly | controller/internal/controller/cluster_controller.go:366-412 | What is counted and reserved, on the fields: sums of container requests, the largest init request or zero, the larger of both, of pods that are bound to the node and not finished. |
| NodeAccounting.TotalsAreSums | controller/internal/controller/cluster_controller.go:351-364 | Capacity and allocatable totals are the sums over the nodes, for CPU and for memory. |
| CurrentLayout.CollectLayout | controller/internal/controller/optimizationpolicy_controller.go:220-300 | Every replica with a binding of a selected deployment is collected exactly once, from its last binding, with counts. |
| CurrentLayout.CountsAreConserved | controller/internal/controller/optimizationpolicy_controller.go:289-302 | Stable and unstable make up the observed replicas, and the reasons make up the unstable ones. |
| CurrentLayout.EqualCurrentLayout | controller/internal/controller/optimizationpolicy_controller.go:380-412 | True exactly when both layouts have the same signatures equally often, in any order. |
| CurrentLayout.PolicyStatus.ReconcileLayout | controller/internal/controller/optimizationpolicy_controller.go:204-317 | The status is written exactly when counts or signatures differ, and the write may fail; without an error all counts are right afterwards and the stored layout is right up to order and stability, and its flags too unless two replicas can exchange their states. |
| CurrentLayout.FlagsAreKeptIff | controller/internal/controller/optimizationpolicy_controller.go:243-310 | While the deployments stay as they are, every layout that can be collected and looks like the stored one agrees with its stability flags exactly when the stored one does not hold both a stable replica and one that only waits to run. |
| CurrentLayout.ExchangeUnnoticed | controller/internal/controller/optimizationpolicy_controller.go:243-310 | From any collected layout with two such replicas there are bindings whose collected layout looks the same and has other flags. |
| CurrentLayout.UnmixedFlagsAgree | controller/internal/controller/optimizationpolicy_controller.go:302-310 | Also when deployments and templates change, layouts that look the same agree in their flags if one of them does not hold both a stable replica and an unstable one whose place is known. |
| CurrentLayout.PlacedExactly | controller/internal/controller/optimizationpolicy_controller.go:255-274 | A replica is taken to be where it is observed when anything is observed, else where it is wanted. |
| CurrentLayout.StableExactly | controller/internal/controller/optimizationpolicy_controller.go:275-300 | A replica is stable exactly when its template has no required affinity and no host-path or claim volume, its whole place is known and it is Running; otherwise the first of these that fails is its reason. |
| CurrentLayout.LastExactly | controller/internal/controller/optimizationpolicy_controller.go:225-237 | Of several bindings listed for a replica the last one decides. |
| CurrentLayout.ComparedExactly | controller/internal/controller/optimizationpolicy_controller.go:380-412 | Layouts are compared by key, index, cluster, node and source, and by no more. |
| CurrentLayout.CountedExactly | controller/internal/controller/optimizationpolicy_controller.go:289-302 | The counts are the numbers of items without a reason, with one, and with each. |

## Left out

- Interleavings inside one reconcile pass and stale client caches: each pass is atomic with respect to the other controllers; a pass that stops half way is modelled by its calls failing.
- Two plan controllers or two plans racing on one binding within a pass: plans act one intent at a time.
- Convergence after a plan times out: the timed-out marks are made on a local copy and discarded, so no claim is made beyond what `MonitorAndConverge` states.
- The server's direct delete handler, which removes bindings in any phase, and the rest of `server/` and `web/`.
- OR-Tools and its C++ shim, solver timeouts and statuses: the solver is an oracle.
- `handleRescheduleMVP` and `handleRescheduleRolling`, which `Reconcile` does not call.
- Status aggregation, pod node names, events, conditions, metrics, timers and logging of the controllers.
- Capacity debiting between picks of one scheduling pass: the code does not do it.
- Floating point, NaN and infinities: scores, prices, latencies and watts are reals; integers are unbounded.
- Overridden label keys and nil receivers of the goal plugins: the built objective uses the defaults.
- Several enabled Communication goals in one list share the iteration orders of their build.
- GoalScores.ScorePlacement: one method stands for the minimum, maximum and normalisation loops of the four linear plugins, and says that an error occurs but not which of several comes first.
- ReadableMetrics.ComputeLatencyAvgMs: the three node tables of the readable metrics are built by one shared loop.
- The readable average of the Communication goal: it would add another average over the same centroids.
- Sorting is insertion sort; ties that the code's sort leaves in unspecified order come in one particular order.
- Decoding of templates, profiles and topologies from YAML or JSON.
- MigrationSafety.NoDeploymentOutlivesFinalizer: excludes runs in which an intent tears across clusters, because there it fails (`TornIntentExample`); `DeletionIsCompleteIff` says exactly what a deletion leaves in those.
- MigrationSafety.SucceededMoveIsAtDestination: excludes the same runs; `SucceededMoveIsAttributed` holds in them and `FalseSuccessIff` says when they begin.
- MigrationSafety.DeployedInAtMostOneCluster: excludes haunting assignments, because there it fails (`RecreationExample`).
- PlanSystem.SucceededPlanHasMovedAll: excludes runs in which an intent tears across clusters, because there it fails (`TornPlanExample`), and passes that meet a binding that is neither stable nor carries their intent already; `IntentSafeIff` says when such an intent is safe.
- Zero pods to move, which the controller reports for an empty goal list whatever the moves are.
- Failing reads of lists (deployments, bindings, nodes): such a pass ends without any effect.
- Plugin tests expect a default migration penalty of 1; the code uses 100, and so does the model.
- PlacementPipeline.TwoBuildsAgree: its condition is exact for raw values (`RawsAreFixedIff`) and sufficient for scores: different raw values can become equal scores, as with a single candidate node.
- ScoreBounds.PercentagesAgreeIff: speaks of one pair of scores; the gate solves and scores again on its own (controller/internal/controller/optimizationpolicy_solver_wiring.go:289-341), and under a Communication goal with service keys that keep their namespace (lines 264-270), which the plan drops (controller/internal/controller/optimizationpolicy_controller.go:886-891).
