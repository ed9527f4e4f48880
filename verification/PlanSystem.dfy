/**
 The plan controller and the migration protocol as one system: the intents that happen to the bindings are
 those the plan's passes issue, and the passes read the bindings that the protocol has brought about.
 */
module PlanSystem {
  import opened MigrationProtocol
  import opened MigrationRuns
  import opened MigrationSafety
  import opened PlanExecution
  import opened PlanSafety
  import opened PlanMigration
  import opened Prelude

  /** The plan's status, and what has happened to every GlobalDeployment so far. */
  datatype System = System(plan: PlanState, lives: History)

  /** How the remote calls of one pass fare. */
  datatype Fates = Fates(
    phasePatch: Fate,
    initPatch: Fate,
    watchInit: Fate,
    readable: set<MoveKey>,              // bindings whose read succeeds before an intent
    spec: map<MoveKey, Fate>,            // the two patches of each intent
    status: map<MoveKey, Fate>,
    executePatch: set<MoveKey>,
    executeSummary: bool,
    timedOut: bool,
    visible: set<MoveKey>,               // bindings whose read succeeds while monitoring
    monitorPatch: set<MoveKey>,
    convergeSummary: bool,
    convergePatch: bool)

  datatype Step =
    | Elsewhere(o: Owner, e: Event)      // anything but an intent of this plan
    | PlanPass(f: Fates)

  function FateOf(fates: map<MoveKey, Fate>, k: MoveKey): Fate { if k in fates then fates[k] else Refused }

  function WorldOf(life: Life): World { Run(life.plans, life.es) }

  /** The binding of a move, if there is one. */
  function BindingOf(h: History, k: MoveKey): Option<Replica> {
    if k.index < 0 || OwnerOf(k) !in h then None
    else
      var w, i := WorldOf(h[OwnerOf(k)]), k.index as nat;
      if i in w.replicas && w.replicas[i].present then Some(w.replicas[i]) else None
  }

  /** One more event in the life of a GlobalDeployment. */
  function Extended(h: History, o: Owner, e: Event): History {
    if o in h then h[o := h[o].(es := h[o].es + [e])] else h
  }

  /** The intents of the moves, in order, on the bindings that can be read. */
  function Issued(h: History, token: string, moves: seq<Move>, f: Fates): History {
    if moves == [] then h
    else
      var before, k := Issued(h, token, moves[..|moves| - 1], f), moves[|moves| - 1].key;
      if k in f.readable && BindingOf(before, k).Some?
      then Extended(before, OwnerOf(k), Intent(k.index as nat, token, FateOf(f.spec, k), FateOf(f.status, k)))
      else before
  }

  predicate InPlace(b: Replica, token: string, m: Move) {
    b.target == m.destination && b.reschedule && b.token == token
  }

  function Found(h: History, moves: seq<Move>, f: Fates): set<MoveKey> {
    set m | m in moves && m.key in f.readable && BindingOf(h, m.key).Some? :: m.key
  }

  /** The intents that are in place already or whose two patches are acknowledged. */
  function Fulfilled(h: History, token: string, moves: seq<Move>, f: Fates): set<MoveKey> {
    set m | m in moves && BindingOf(h, m.key).Some? &&
            (InPlace(BindingOf(h, m.key).value, token, m) || (FateOf(f.spec, m.key) == Acked && FateOf(f.status, m.key) == Acked))
      :: m.key
  }

  /** The bindings that the pass reads while monitoring. */
  function Observed(h: History, moves: seq<Move>, f: Fates): (seen: map<MoveKey, Replica>)
    ensures forall k :: k in seen ==> BindingOf(h, k) == Some(seen[k])
  {
    map k | k in MoveKeys(moves) && k in f.visible && BindingOf(h, k).Some? :: BindingOf(h, k).value
  }

  /** What the pass meets when the intents leave the lives h1. */
  function CallsOf(plan: Plan, h: History, h1: History, f: Fates): PlanCalls {
    PlanCalls(f.phasePatch, f.initPatch, f.watchInit, Found(h, plan.moves, f), Fulfilled(h, plan.token, plan.moves, f),
              f.executePatch, f.executeSummary, f.timedOut, Observed(h1, plan.moves, f), f.monitorPatch,
              f.convergeSummary, f.convergePatch)
  }

  /** The lives after a pass: it issues intents only when it gets as far as the moves. */
  function LivesAfter(plan: Plan, s: System, f: Fates): History {
    if Works(plan, s.plan, CallsOf(plan, s.lives, s.lives, f)) then Issued(s.lives, plan.token, plan.moves, f) else s.lives
  }

  function PassCalls(plan: Plan, s: System, f: Fates): PlanCalls {
    CallsOf(plan, s.lives, LivesAfter(plan, s, f), f)
  }

  function Taken(plan: Plan, s: System, step: Step): System {
    match step
    case Elsewhere(o, e) => s.(lives := Extended(s.lives, o, e))
    case PlanPass(f) => System(Passed(plan, s.plan, PassCalls(plan, s, f)), LivesAfter(plan, s, f))
  }

  function Sys(plan: Plan, s0: System, steps: seq<Step>): System {
    if steps == [] then s0 else Taken(plan, Sys(plan, s0, steps[..|steps| - 1]), steps[|steps| - 1])
  }

  /** The step is one of this system: intents of the plan come from its passes, and a pass meets bindings that
      carry its intent already or are stable, as those it was made for. */
  predicate Orderly(plan: Plan, s: System, step: Step) {
    match step
    case Elsewhere(_, e) => e.Intent? ==> e.token != plan.token
    case PlanPass(f) =>
      forall i :: 0 <= i < |plan.moves| && plan.moves[i].key in f.readable ==>
        var b := BindingOf(s.lives, plan.moves[i].key);
        b.Some? ==> InPlace(b.value, plan.token, plan.moves[i]) || StableForPlan(b.value)
  }

  predicate AllOrderly(plan: Plan, s0: System, steps: seq<Step>) {
    steps == [] ||
    (AllOrderly(plan, s0, steps[..|steps| - 1]) && Orderly(plan, Sys(plan, s0, steps[..|steps| - 1]), steps[|steps| - 1]))
  }

  // ------------------------------------------------------------------ lives only grow

  /** h1 continues h. */
  ghost predicate Continues(h: History, h1: History) {
    h1.Keys == h.Keys && forall o :: o in h ==> h1[o].plans == h[o].plans && h[o].es <= h1[o].es
  }

  lemma ContinuesOn(h: History, h1: History, h2: History)
    requires Continues(h, h1) && Continues(h1, h2)
    ensures Continues(h, h2)
  {
    forall o | o in h ensures h2[o].plans == h[o].plans && h[o].es <= h2[o].es {
      assert h1[o].es <= h2[o].es;
    }
  }

  lemma {:induction false} IssuedContinues(h: History, token: string, moves: seq<Move>, f: Fates)
    ensures Continues(h, Issued(h, token, moves, f))
  {
    if moves != [] {
      var before := Issued(h, token, moves[..|moves| - 1], f);
      IssuedContinues(h, token, moves[..|moves| - 1], f);
      ContinuesOn(h, before, Issued(h, token, moves, f));
    }
  }

  lemma TakenContinues(plan: Plan, s: System, step: Step)
    ensures Continues(s.lives, Taken(plan, s, step).lives)
  {
    if step.PlanPass? {
      IssuedContinues(s.lives, plan.token, plan.moves, step.f);
    }
  }

  lemma {:induction false} SysContinues(plan: Plan, s0: System, steps: seq<Step>, m: nat)
    requires m <= |steps|
    ensures Continues(Sys(plan, s0, steps[..m]).lives, Sys(plan, s0, steps).lives)
    decreases |steps|
  {
    if m == |steps| {
      assert steps[..m] == steps;
    } else {
      var n := |steps| - 1;
      assert steps[..n][..m] == steps[..m];
      SysContinues(plan, s0, steps[..n], m);
      TakenContinues(plan, Sys(plan, s0, steps[..n]), steps[n]);
      ContinuesOn(Sys(plan, s0, steps[..m]).lives, Sys(plan, s0, steps[..n]).lives, Sys(plan, s0, steps).lives);
    }
  }

  lemma EarlierIsWhole(h: History, h1: History)
    requires Continues(h, h1) && AllWhole(h1)
    ensures AllWhole(h)
  {
    forall o | o in h ensures Whole(h[o].plans, h[o].es) {
      PrefixIsWhole(h1[o].plans, h1[o].es, |h[o].es|);
      assert h1[o].es[..|h[o].es|] == h[o].es;
    }
  }

  // ------------------------------------------------------------------ what success means in the system

  lemma {:induction false} SysPlanOk(plan: Plan, s0: System, steps: seq<Step>)
    requires DistinctMoves(plan.moves) && Fresh(s0.plan)
    ensures PlanOk(plan, Sys(plan, s0, steps).plan)
  {
    if steps != [] {
      var n := |steps| - 1;
      SysPlanOk(plan, s0, steps[..n]);
      if steps[n].PlanPass? {
        PassKeepsOk(plan, Sys(plan, s0, steps[..n]).plan, PassCalls(plan, Sys(plan, s0, steps[..n]), steps[n].f));
      }
    }
  }

  /** The binding of the move shows the plan's success. */
  predicate ShowsDone(plan: Plan, s: System, m: Move) {
    BindingOf(s.lives, m.key).Some? && MoveProgressOf(plan.token, BindingOf(s.lives, m.key).value) == Succeeded
  }

  /** Behind every Succeeded status is a moment at which the binding showed it. */
  lemma {:induction false} SysSuccessHasMoment(plan: Plan, s0: System, steps: seq<Step>, i: nat) returns (m: nat)
    requires DistinctMoves(plan.moves) && Fresh(s0.plan) && i < |plan.moves|
    requires Shows(Sys(plan, s0, steps).plan, i, MoveSucceeded)
    ensures m <= |steps| && ShowsDone(plan, Sys(plan, s0, steps[..m]), plan.moves[i])
    decreases |steps|
  {
    var n := |steps| - 1;
    var s, step := Sys(plan, s0, steps[..n]), steps[n];
    if step.PlanPass? && WritesSuccess(plan, PassCalls(plan, s, step.f), plan.moves[i].key) {
      m := |steps|;
      assert steps[..m] == steps;
    } else {
      if step.PlanPass? {
        SysPlanOk(plan, s0, steps[..n]);
        PassSuccess(plan, s.plan, PassCalls(plan, s, step.f), i);
      }
      m := SysSuccessHasMoment(plan, s0, steps[..n], i);
      assert steps[..n][..m] == steps[..m];
    }
  }

  lemma ListedContinues(plan: Plan, h: History, h1: History)
    requires AllListed(h, plan) && Continues(h, h1)
    ensures AllListed(h1, plan)
  {
    forall i | 0 <= i < |plan.moves| ensures Listed(h1, plan.token, plan.moves[i]) {
      assert Listed(h, plan.token, plan.moves[i]);
    }
  }

  /** The binding of the move is at the destination, with the plan's token. */
  predicate Arrived(plan: Plan, s: System, m: Move) {
    BindingOf(s.lives, m.key).Some? && AtDestination(plan.token, m.destination, BindingOf(s.lives, m.key).value)
  }

  lemma DoneHasArrived(plan: Plan, s: System, i: nat)
    requires i < |plan.moves| && plan.token != "" && AllListed(s.lives, plan) && AllWhole(s.lives)
    requires ShowsDone(plan, s, plan.moves[i])
    ensures Arrived(plan, s, plan.moves[i])
  {
    var k := plan.moves[i].key;
    var life := s.lives[OwnerOf(k)];
    assert Listed(s.lives, plan.token, plan.moves[i]);
    SucceededMoveIsAtDestination(life.plans, life.es, k.index as nat, plan.token);
  }

  // ------------------------------------------------------------------ who moved it

  /** The binding of this key, present or not, carries the token. */
  predicate Carries(h: History, k: MoveKey, token: string) {
    k.index >= 0 && OwnerOf(k) in h &&
    var w, i := WorldOf(h[OwnerOf(k)]), k.index as nat;
    i in w.replicas && w.replicas[i].token == token
  }

  /** Nothing but an intent of the plan writes its token. */
  lemma TokenComesFromIntent(plans: Plans, w: World, e: Event, i: nat, token: string)
    requires token != "" && i in Apply(plans, w, e).replicas && Apply(plans, w, e).replicas[i].token == token
    requires e.Intent? && e.i == i ==> e.token != token
    ensures i in w.replicas && w.replicas[i].token == token
  {
  }

  lemma ExtendedCarries(h: History, o: Owner, e: Event, k: MoveKey, token: string)
    requires token != "" && Carries(Extended(h, o, e), k, token)
    requires e.Intent? && o == OwnerOf(k) && k.index >= 0 && e.i == k.index as nat ==> e.token != token
    ensures Carries(h, k, token)
  {
    if o in h && o == OwnerOf(k) {
      var life := h[o];
      RunOne(life.plans, Start, life.es, e);
      TokenComesFromIntent(life.plans, WorldOf(life), e, k.index as nat, token);
    }
  }

  /** The intent of move j is issued when its turn comes. */
  predicate IssuedAt(h: History, token: string, moves: seq<Move>, f: Fates, j: nat)
    requires j < |moves|
  {
    moves[j].key in f.readable && BindingOf(Issued(h, token, moves[..j], f), moves[j].key).Some?
  }

  lemma {:induction false} CarriersAreIssued(h: History, token: string, moves: seq<Move>, f: Fates, n: nat, i: nat)
    requires token != "" && DistinctMoves(moves) && n <= |moves| && i < |moves|
    requires Carries(Issued(h, token, moves[..n], f), moves[i].key, token)
    ensures Carries(h, moves[i].key, token) || IssuedAt(h, token, moves, f, i)
    decreases n
  {
    if n > 0 && !(n - 1 == i && IssuedAt(h, token, moves, f, i)) {
      var before, k := Issued(h, token, moves[..n - 1], f), moves[n - 1].key;
      assert moves[..n][..n - 1] == moves[..n - 1] && moves[..n][n - 1] == moves[n - 1];
      if IssuedAt(h, token, moves, f, n - 1) {
        assert MoveKeys(moves)[i] == moves[i].key && MoveKeys(moves)[n - 1] == k;
        assert moves[i].key != k;
        ExtendedCarries(before, OwnerOf(k), Intent(k.index as nat, token, FateOf(f.spec, k), FateOf(f.status, k)), moves[i].key, token);
      }
      CarriersAreIssued(h, token, moves, f, n - 1, i);
    }
  }

  /** The pass issues the intent of move i. */
  predicate Issues(plan: Plan, s: System, step: Step, i: nat)
    requires i < |plan.moves|
  {
    && step.PlanPass? && Works(plan, s.plan, CallsOf(plan, s.lives, s.lives, step.f))
    && IssuedAt(s.lives, plan.token, plan.moves, step.f, i)
  }

  /** A binding carries the plan's token only after a pass of the plan has issued its intent. */
  lemma {:induction false} CarriersWereIssued(plan: Plan, s0: System, steps: seq<Step>, i: nat) returns (p: nat)
    requires DistinctMoves(plan.moves) && plan.token != "" && i < |plan.moves| && AllOrderly(plan, s0, steps)
    requires !Carries(s0.lives, plan.moves[i].key, plan.token)
    requires Carries(Sys(plan, s0, steps).lives, plan.moves[i].key, plan.token)
    ensures p < |steps| && Issues(plan, Sys(plan, s0, steps[..p]), steps[p], i)
    decreases |steps|
  {
    var n := |steps| - 1;
    var s, step := Sys(plan, s0, steps[..n]), steps[n];
    if Issues(plan, s, step, i) {
      return n;
    }
    match step {
      case Elsewhere(o, e) => ExtendedCarries(s.lives, o, e, plan.moves[i].key, plan.token);
      case PlanPass(f) =>
        assert plan.moves[..|plan.moves|] == plan.moves;
        if LivesAfter(plan, s, f) != s.lives {
          CarriersAreIssued(s.lives, plan.token, plan.moves, f, |plan.moves|, i);
        }
    }
    p := CarriersWereIssued(plan, s0, steps[..n], i);
    assert steps[..n][..p] == steps[..p];
  }

  /** A new plan: its token is on none of the bindings it moves, and the move tables list its moves. */
  predicate Begins(plan: Plan, s0: System) {
    && Fresh(s0.plan) && AllListed(s0.lives, plan)
    && forall i :: 0 <= i < |plan.moves| ==> !Carries(s0.lives, plan.moves[i].key, plan.token)
  }

  /** A pass of the plan has issued the intent of move i, and later its binding has arrived. */
  ghost predicate Moved(plan: Plan, s0: System, steps: seq<Step>, i: nat)
    requires i < |plan.moves|
  {
    exists p, m :: 0 <= p < m <= |steps| && MovedBetween(plan, s0, steps, i, p, m)
  }

  predicate MovedBetween(plan: Plan, s0: System, steps: seq<Step>, i: nat, p: nat, m: nat)
    requires i < |plan.moves| && p < m <= |steps|
  {
    && Issues(plan, Sys(plan, s0, steps[..p]), steps[p], i)
    && Arrived(plan, Sys(plan, s0, steps[..m]), plan.moves[i])
  }

  lemma {:induction false} PrefixIsOrderly(plan: Plan, s0: System, steps: seq<Step>, m: nat)
    requires AllOrderly(plan, s0, steps) && m <= |steps|
    ensures AllOrderly(plan, s0, steps[..m])
    decreases |steps|
  {
    if m == |steps| {
      assert steps[..m] == steps;
    } else {
      assert steps[..|steps| - 1][..m] == steps[..m];
      PrefixIsOrderly(plan, s0, steps[..|steps| - 1], m);
    }
  }

  lemma SucceededMoveArrives(plan: Plan, s0: System, steps: seq<Step>, i: nat) returns (m: nat)
    requires DistinctMoves(plan.moves) && plan.token != "" && Begins(plan, s0) && AllWhole(Sys(plan, s0, steps).lives)
    requires i < |plan.moves| && Shows(Sys(plan, s0, steps).plan, i, MoveSucceeded)
    ensures m <= |steps| && Arrived(plan, Sys(plan, s0, steps[..m]), plan.moves[i])
  {
    m := SysSuccessHasMoment(plan, s0, steps, i);
    SysContinues(plan, s0, steps, m);
    EarlierIsWhole(Sys(plan, s0, steps[..m]).lives, Sys(plan, s0, steps).lives);
    SysContinues(plan, s0, steps[..m], 0);
    assert steps[..m][..0] == [];
    ListedContinues(plan, s0.lives, Sys(plan, s0, steps[..m]).lives);
    DoneHasArrived(plan, Sys(plan, s0, steps[..m]), i);
  }

  /** In every run of the system, a move that the plan shows as Succeeded was issued by a pass of the plan and has
      arrived since, when no intent of the run tears across clusters. */
  lemma SucceededMoveWasMoved(plan: Plan, s0: System, steps: seq<Step>, i: nat)
    requires DistinctMoves(plan.moves) && plan.token != "" && Begins(plan, s0)
    requires AllOrderly(plan, s0, steps) && AllWhole(Sys(plan, s0, steps).lives)
    requires i < |plan.moves| && Shows(Sys(plan, s0, steps).plan, i, MoveSucceeded)
    ensures Moved(plan, s0, steps, i)
  {
    var m := SucceededMoveArrives(plan, s0, steps, i);
    PrefixIsOrderly(plan, s0, steps, m);
    var p := CarriersWereIssued(plan, s0, steps[..m], i);
    assert steps[..m][..p] == steps[..p] && steps[..m][p] == steps[p];
    assert MovedBetween(plan, s0, steps, i, p, m);
  }

  /** A plan that ends as Succeeded has moved everything: every one of its moves was issued by one of its passes
      and has arrived at its destination since. */
  lemma SucceededPlanHasMovedAll(plan: Plan, s0: System, steps: seq<Step>)
    requires DistinctMoves(plan.moves) && plan.token != "" && Begins(plan, s0)
    requires AllOrderly(plan, s0, steps) && AllWhole(Sys(plan, s0, steps).lives)
    requires Sys(plan, s0, steps).plan.phase == PlanSucceeded
    ensures forall i :: 0 <= i < |plan.moves| ==> Moved(plan, s0, steps, i)
  {
    SysPlanOk(plan, s0, steps);
    SucceededPlanShows(plan, Sys(plan, s0, steps).plan);
    forall i | 0 <= i < |plan.moves| ensures Moved(plan, s0, steps, i) {
      SucceededMoveWasMoved(plan, s0, steps, i);
    }
  }

  lemma SucceededPlanShows(plan: Plan, s: PlanState)
    requires PlanOk(plan, s) && s.phase == PlanSucceeded
    ensures forall i :: 0 <= i < |plan.moves| ==> Shows(s, i, MoveSucceeded)
  {
    CountZero(s.statuses, {MovePending, MoveInProgress});
    CountZero(s.statuses, {MoveFailure});
    forall i | 0 <= i < |plan.moves| ensures Shows(s, i, MoveSucceeded) {
      assert s.statuses[i].state !in {MovePending, MoveInProgress} && s.statuses[i].state !in {MoveFailure};
    }
  }
}
