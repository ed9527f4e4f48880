/**
 Progress of the whole system: a plan whose moves can all be made is completed by two of its passes with the
 passes of the moved bindings in between, when no call fails.
 */
module SystemProgress {
  import opened MigrationProtocol
  import opened MigrationRuns
  import opened MigrationSafety
  import opened MigrationProgress
  import opened PlanExecution
  import opened PlanSafety
  import opened PlanMigration
  import opened PlanProgress
  import opened PlanSystem
  import opened Prelude

  // ------------------------------------------------------------------ one event and one binding

  /** The event's binding changes as the world does, every other binding stays. */
  lemma ExtendedBinding(h: History, k: MoveKey, e: Event, other: MoveKey)
    requires k.index >= 0 && OwnerOf(k) in h && (e.Pass? || e.Intent?) && e.i == k.index as nat
    ensures WorldOf(Extended(h, OwnerOf(k), e)[OwnerOf(k)]) == Apply(h[OwnerOf(k)].plans, WorldOf(h[OwnerOf(k)]), e)
    ensures other != k ==> BindingOf(Extended(h, OwnerOf(k), e), other) == BindingOf(h, other)
  {
    var life := h[OwnerOf(k)];
    RunOne(life.plans, Start, life.es, e);
  }

  lemma PassedBinding(h: History, k: MoveKey, c: Calls)
    requires BindingOf(h, k).Some? && Reconciled(BindingOf(h, k).value, c).present
    ensures var h1 := Extended(h, OwnerOf(k), Pass(k.index as nat, c));
            BindingOf(h1, k) == Some(Reconciled(BindingOf(h, k).value, c)) && forall j :: j != k ==> BindingOf(h1, j) == BindingOf(h, j)
  {
    forall j | j != k ensures BindingOf(Extended(h, OwnerOf(k), Pass(k.index as nat, c)), j) == BindingOf(h, j) {
      ExtendedBinding(h, k, Pass(k.index as nat, c), j);
    }
    ExtendedBinding(h, k, Pass(k.index as nat, c), k);
  }

  lemma IntendedBinding(h: History, token: string, m: Move)
    requires BindingOf(h, m.key).Some? && StableForPlan(BindingOf(h, m.key).value) && Listed(h, token, m)
    ensures var h1 := Extended(h, OwnerOf(m.key), Intent(m.key.index as nat, token, Acked, Acked));
            && BindingOf(h1, m.key) == Some(IntentApplied(BindingOf(h, m.key).value, m.destination, token, Acked, Acked))
            && forall j :: j != m.key ==> BindingOf(h1, j) == BindingOf(h, j)
  {
    var k := m.key;
    forall j | j != k ensures BindingOf(Extended(h, OwnerOf(k), Intent(k.index as nat, token, Acked, Acked)), j) == BindingOf(h, j) {
      ExtendedBinding(h, k, Intent(k.index as nat, token, Acked, Acked), j);
    }
    ExtendedBinding(h, k, Intent(k.index as nat, token, Acked, Acked), k);
  }

  // ------------------------------------------------------------------ all intents of a pass

  /** The bindings of the first n moves are those in after, the others those in before. */
  predicate Bound(h: History, moves: seq<Move>, n: nat, before: seq<Replica>, after: seq<Replica>) {
    && n <= |moves| == |before| == |after|
    && forall i :: 0 <= i < |moves| ==> BindingOf(h, moves[i].key) == Some(if i < n then after[i] else before[i])
  }

  lemma BoundStep(h: History, h1: History, moves: seq<Move>, n: nat, before: seq<Replica>, after: seq<Replica>)
    requires DistinctMoves(moves) && n < |moves| && Bound(h, moves, n, before, after)
    requires BindingOf(h1, moves[n].key) == Some(after[n]) && forall k :: k != moves[n].key ==> BindingOf(h1, k) == BindingOf(h, k)
    ensures Bound(h1, moves, n + 1, before, after)
  {
    forall i | 0 <= i < |moves| && i != n ensures moves[i].key != moves[n].key {
      assert MoveKeys(moves)[i] != MoveKeys(moves)[n];
    }
  }

  /** Reads before the intents succeed, and both patches of every intent are acknowledged. */
  predicate IntentsGoThrough(moves: seq<Move>, f: Fates) {
    forall i :: 0 <= i < |moves| ==>
      moves[i].key in f.readable && FateOf(f.spec, moves[i].key) == Acked && FateOf(f.status, moves[i].key) == Acked
  }

  function Intents(moves: seq<Move>, token: string, bs: seq<Replica>): (after: seq<Replica>)
    requires |moves| == |bs|
    ensures |after| == |bs|
    ensures forall i :: 0 <= i < |bs| ==> after[i] == IntentApplied(bs[i], moves[i].destination, token, Acked, Acked)
  {
    seq(|bs|, i requires 0 <= i < |bs| => IntentApplied(bs[i], moves[i].destination, token, Acked, Acked))
  }

  /** The intent of the next move. */
  lemma IssueOne(h: History, token: string, moves: seq<Move>, n: nat, bs: seq<Replica>)
    requires DistinctMoves(moves) && n < |moves| == |bs| && Bound(h, moves, n, bs, Intents(moves, token, bs))
    requires StableForPlan(bs[n]) && Listed(h, token, moves[n])
    ensures BindingOf(h, moves[n].key).Some?
    ensures Bound(Extended(h, OwnerOf(moves[n].key), Intent(moves[n].key.index as nat, token, Acked, Acked)),
                  moves, n + 1, bs, Intents(moves, token, bs))
  {
    assert BindingOf(h, moves[n].key) == Some(bs[n]);
    IntendedBinding(h, token, moves[n]);
    BoundStep(h, Extended(h, OwnerOf(moves[n].key), Intent(moves[n].key.index as nat, token, Acked, Acked)),
              moves, n, bs, Intents(moves, token, bs));
  }

  lemma IssuedPush(h: History, token: string, moves: seq<Move>, n: nat, f: Fates)
    requires n < |moves| && IntentsGoThrough(moves, f) && BindingOf(Issued(h, token, moves[..n], f), moves[n].key).Some?
    ensures Issued(h, token, moves[..n + 1], f) ==
            Extended(Issued(h, token, moves[..n], f), OwnerOf(moves[n].key), Intent(moves[n].key.index as nat, token, Acked, Acked))
  {
    assert moves[..n + 1][..n] == moves[..n] && moves[..n + 1][n] == moves[n];
  }

  /** The bindings of the moves, stable, and the moves listed. */
  predicate Issuable(h: History, token: string, moves: seq<Move>, bs: seq<Replica>) {
    && |moves| == |bs|
    && forall i :: 0 <= i < |moves| ==> BindingOf(h, moves[i].key) == Some(bs[i]) && StableForPlan(bs[i]) && Listed(h, token, moves[i])
  }

  lemma StillListed(h: History, h1: History, token: string, m: Move)
    requires Continues(h, h1) && Listed(h, token, m)
    ensures Listed(h1, token, m)
  {
  }

  lemma NoneIssued(h: History, token: string, moves: seq<Move>, f: Fates, bs: seq<Replica>)
    requires Issuable(h, token, moves, bs)
    ensures Bound(Issued(h, token, moves[..0], f), moves, 0, bs, Intents(moves, token, bs))
  {
  }

  lemma IssuedStep(h: History, before: History, token: string, moves: seq<Move>, n: nat, f: Fates, bs: seq<Replica>)
    requires DistinctMoves(moves) && n < |moves| && IntentsGoThrough(moves, f) && Issuable(h, token, moves, bs)
    requires before == Issued(h, token, moves[..n], f) && Continues(h, before) && Bound(before, moves, n, bs, Intents(moves, token, bs))
    ensures Bound(Issued(h, token, moves[..n + 1], f), moves, n + 1, bs, Intents(moves, token, bs))
  {
    StillListed(h, before, token, moves[n]);
    IssueOne(before, token, moves, n, bs);
    IssuedPush(h, token, moves, n, f);
  }

  /** Intents that go through do to the bindings what intents do. */
  lemma {:induction false} IssuedBindings(h: History, token: string, moves: seq<Move>, n: nat, f: Fates, bs: seq<Replica>)
    requires DistinctMoves(moves) && n <= |moves| && IntentsGoThrough(moves, f) && Issuable(h, token, moves, bs)
    ensures Bound(Issued(h, token, moves[..n], f), moves, n, bs, Intents(moves, token, bs))
  {
    if n == 0 {
      NoneIssued(h, token, moves, f, bs);
    } else {
      IssuedBindings(h, token, moves, n - 1, f, bs);
      IssuedContinues(h, token, moves[..n - 1], f);
      IssuedStep(h, Issued(h, token, moves[..n - 1], f), token, moves, n - 1, f, bs);
    }
  }

  // ------------------------------------------------------------------ the passes in between

  /** Three passes of each binding, one binding after the other. */
  function Rounds(moves: seq<Move>, c: Calls): seq<Step> {
    if moves == [] then []
    else
      var k := moves[|moves| - 1].key;
      var p := Elsewhere(OwnerOf(k), Pass(if k.index < 0 then 0 else k.index as nat, c));
      Rounds(moves[..|moves| - 1], c) + [p, p, p]
  }

  function Passed3(bs: seq<Replica>, c: Calls): (after: seq<Replica>)
    ensures |after| == |bs| && forall i :: 0 <= i < |bs| ==> after[i] == Passes(bs[i], c, 3)
  {
    seq(|bs|, i requires 0 <= i < |bs| => Passes(bs[i], c, 3))
  }

  /** Runs of the system can be put together. */
  lemma {:induction false} SysAppend(plan: Plan, s0: System, steps: seq<Step>, more: seq<Step>)
    ensures Sys(plan, s0, steps + more) == Sys(plan, Sys(plan, s0, steps), more)
  {
    if more == [] {
      assert steps + more == steps;
    } else {
      assert (steps + more)[..|steps + more| - 1] == steps + more[..|more| - 1];
      SysAppend(plan, s0, steps, more[..|more| - 1]);
    }
  }

  lemma OneStep(plan: Plan, s: System, step: Step)
    ensures Sys(plan, s, [step]) == Taken(plan, s, step)
  {
    assert [step][..0] == [];
    assert Sys(plan, s, []) == s;
  }

  lemma ThreeSteps(plan: Plan, s: System, p: Step)
    ensures Sys(plan, s, [p, p, p]) == Taken(plan, Taken(plan, Taken(plan, s, p), p), p)
  {
    OneStep(plan, s, p);
    SysAppend(plan, s, [p], [p]);
    OneStep(plan, Sys(plan, s, [p]), p);
    SysAppend(plan, s, [p] + [p], [p]);
    OneStep(plan, Sys(plan, s, [p] + [p]), p);
    assert [p] + [p] + [p] == [p, p, p];
  }

  lemma {:induction false} StaysPresent(b: Replica, c: Calls, k: nat)
    requires b.present && !b.deleting
    ensures Passes(b, c, k).present && !Passes(b, c, k).deleting
  {
    if k > 0 {
      StaysPresent(b, c, k - 1);
    }
  }

  /** Three passes of one binding. */
  lemma ThreePasses(plan: Plan, s: System, k: MoveKey, c: Calls)
    requires BindingOf(s.lives, k).Some? && !BindingOf(s.lives, k).value.deleting
    ensures var p := Elsewhere(OwnerOf(k), Pass(k.index as nat, c));
            var s1 := Sys(plan, s, [p, p, p]);
            && s1.plan == s.plan && BindingOf(s1.lives, k) == Some(Passes(BindingOf(s.lives, k).value, c, 3))
            && forall j :: j != k ==> BindingOf(s1.lives, j) == BindingOf(s.lives, j)
  {
    var b, p := BindingOf(s.lives, k).value, Elsewhere(OwnerOf(k), Pass(k.index as nat, c));
    ThreeSteps(plan, s, p);
    StaysPresent(b, c, 1);
    StaysPresent(b, c, 2);
    StaysPresent(b, c, 3);
    PassedBinding(s.lives, k, c);
    PassedBinding(Taken(plan, s, p).lives, k, c);
    PassedBinding(Taken(plan, Taken(plan, s, p), p).lives, k, c);
  }

  lemma {:induction false} RoundsPass(plan: Plan, s: System, moves: seq<Move>, n: nat, c: Calls, bs: seq<Replica>)
    requires DistinctMoves(moves) && n <= |moves| == |bs|
    requires forall i :: 0 <= i < |moves| ==> BindingOf(s.lives, moves[i].key) == Some(bs[i]) && bs[i].present && !bs[i].deleting
    ensures var s1 := Sys(plan, s, Rounds(moves[..n], c));
            s1.plan == s.plan && Bound(s1.lives, moves, n, bs, Passed3(bs, c)) && Continues(s.lives, s1.lives)
  {
    var s1 := Sys(plan, s, Rounds(moves[..n], c));
    SysContinues(plan, s, Rounds(moves[..n], c), 0);
    assert Rounds(moves[..n], c)[..0] == [];
    if n > 0 {
      RoundsPass(plan, s, moves, n - 1, c, bs);
      assert moves[..n][..n - 1] == moves[..n - 1] && moves[..n][n - 1] == moves[n - 1];
      var before, k := Sys(plan, s, Rounds(moves[..n - 1], c)), moves[n - 1].key;
      assert BindingOf(before.lives, k) == Some(bs[n - 1]);
      var p := Elsewhere(OwnerOf(k), Pass(k.index as nat, c));
      SysAppend(plan, s, Rounds(moves[..n - 1], c), [p, p, p]);
      ThreePasses(plan, before, k, c);
      BoundStep(before.lives, s1.lives, moves, n - 1, bs, Passed3(bs, c));
    }
  }

  // ------------------------------------------------------------------ the passes of the plan

  /** No call of the pass fails. */
  predicate Faultless(plan: Plan, f: Fates) {
    && f.phasePatch == Acked && f.initPatch == Acked && !f.timedOut && f.convergePatch
    && IntentsGoThrough(plan.moves, f)
    && forall i :: 0 <= i < |plan.moves| ==> plan.moves[i].key in f.visible && plan.moves[i].key in f.monitorPatch
  }

  /** A faultless pass gets as far as the moves and issues all intents. */
  lemma GoesThrough(plan: Plan, s: System, f: Fates)
    requires Underway(plan, s.plan) && Faultless(plan, f)
    ensures LivesAfter(plan, s, f) == Issued(s.lives, plan.token, plan.moves, f)
  {
    assert Works(plan, s.plan, CallsOf(plan, s.lives, s.lives, f));
  }

  /** What a pass sees of bindings that its intents have left as they are in after. */
  lemma SeesAfter(plan: Plan, h: History, h1: History, f: Fates, bs: seq<Replica>, after: seq<Replica>)
    requires Faultless(plan, f) && Bound(h1, plan.moves, |plan.moves|, bs, after)
    ensures Seeing(plan, CallsOf(plan, h, h1, f))
    ensures forall i :: 0 <= i < |plan.moves| ==> Read(plan, CallsOf(plan, h, h1, f), i) == after[i]
  {
    var seen := Observed(h1, plan.moves, f);
    forall i | 0 <= i < |plan.moves| ensures plan.moves[i].key in seen && seen[plan.moves[i].key] == after[i] {
      assert plan.moves[i].key in f.visible;
      assert MoveKeys(plan.moves)[i] == plan.moves[i].key;
    }
  }

  /** A faultless pass reads the bindings as its intents have left them. */
  lemma SeesBindings(plan: Plan, s: System, f: Fates, bs: seq<Replica>, after: seq<Replica>)
    requires Underway(plan, s.plan) && Faultless(plan, f)
    requires Bound(Issued(s.lives, plan.token, plan.moves, f), plan.moves, |plan.moves|, bs, after)
    ensures var s1, c := Taken(plan, s, PlanPass(f)), PassCalls(plan, s, f);
            && s1.lives == Issued(s.lives, plan.token, plan.moves, f) && s1.plan == Passed(plan, s.plan, c)
            && Seeing(plan, c) && forall i :: 0 <= i < |plan.moves| ==> Read(plan, c, i) == after[i]
  {
    GoesThrough(plan, s, f);
    SeesAfter(plan, s.lives, LivesAfter(plan, s, f), f, bs, after);
  }

  /** The intent of a move is complete: its binding was read and carries it already, or both its patches are
      acknowledged. */
  predicate Completes(plan: Plan, h: History, f: Fates, m: Move) {
    && m.key in f.readable && BindingOf(h, m.key).Some?
    && var b := BindingOf(h, m.key).value;
       || (b.target == m.destination && b.reschedule && b.token == plan.token)
       || (FateOf(f.spec, m.key) == Acked && FateOf(f.status, m.key) == Acked)
  }

  lemma CompletesIsMet(plan: Plan, h: History, h1: History, f: Fates, i: nat)
    requires DistinctMoves(plan.moves) && i < |plan.moves|
    ensures var c, k := CallsOf(plan, h, h1, f), plan.moves[i].key;
            && (k in c.found && k in c.intentOk <==> Completes(plan, h, f, plan.moves[i]))
            && (k in c.observed <==> k in f.visible && BindingOf(h1, k).Some?)
  {
    var m := plan.moves[i];
    assert m in plan.moves && MoveKeys(plan.moves)[i] == m.key;
    forall n | n in plan.moves && n.key == m.key ensures n == m {
      var j :| 0 <= j < |plan.moves| && plan.moves[j] == n;
      assert MoveKeys(plan.moves)[j] == n.key;
    }
  }

  /** After an undisturbed pass of a plan that is underway, a move shows what its binding shows then, if the pass has seen
      it, and otherwise whether its intent was complete. */
  lemma SystemShows(plan: Plan, s: System, f: Fates, i: nat)
    requires DistinctMoves(plan.moves) && PlanOk(plan, s.plan) && Underway(plan, s.plan) && i < |plan.moves|
    requires f.phasePatch == Acked && f.initPatch == Acked
    ensures var s1, m := Taken(plan, s, PlanPass(f)), plan.moves[i];
            && i < |s1.plan.statuses|
            && s1.plan.statuses[i] == MoveStatus(m.key,
                 if !f.timedOut && m.key in f.visible && m.key in f.monitorPatch && BindingOf(s1.lives, m.key).Some?
                 then ShownBy(plan.token, BindingOf(s1.lives, m.key).value)
                 else if m.key !in f.executePatch then Before(s.plan, i)
                 else if !Completes(plan, s.lives, f, m) then MoveFailure
                 else if Before(s.plan, i) == MovePending then MoveInProgress
                 else Before(s.plan, i))
  {
    PassShows(plan, s.plan, PassCalls(plan, s, f), i);
    CompletesIsMet(plan, s.lives, LivesAfter(plan, s, f), f, i);
  }

  /** The bindings a plan is made for: stable ones that are elsewhere or do not carry its token yet, in clusters that
      can be reached. */
  predicate Movable(plan: Plan, h: History, reachable: set<Cluster>) {
    forall i :: 0 <= i < |plan.moves| ==>
      var m := plan.moves[i];
      && BindingOf(h, m.key).Some? && StableForPlan(BindingOf(h, m.key).value)
      && BindingOf(h, m.key).value.token != plan.token
      && m.destination.cluster != "" && m.destination.cluster in reachable && BindingOf(h, m.key).value.statusCluster in reachable
  }

  function Bindings(plan: Plan, h: History): (bs: seq<Replica>)
    requires forall i :: 0 <= i < |plan.moves| ==> BindingOf(h, plan.moves[i].key).Some?
    ensures |bs| == |plan.moves| && forall i :: 0 <= i < |bs| ==> BindingOf(h, plan.moves[i].key) == Some(bs[i])
  {
    seq(|plan.moves|, i requires 0 <= i < |plan.moves| => BindingOf(h, plan.moves[i].key).value)
  }

  /** A binding at the destination of its move, and deployed nowhere else. */
  function Landed(b: Replica, m: Move, token: string): Replica {
    b.(target := m.destination, reschedule := true, token := token, finalizer := true,
       statusCluster := m.destination.cluster, deployed := {m.destination.cluster})
  }

  lemma BindingsArePlaced(plan: Plan, h: History, i: nat)
    requires AllUnhaunted(h) && i < |plan.moves| && BindingOf(h, plan.moves[i].key).Some?
    ensures Placed(BindingOf(h, plan.moves[i].key).value)
  {
    var life := h[OwnerOf(plan.moves[i].key)];
    RunKeepsPlaced(life.plans, life.es);
  }

  /** Where the plan stands when it still has moves to watch, or never had any. */
  predicate Stands(plan: Plan, s: PlanState) {
    && PlanOk(plan, s) && s.phase == (if plan.moves == [] then PlanSucceeded else Executing)
    && (plan.moves == [] ==> s.completed)
  }

  /** A plan that reads bindings on their way stays Executing; one without moves ends. */
  lemma GoingOn(plan: Plan, s: PlanState, c: PlanCalls, after: seq<Replica>)
    requires DistinctMoves(plan.moves) && PlanOk(plan, s) && Underway(plan, s) && Seeing(plan, c) && |after| == |plan.moves|
    requires c.convergePatch && forall i :: 0 <= i < |plan.moves| ==> Read(plan, c, i) == after[i] && after[i].phase == Rescheduling
    ensures PlanOk(plan, Passed(plan, s, c))
    ensures Passed(plan, s, c).phase == (if plan.moves == [] then PlanSucceeded else Executing)
    ensures plan.moves == [] ==> Passed(plan, s, c).completed
  {
    PassEndsIff(plan, s, c);
    PassKeepsOk(plan, s, c);
    if plan.moves != [] {
      assert Read(plan, c, 0) == after[0];
      assert 0 !in FailedMoves(plan, c) && 0 !in DoneMoves(plan, c);
    }
  }

  /** The intents of a plan whose moves can be made go through. */
  lemma IntentsLand(plan: Plan, h: History, f: Fates, reachable: set<Cluster>)
    requires DistinctMoves(plan.moves) && AllListed(h, plan) && Movable(plan, h, reachable) && IntentsGoThrough(plan.moves, f)
    ensures var bs := Bindings(plan, h);
            && Bound(Issued(h, plan.token, plan.moves, f), plan.moves, |plan.moves|, bs, Intents(plan.moves, plan.token, bs))
            && Continues(h, Issued(h, plan.token, plan.moves, f))
            && forall i :: 0 <= i < |plan.moves| ==> Intents(plan.moves, plan.token, bs)[i].phase == Rescheduling
  {
    var bs := Bindings(plan, h);
    assert plan.moves[..|plan.moves|] == plan.moves;
    forall i | 0 <= i < |plan.moves| ensures StableForPlan(bs[i]) && bs[i].token != plan.token {
    }
    IssuedBindings(h, plan.token, plan.moves, |plan.moves|, f, bs);
    IssuedContinues(h, plan.token, plan.moves, f);
  }

  /** The first pass issues the intents and leaves the plan Executing; with no moves it ends it. */
  lemma FirstPass(plan: Plan, s: System, f: Fates, reachable: set<Cluster>)
    requires DistinctMoves(plan.moves) && PlanOk(plan, s.plan) && Underway(plan, s.plan)
    requires AllListed(s.lives, plan) && Movable(plan, s.lives, reachable) && Faultless(plan, f)
    ensures var s1, bs := Taken(plan, s, PlanPass(f)), Bindings(plan, s.lives);
            && Bound(s1.lives, plan.moves, |plan.moves|, bs, Intents(plan.moves, plan.token, bs))
            && Continues(s.lives, s1.lives) && Stands(plan, s1.plan)
  {
    var bs := Bindings(plan, s.lives);
    IntentsLand(plan, s.lives, f, reachable);
    SeesBindings(plan, s, f, bs, Intents(plan.moves, plan.token, bs));
    GoingOn(plan, s.plan, PassCalls(plan, s, f), Intents(plan.moves, plan.token, bs));
  }

  /** All moves have been made. */
  predicate AllLanded(plan: Plan, h: History, bs: seq<Replica>) {
    && |bs| == |plan.moves| && AllListed(h, plan)
    && forall i :: 0 <= i < |bs| ==>
         BindingOf(h, plan.moves[i].key) == Some(bs[i]) && StableForPlan(bs[i]) && InPlace(bs[i], plan.token, plan.moves[i])
  }

  /** Intents that are in place change nothing. */
  lemma LandedStay(plan: Plan, h: History, g: Fates, bs: seq<Replica>)
    requires DistinctMoves(plan.moves) && AllLanded(plan, h, bs) && IntentsGoThrough(plan.moves, g)
    ensures Bound(Issued(h, plan.token, plan.moves, g), plan.moves, |plan.moves|, bs, bs)
  {
    assert plan.moves[..|plan.moves|] == plan.moves;
    forall i | 0 <= i < |plan.moves|
      ensures BindingOf(h, plan.moves[i].key) == Some(bs[i]) && StableForPlan(bs[i]) && Listed(h, plan.token, plan.moves[i])
      ensures Intents(plan.moves, plan.token, bs)[i] == bs[i]
    {
    }
    assert Intents(plan.moves, plan.token, bs) == bs;
    IssuedBindings(h, plan.token, plan.moves, |plan.moves|, g, bs);
  }

  lemma ReadsAllDone(plan: Plan, c: PlanCalls, bs: seq<Replica>)
    requires Seeing(plan, c) && |bs| == |plan.moves|
    requires forall i :: 0 <= i < |bs| ==> Read(plan, c, i) == bs[i] && StableForPlan(bs[i]) && InPlace(bs[i], plan.token, plan.moves[i])
    ensures FailedMoves(plan, c) == {} && forall i :: 0 <= i < |plan.moves| ==> i in DoneMoves(plan, c)
  {
    forall i | 0 <= i < |plan.moves| ensures i in DoneMoves(plan, c) && i !in FailedMoves(plan, c) {
      assert Read(plan, c, i) == bs[i];
    }
  }

  /** A pass that reads everything as done completes the plan. */
  lemma DoneCompletes(plan: Plan, s: PlanState, c: PlanCalls)
    requires DistinctMoves(plan.moves) && PlanOk(plan, s) && Underway(plan, s) && Seeing(plan, c)
    requires c.convergePatch && FailedMoves(plan, c) == {} && forall i :: 0 <= i < |plan.moves| ==> i in DoneMoves(plan, c)
    ensures Passed(plan, s, c).phase == PlanSucceeded && Passed(plan, s, c).completed
  {
    PassEndsIff(plan, s, c);
  }

  lemma LastPlan(plan: Plan, s: System, g: Fates, bs: seq<Replica>)
    requires DistinctMoves(plan.moves) && PlanOk(plan, s.plan) && Underway(plan, s.plan)
    requires AllLanded(plan, s.lives, bs) && Faultless(plan, g)
    requires Bound(Issued(s.lives, plan.token, plan.moves, g), plan.moves, |plan.moves|, bs, bs)
    ensures Taken(plan, s, PlanPass(g)).plan.phase == PlanSucceeded && Taken(plan, s, PlanPass(g)).plan.completed
    ensures Taken(plan, s, PlanPass(g)).lives == Issued(s.lives, plan.token, plan.moves, g)
  {
    SeesBindings(plan, s, g, bs, bs);
    ReadsAllDone(plan, PassCalls(plan, s, g), bs);
    DoneCompletes(plan, s.plan, PassCalls(plan, s, g));
  }

  /** A later pass that finds everything moved completes the plan and changes no binding. */
  lemma LastPass(plan: Plan, s: System, g: Fates, bs: seq<Replica>)
    requires DistinctMoves(plan.moves) && PlanOk(plan, s.plan) && Underway(plan, s.plan)
    requires AllLanded(plan, s.lives, bs) && Faultless(plan, g)
    ensures var s1 := Taken(plan, s, PlanPass(g));
            && s1.plan.phase == PlanSucceeded && s1.plan.completed
            && forall i :: 0 <= i < |plan.moves| ==> BindingOf(s1.lives, plan.moves[i].key) == Some(bs[i])
  {
    LandedStay(plan, s.lives, g, bs);
    LastPlan(plan, s, g, bs);
  }

  function Destinations(plan: Plan, h: History): (bs: seq<Replica>)
    requires forall i :: 0 <= i < |plan.moves| ==> BindingOf(h, plan.moves[i].key).Some?
    ensures |bs| == |plan.moves|
    ensures forall i :: 0 <= i < |bs| ==> bs[i] == Landed(BindingOf(h, plan.moves[i].key).value, plan.moves[i], plan.token)
  {
    seq(|plan.moves|, i requires 0 <= i < |plan.moves| => Landed(BindingOf(h, plan.moves[i].key).value, plan.moves[i], plan.token))
  }

  lemma WayIsMade(plan: Plan, h: History, reachable: set<Cluster>)
    requires AllUnhaunted(h) && Movable(plan, h, reachable)
    ensures Passed3(Intents(plan.moves, plan.token, Bindings(plan, h)), Smooth(reachable, Available)) == Destinations(plan, h)
  {
    var bs, c := Bindings(plan, h), Smooth(reachable, Available);
    forall i | 0 <= i < |plan.moves|
      ensures Passed3(Intents(plan.moves, plan.token, bs), c)[i] == Destinations(plan, h)[i]
    {
      BindingsArePlaced(plan, h, i);
      DestinationIsReached(bs[i], plan.moves[i].destination, plan.token, reachable, 3);
    }
  }

  /** The bindings as the intents of the plan leave them. */
  predicate AllGoing(plan: Plan, h: History, going: seq<Replica>) {
    && |going| == |plan.moves| && AllListed(h, plan)
    && forall i :: 0 <= i < |plan.moves| ==> BindingOf(h, plan.moves[i].key) == Some(going[i]) && !going[i].deleting
  }

  /** The passes in between complete what the intents have begun. */
  lemma RoundsLand(plan: Plan, s: System, c: Calls, going: seq<Replica>, bs: seq<Replica>)
    requires DistinctMoves(plan.moves) && AllGoing(plan, s.lives, going)
    requires Passed3(going, c) == bs && |bs| == |plan.moves|
    requires forall i :: 0 <= i < |bs| ==> StableForPlan(bs[i]) && InPlace(bs[i], plan.token, plan.moves[i])
    ensures AllLanded(plan, Sys(plan, s, Rounds(plan.moves, c)).lives, bs) && Sys(plan, s, Rounds(plan.moves, c)).plan == s.plan
  {
    assert plan.moves[..|plan.moves|] == plan.moves;
    RoundsPass(plan, s, plan.moves, |plan.moves|, c, going);
    ListedContinues(plan, s.lives, Sys(plan, s, Rounds(plan.moves, c)).lives);
  }

  lemma BoundIsGoing(plan: Plan, h: History, h1: History, reachable: set<Cluster>)
    requires Movable(plan, h, reachable) && AllListed(h1, plan)
    requires Bound(h1, plan.moves, |plan.moves|, Bindings(plan, h), Intents(plan.moves, plan.token, Bindings(plan, h)))
    ensures AllGoing(plan, h1, Intents(plan.moves, plan.token, Bindings(plan, h)))
  {
    forall i | 0 <= i < |plan.moves| ensures !Intents(plan.moves, plan.token, Bindings(plan, h))[i].deleting {
      assert !Bindings(plan, h)[i].deleting;
    }
  }

  lemma FirstLeg(plan: Plan, s: System, f: Fates, reachable: set<Cluster>)
    requires DistinctMoves(plan.moves) && plan.token != "" && PlanOk(plan, s.plan) && Underway(plan, s.plan)
    requires AllListed(s.lives, plan) && Movable(plan, s.lives, reachable) && Faultless(plan, f)
    ensures var s1 := Sys(plan, s, [PlanPass(f)]);
            AllGoing(plan, s1.lives, Intents(plan.moves, plan.token, Bindings(plan, s.lives))) && Stands(plan, s1.plan)
  {
    FirstPass(plan, s, f, reachable);
    OneStep(plan, s, PlanPass(f));
    ListedContinues(plan, s.lives, Taken(plan, s, PlanPass(f)).lives);
    BoundIsGoing(plan, s.lives, Sys(plan, s, [PlanPass(f)]).lives, reachable);
  }

  lemma SecondLeg(plan: Plan, s: System, first: seq<Step>, c: Calls, going: seq<Replica>, bs: seq<Replica>)
    requires DistinctMoves(plan.moves) && AllGoing(plan, Sys(plan, s, first).lives, going) && Stands(plan, Sys(plan, s, first).plan)
    requires Passed3(going, c) == bs && |bs| == |plan.moves|
    requires forall i :: 0 <= i < |bs| ==> StableForPlan(bs[i]) && InPlace(bs[i], plan.token, plan.moves[i])
    ensures var s2 := Sys(plan, s, first + Rounds(plan.moves, c)); AllLanded(plan, s2.lives, bs) && Stands(plan, s2.plan)
  {
    RoundsLand(plan, Sys(plan, s, first), c, going, bs);
    SysAppend(plan, s, first, Rounds(plan.moves, c));
  }

  lemma ThirdLeg(plan: Plan, s: System, most: seq<Step>, g: Fates, bs: seq<Replica>)
    requires DistinctMoves(plan.moves) && AllLanded(plan, Sys(plan, s, most).lives, bs) && Stands(plan, Sys(plan, s, most).plan)
    requires Faultless(plan, g) && (plan.strategy == Conservative || plan.strategy == Aggressive)
    ensures var s1 := Sys(plan, s, most + [PlanPass(g)]);
            && s1.plan.phase == PlanSucceeded && s1.plan.completed
            && forall i :: 0 <= i < |plan.moves| ==> BindingOf(s1.lives, plan.moves[i].key) == Some(bs[i])
  {
    var s2 := Sys(plan, s, most);
    SysAppend(plan, s, most, [PlanPass(g)]);
    OneStep(plan, s2, PlanPass(g));
    if plan.moves != [] {
      LastPass(plan, s2, g, bs);
    }
  }

  /** A plan whose moves can all be made is completed when no call fails: one pass that issues the intents, three
      passes of each moved binding, and one more pass.  Then the plan has Succeeded, and every moved replica runs
      at its destination and is deployed nowhere else; nothing else about its binding has changed. */
  lemma FaultlessPlanCompletes(plan: Plan, s: System, f: Fates, g: Fates, reachable: set<Cluster>)
    requires DistinctMoves(plan.moves) && plan.token != "" && PlanOk(plan, s.plan) && Underway(plan, s.plan)
    requires AllUnhaunted(s.lives) && AllListed(s.lives, plan) && Movable(plan, s.lives, reachable)
    requires Faultless(plan, f) && Faultless(plan, g)
    ensures var steps := [PlanPass(f)] + Rounds(plan.moves, Smooth(reachable, Available)) + [PlanPass(g)];
            var s1 := Sys(plan, s, steps);
            && s1.plan.phase == PlanSucceeded && s1.plan.completed
            && forall i :: 0 <= i < |plan.moves| ==>
                 BindingOf(s1.lives, plan.moves[i].key)
                 == Some(Landed(BindingOf(s.lives, plan.moves[i].key).value, plan.moves[i], plan.token))
  {
    var c, bs := Smooth(reachable, Available), Destinations(plan, s.lives);
    FirstLeg(plan, s, f, reachable);
    WayIsMade(plan, s.lives, reachable);
    SecondLeg(plan, s, [PlanPass(f)], c, Intents(plan.moves, plan.token, Bindings(plan, s.lives)), bs);
    ThirdLeg(plan, s, [PlanPass(f)] + Rounds(plan.moves, c), g, bs);
  }
}
