/**
 What a pass of the plan controller brings about, told by the bindings it reads and the writes that take effect:
 what each move shows afterwards, when the plan ends and how, and why a move shows as Failed.
 */
module PlanProgress {
  import opened MigrationProtocol
  import opened MigrationRuns
  import opened PlanExecution
  import opened PlanMigration
  import opened PlanSafety
  import opened Prelude

  // ------------------------------------------------------------------ what a move shows after a pass

  /** The plan is one that is executed and has not ended. */
  predicate Underway(plan: Plan, s: PlanState) {
    (plan.strategy == Conservative || plan.strategy == Aggressive) && s.phase in {NoPhase, PlanPending, Executing}
  }

  /** The writes whose errors end a pass are acknowledged. */
  predicate Undisturbed(c: PlanCalls) {
    c.phasePatch == Acked && c.initPatch == Acked
  }

  /** What move i showed before: moves that are not listed yet are Pending. */
  function Before(s: PlanState, i: nat): MoveState {
    if i < |s.statuses| then s.statuses[i].state else MovePending
  }

  /** What a binding that has been read shows. */
  function ShownBy(token: string, b: Replica): MoveState {
    if b.phase == Failed then MoveFailure
    else if b.phase == Running && (token == "" || b.token == token) then MoveSucceeded
    else MoveInProgress
  }

  lemma ShownIsProgress(token: string, b: Replica)
    ensures StateOf(MoveProgressOf(token, b)) == ShownBy(token, b)
  {
  }

  /** What applying the intent leaves: a failed intent fails the move, a Pending move is in progress. */
  function Attempted(c: PlanCalls, k: MoveKey, st: MoveState): MoveState {
    if k !in c.executePatch then st
    else if k in c.found && k in c.intentOk then (if st == MovePending then MoveInProgress else st)
    else MoveFailure
  }

  /** After an undisturbed pass of a plan that is underway, a move shows what its binding shows, if that was read and
      the write took effect, and otherwise what its intent has left; after a timed-out pass always the latter. */
  lemma PassShows(plan: Plan, s: PlanState, c: PlanCalls, i: nat)
    requires DistinctMoves(plan.moves) && PlanOk(plan, s) && Underway(plan, s) && Undisturbed(c) && i < |plan.moves|
    ensures var s1, k := Passed(plan, s, c), plan.moves[i].key;
            && Aligned(plan.moves, s1.statuses)
            && s1.statuses[i].state ==
               if !c.timedOut && k in c.observed && k in c.monitorPatch then ShownBy(plan.token, c.observed[k])
               else Attempted(c, k, Before(s, i))
  {
    var s1 := s.(phase := Executing);
    BegunIsOk(plan, s1);
    var begun := Begun(plan, s1);
    assert begun == s1 || c.initPatch == Acked;
    assert Passed(plan, s, c) == Worked(plan, begun, c);
    PassMovesPointwise(plan, begun, c);
    if plan.moves[i].key in c.observed {
      ShownIsProgress(plan.token, c.observed[plan.moves[i].key]);
    }
  }

  /** A monitor that finds no statuses lists every move as Pending first, and goes on only when that write is
      acknowledged. */
  lemma MonitorListsMoves(plan: Plan, s: PlanState, c: PlanCalls, ss: seq<MoveStatus>)
    requires plan.moves != [] && s.statuses == [] && Aligned(plan.moves, ss)
    requires forall i :: 0 <= i < |ss| ==> ss[i].state == MovePending
    ensures Watched(plan, s, c) ==
            if c.watchInit == Acked then Watched(plan, s.(statuses := ss), c)
            else if c.watchInit == Unacked then s.(statuses := ss)
            else s
  {
    assert Initialised(plan.moves) == ss;
  }

  // ------------------------------------------------------------------ counting

  /** The entries that show a state. */
  function Showing(ss: seq<MoveStatus>, st: MoveState): set<int> {
    set i | 0 <= i < |ss| && ss[i].state == st
  }

  lemma ShowingPush(ss: seq<MoveStatus>, st: MoveState)
    requires ss != []
    ensures |ss| - 1 !in Showing(ss[..|ss| - 1], st)
    ensures Showing(ss, st) ==
            if ss[|ss| - 1].state == st then Showing(ss[..|ss| - 1], st) + {|ss| - 1} else Showing(ss[..|ss| - 1], st)
  {
  }

  lemma {:induction false} CountIsCardinality(ss: seq<MoveStatus>, st: MoveState)
    ensures CountOf(ss, {st}) == |Showing(ss, st)|
  {
    if ss != [] {
      var n := |ss| - 1;
      CountIsCardinality(ss[..n], st);
      ShowingPush(ss, st);
    }
  }

  /** Succeeded and failed moves are counted, all others are pending. */
  lemma SummaryCounts(ss: seq<MoveStatus>)
    ensures SummaryOf(ss).total == |ss|
    ensures SummaryOf(ss).succeeded == |Showing(ss, MoveSucceeded)|
    ensures SummaryOf(ss).failed == |Showing(ss, MoveFailure)|
    ensures SummaryOf(ss).pending == |ss| - |Showing(ss, MoveSucceeded)| - |Showing(ss, MoveFailure)|
  {
    CountIsCardinality(ss, MoveSucceeded);
    CountIsCardinality(ss, MoveFailure);
    CountsAddUp(ss);
  }

  // ------------------------------------------------------------------ when a plan ends

  /** Everything the pass needs to see and write goes through. */
  predicate Seeing(plan: Plan, c: PlanCalls) {
    && Undisturbed(c) && !c.timedOut
    && forall i :: 0 <= i < |plan.moves| ==> plan.moves[i].key in c.observed && plan.moves[i].key in c.monitorPatch
  }

  /** The binding of move i, as the pass reads it. */
  function Read(plan: Plan, c: PlanCalls, i: nat): Replica
    requires Seeing(plan, c) && i < |plan.moves|
  {
    c.observed[plan.moves[i].key]
  }

  lemma NoneShows(ss: seq<MoveStatus>, st: MoveState)
    ensures CountOf(ss, {st}) == 0 <==> forall i :: 0 <= i < |ss| ==> ss[i].state != st
  {
    CountZero(ss, {st});
    if CountOf(ss, {st}) == 0 {
      forall i | 0 <= i < |ss| ensures ss[i].state != st {
        assert ss[i].state !in {st};
      }
    }
  }

  predicate HasEnded(st: MoveState) { st == MoveSucceeded || st == MoveFailure }

  lemma AllEnded(ss: seq<MoveStatus>)
    ensures CountOf(ss, {MovePending, MoveInProgress}) == 0 <==> forall i :: 0 <= i < |ss| ==> HasEnded(ss[i].state)
  {
    CountZero(ss, {MovePending, MoveInProgress});
    if CountOf(ss, {MovePending, MoveInProgress}) == 0 {
      forall i | 0 <= i < |ss| ensures HasEnded(ss[i].state) {
        assert ss[i].state !in {MovePending, MoveInProgress};
      }
    } else {
      var i :| 0 <= i < |ss| && ss[i].state in {MovePending, MoveInProgress};
      assert !HasEnded(ss[i].state);
    }
  }

  lemma SeenStatuses(plan: Plan, s: PlanState, c: PlanCalls)
    requires DistinctMoves(plan.moves) && PlanOk(plan, s) && Underway(plan, s) && Seeing(plan, c)
    ensures var s1 := Passed(plan, s, c);
            && |s1.statuses| == |plan.moves| && (c.convergeSummary ==> s1.summary == SummaryOf(s1.statuses))
            && forall i :: 0 <= i < |plan.moves| ==>
                 s1.statuses[i] == MoveStatus(plan.moves[i].key, ShownBy(plan.token, Read(plan, c, i)))
  {
    var s0 := s.(phase := Executing);
    BegunIsOk(plan, s0);
    PassCounts(plan, s, c);
    if |plan.moves| == 0 {
      WorkKeepsOk(plan, Begun(plan, s0), c);
      PassMovesPointwise(plan, Begun(plan, s0), c);
    }
    forall i | 0 <= i < |plan.moves|
      ensures Passed(plan, s, c).statuses[..] == Passed(plan, s, c).statuses && Aligned(plan.moves, Passed(plan, s, c).statuses)
      ensures Passed(plan, s, c).statuses[i] == MoveStatus(plan.moves[i].key, ShownBy(plan.token, Read(plan, c, i)))
    {
      PassShows(plan, s, c, i);
    }
    assert |plan.moves| > 0 ==> Aligned(plan.moves, Passed(plan, s, c).statuses) by {
      if |plan.moves| > 0 {
        PassShows(plan, s, c, 0);
      }
    }
  }

  /** The pass sets the phase its own statuses dictate. */
  lemma PassConverges(plan: Plan, s: PlanState, c: PlanCalls)
    requires DistinctMoves(plan.moves) && PlanOk(plan, s) && Underway(plan, s) && Seeing(plan, c)
    ensures var s1 := Passed(plan, s, c);
            if c.convergePatch && SummaryOf(s1.statuses).pending == 0 then s1.phase == Verdict(SummaryOf(s1.statuses)) && s1.completed
            else s1.phase == Executing && !s1.completed
  {
    var s0 := s.(phase := Executing);
    BegunIsOk(plan, s0);
    IntendedKeepsOk(plan, Begun(plan, s0), c);
    var s2 := Intended(plan, Begun(plan, s0), c);
    ConvergesOn(plan, s2, c);
    assert Begun(plan, s0) == s0 || c.initPatch == Acked;
    assert Passed(plan, s, c) == Watched(plan, s2, c);
  }

  /** Monitoring sets the phase that its statuses dictate. */
  lemma ConvergesOn(plan: Plan, s: PlanState, c: PlanCalls)
    requires DistinctMoves(plan.moves) && PlanOk(plan, s) && s.phase == Executing && s.started && !c.timedOut
    ensures var s1 := Watched(plan, s, c);
            if c.convergePatch && SummaryOf(s1.statuses).pending == 0 then s1.phase == Verdict(SummaryOf(s1.statuses)) && s1.completed
            else s1.phase == Executing && !s1.completed
  {
    assert plan.moves[..|plan.moves|] == plan.moves;
    MonitoredPointwise(plan.token, plan.moves, |plan.moves|, s.statuses, c);
  }

  /** The statuses of a list of moves, each Failed, done, or open. */
  predicate Tells(ss: seq<MoveStatus>, failed: set<int>, done: set<int>) {
    forall i :: 0 <= i < |ss| ==> (ss[i].state == MoveFailure <==> i in failed) && (ss[i].state == MoveSucceeded <==> i in done)
  }

  /** The verdict on such a list. */
  lemma VerdictOn(ss: seq<MoveStatus>, failed: set<int>, done: set<int>)
    requires Tells(ss, failed, done) && forall i :: i in failed || i in done ==> 0 <= i < |ss|
    ensures SummaryOf(ss) == Summary(|ss|, |done|, |failed|, |ss| - |failed| - |done|)
    ensures SummaryOf(ss).pending == 0 <==> forall i :: 0 <= i < |ss| ==> i in failed || i in done
    ensures SummaryOf(ss).pending == 0 ==>
              Verdict(SummaryOf(ss)) == (if failed == {} then PlanSucceeded else if done == {} then PlanFailed else PartiallyFailed)
  {
    SummaryCounts(ss);
    assert Showing(ss, MoveFailure) == failed;
    assert Showing(ss, MoveSucceeded) == done;
    NoneShows(ss, MoveFailure);
    NoneShows(ss, MoveSucceeded);
    AllEnded(ss);
  }

  /** The moves whose bindings are read as Failed, and those read as Running with the plan's token. */
  function FailedMoves(plan: Plan, c: PlanCalls): set<int>
    requires Seeing(plan, c)
  {
    set i | 0 <= i < |plan.moves| && Read(plan, c, i).phase == Failed
  }

  function DoneMoves(plan: Plan, c: PlanCalls): set<int>
    requires Seeing(plan, c)
  {
    set i | 0 <= i < |plan.moves| && Read(plan, c, i).phase == Running && (plan.token == "" || Read(plan, c, i).token == plan.token)
  }

  /** A pass that reads every binding of a plan that is underway ends the plan exactly when each is Failed, or
      Running with the plan's token, and the write of the phase takes effect: as Succeeded when none has Failed, as
      Failed when some have and none is done, as PartiallyFailed otherwise; and the summary counts them. */
  lemma PassEndsIff(plan: Plan, s: PlanState, c: PlanCalls)
    requires DistinctMoves(plan.moves) && PlanOk(plan, s) && Underway(plan, s) && Seeing(plan, c)
    ensures var s1, failed, done := Passed(plan, s, c), FailedMoves(plan, c), DoneMoves(plan, c);
            && (s1.completed <==> c.convergePatch && forall i :: 0 <= i < |plan.moves| ==> i in failed || i in done)
            && s1.phase == (if !s1.completed then Executing
                            else if failed == {} then PlanSucceeded
                            else if done == {} then PlanFailed
                            else PartiallyFailed)
            && (c.convergeSummary ==> s1.summary == Summary(|plan.moves|, |done|, |failed|, |plan.moves| - |failed| - |done|))
  {
    SeenStatuses(plan, s, c);
    VerdictOn(Passed(plan, s, c).statuses, FailedMoves(plan, c), DoneMoves(plan, c));
    PassConverges(plan, s, c);
  }

  // ------------------------------------------------------------------ passes that stop early

  /** A plan that is not executed is Pending after a pass whose write takes effect, and is not touched otherwise. */
  lemma WaitingStays(plan: Plan, s: PlanState, c: PlanCalls)
    requires (plan.strategy == Preview || plan.strategy == UnknownStrategy) && s.phase in {NoPhase, PlanPending, Executing}
    ensures Passed(plan, s, c) == if c.phasePatch != Refused then s.(phase := PlanPending) else s
  {
  }

  /** An error of one of its first two writes ends a pass of a plan that is underway: then the phase may have become
      Executing, and after that write the start may have been recorded and every move listed as Pending. */
  lemma ErrorsEndPass(plan: Plan, s: PlanState, c: PlanCalls, ss: seq<MoveStatus>)
    requires Underway(plan, s) && Aligned(plan.moves, ss) && forall i :: 0 <= i < |ss| ==> ss[i].state == MovePending
    ensures s.phase != Executing && c.phasePatch != Acked ==>
              Passed(plan, s, c) == if c.phasePatch == Unacked then s.(phase := Executing) else s
    ensures (s.phase == Executing || c.phasePatch == Acked) && c.initPatch != Acked &&
            (!s.started || (s.statuses == [] && plan.moves != [])) ==>
              Passed(plan, s, c) ==
              if c.initPatch == Refused then s.(phase := Executing)
              else s.(phase := Executing, started := true, statuses := if s.statuses == [] then ss else s.statuses)
  {
    assert Initialised(plan.moves) == ss;
  }

  // ------------------------------------------------------------------ why a move shows as Failed

  /** The pass writes Failed for a move: its intent did not go through, or its binding was read as Failed. */
  predicate WritesFailure(c: PlanCalls, k: MoveKey) {
    || (k in c.executePatch && !(k in c.found && k in c.intentOk))
    || (k in c.monitorPatch && k in c.observed && c.observed[k].phase == Failed)
  }

  lemma PassFailure(plan: Plan, s: PlanState, c: PlanCalls, i: nat)
    requires DistinctMoves(plan.moves) && PlanOk(plan, s) && i < |plan.moves| && Shows(Passed(plan, s, c), i, MoveFailure)
    ensures Shows(s, i, MoveFailure) || WritesFailure(c, plan.moves[i].key)
  {
    if !s.phase.Terminal() && DesiredPhase(plan.strategy) == Executing {
      var s1 := s.(phase := Executing);
      BegunIsOk(plan, s1);
      var begun := Begun(plan, s1);
      if Works(plan, s, c) {
        WorkKeepsOk(plan, begun, c);
        PassMovesPointwise(plan, begun, c);
      }
    }
  }

  /** Whatever writes fail, a status is Failed only because some pass could not complete the intent of its move, or has
      read its binding as Failed. */
  lemma {:induction false} FailureHasWitness(plan: Plan, s0: PlanState, cs: seq<PlanCalls>, i: nat) returns (n: nat)
    requires DistinctMoves(plan.moves) && Fresh(s0) && i < |plan.moves| && Shows(Runs(plan, s0, cs), i, MoveFailure)
    ensures n < |cs| && WritesFailure(cs[n], plan.moves[i].key)
  {
    var before, c := cs[..|cs| - 1], cs[|cs| - 1];
    RunKeepsOk(plan, s0, before);
    PassFailure(plan, Runs(plan, s0, before), c, i);
    if WritesFailure(c, plan.moves[i].key) {
      n := |cs| - 1;
    } else {
      n := FailureHasWitness(plan, s0, before, i);
    }
  }
}
