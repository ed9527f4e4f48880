/**
 Execution of a ReOrchestrationPlan: move statuses, summary counters and the plan phase, pass by pass,
 with status writes that may fail and bindings that may be missing.
 */
module PlanExecution {
  import opened MigrationProtocol
  import opened Prelude

  datatype MoveKey = MoveKey(namespace: string, name: string, index: int)

  datatype Move = Move(key: MoveKey, destination: Location)

  datatype MoveState = MovePending | MoveInProgress | MoveSucceeded | MoveFailure

  datatype MoveStatus = MoveStatus(key: MoveKey, state: MoveState)

  datatype PlanPhase = NoPhase | PlanPending | Executing | PlanSucceeded | PlanFailed | PartiallyFailed | Terminating {
    predicate Terminal() { this in {PlanSucceeded, PlanFailed, PartiallyFailed, Terminating} }
    predicate Final() { this in {PlanSucceeded, PlanFailed, PartiallyFailed} }
  }

  datatype Strategy = Preview | Conservative | Aggressive | UnknownStrategy

  datatype Summary = Summary(total: int, succeeded: int, failed: int, pending: int)

  datatype Plan = Plan(strategy: Strategy, token: string, moves: seq<Move>)

  datatype PlanState = PlanState(
    phase: PlanPhase, started: bool, statuses: seq<MoveStatus>, summary: Summary, completed: bool)

  /** Outcomes of one pass: which writes land, and what reads of the bindings return.  An error of one of the
      first three writes ends the pass, also when the write took effect; the other errors are ignored. */
  datatype PlanCalls = PlanCalls(
    phasePatch: Fate,
    initPatch: Fate,
    watchInit: Fate,
    found: set<MoveKey>,                 // bindings that can be read when intents are applied
    intentOk: set<MoveKey>,              // intents already in place or fully patched
    executePatch: set<MoveKey>,          // move status writes that land while applying intents
    executeSummary: bool,
    timedOut: bool,
    observed: map<MoveKey, Replica>,     // bindings that can be read when monitoring
    monitorPatch: set<MoveKey>,          // move status writes that land while monitoring
    convergeSummary: bool,
    convergePatch: bool)

  // ------------------------------------------------------------------ the status list

  function MoveKeys(moves: seq<Move>): (ks: seq<MoveKey>)
    ensures |ks| == |moves|
    ensures forall i :: 0 <= i < |moves| ==> ks[i] == moves[i].key
  {
    seq(|moves|, i requires 0 <= i < |moves| => moves[i].key)
  }

  predicate DistinctMoves(moves: seq<Move>) {
    Distinct(MoveKeys(moves))
  }

  function Initialised(moves: seq<Move>): seq<MoveStatus> {
    seq(|moves|, i requires 0 <= i < |moves| => MoveStatus(moves[i].key, MovePending))
  }

  /** Sets the state of the first entry with this key, or appends an entry. */
  function Upsert(ss: seq<MoveStatus>, k: MoveKey, st: MoveState): seq<MoveStatus> {
    if ss == [] then [MoveStatus(k, st)]
    else if ss[0].key == k then ss[0 := MoveStatus(k, st)]
    else [ss[0]] + Upsert(ss[1..], k, st)
  }

  /** Moves the first entry with this key to `to` if it is in state `from`; never appends. */
  function Advance(ss: seq<MoveStatus>, k: MoveKey, from: MoveState, to: MoveState): seq<MoveStatus> {
    if ss == [] then []
    else if ss[0].key == k then (if ss[0].state == from then ss[0 := MoveStatus(k, to)] else ss)
    else [ss[0]] + Advance(ss[1..], k, from, to)
  }

  lemma BehindFirst(ss: seq<MoveStatus>, i: nat, x: MoveStatus)
    requires 0 < i <= |ss|
    ensures i < |ss| ==> [ss[0]] + ss[1..][i - 1 := x] == ss[i := x]
    ensures [ss[0]] + (ss[1..] + [x]) == ss + [x] && [ss[0]] + ss[1..] == ss
  {
  }

  lemma {:induction false} UpsertAt(ss: seq<MoveStatus>, k: MoveKey, st: MoveState, i: nat)
    requires i <= |ss| && (forall j :: 0 <= j < i ==> ss[j].key != k) && (i < |ss| ==> ss[i].key == k)
    ensures Upsert(ss, k, st) == if i < |ss| then ss[i := MoveStatus(k, st)] else ss + [MoveStatus(k, st)]
  {
    if i > 0 {
      UpsertAt(ss[1..], k, st, i - 1);
      BehindFirst(ss, i, MoveStatus(k, st));
    }
  }

  lemma {:induction false} AdvanceAt(ss: seq<MoveStatus>, k: MoveKey, from: MoveState, to: MoveState, i: nat)
    requires i <= |ss| && (forall j :: 0 <= j < i ==> ss[j].key != k) && (i < |ss| ==> ss[i].key == k)
    ensures Advance(ss, k, from, to) == if i < |ss| && ss[i].state == from then ss[i := MoveStatus(k, to)] else ss
  {
    if i > 0 {
      AdvanceAt(ss[1..], k, from, to, i - 1);
      BehindFirst(ss, i, MoveStatus(k, to));
    }
  }

  // ------------------------------------------------------------------ one pass, as functions

  /** The intent of one move. */
  function Intend(ss: seq<MoveStatus>, k: MoveKey, c: PlanCalls): seq<MoveStatus> {
    if k !in c.executePatch then ss
    else if k !in c.found || k !in c.intentOk then Upsert(ss, k, MoveFailure)
    else Advance(ss, k, MovePending, MoveInProgress)
  }

  function Executed(moves: seq<Move>, ss: seq<MoveStatus>, c: PlanCalls): seq<MoveStatus> {
    if moves == [] then ss
    else Intend(Executed(moves[..|moves| - 1], ss, c), moves[|moves| - 1].key, c)
  }

  function StateOf(p: MoveProgress): MoveState {
    match p
    case InProgress => MoveInProgress
    case Succeeded => MoveSucceeded
    case MoveFailed => MoveFailure
  }

  /** What the binding of one move shows. */
  function Watch(token: string, ss: seq<MoveStatus>, k: MoveKey, c: PlanCalls): seq<MoveStatus> {
    if k !in c.observed || k !in c.monitorPatch then ss
    else Upsert(ss, k, StateOf(MoveProgressOf(token, c.observed[k])))
  }

  function Monitored(token: string, moves: seq<Move>, ss: seq<MoveStatus>, c: PlanCalls): seq<MoveStatus> {
    if moves == [] then ss
    else Watch(token, Monitored(token, moves[..|moves| - 1], ss, c), moves[|moves| - 1].key, c)
  }

  function CountOf(ss: seq<MoveStatus>, states: set<MoveState>): nat {
    if ss == [] then 0
    else CountOf(ss[..|ss| - 1], states) + (if ss[|ss| - 1].state in states then 1 else 0)
  }

  function SummaryOf(ss: seq<MoveStatus>): Summary {
    Summary(|ss|, CountOf(ss, {MoveSucceeded}), CountOf(ss, {MoveFailure}), CountOf(ss, {MovePending, MoveInProgress}))
  }

  /** The phase a finished plan gets, read off its counters. */
  function Verdict(s: Summary): PlanPhase {
    if s.failed == 0 then PlanSucceeded
    else if s.succeeded == 0 then PlanFailed
    else PartiallyFailed
  }

  function Converged(plan: Plan, s: PlanState, c: PlanCalls): PlanState {
    var s1 := if c.convergeSummary then s.(summary := SummaryOf(s.statuses)) else s;
    var counts := SummaryOf(s.statuses);
    if (plan.moves != [] && s.statuses == []) || counts.pending != 0 then s1
    else if !c.convergePatch then s1
    else s1.(phase := Verdict(counts), completed := true)
  }

  function DesiredPhase(st: Strategy): PlanPhase {
    if st in {Conservative, Aggressive} then Executing else PlanPending
  }

  function Begun(plan: Plan, s: PlanState): PlanState {
    s.(started := true, statuses := if s.statuses == [] then Initialised(plan.moves) else s.statuses)
  }

  /** Monitoring; it initialises the statuses itself when they are still missing. */
  function Watched(plan: Plan, s: PlanState, c: PlanCalls): PlanState {
    var missing := plan.moves != [] && s.statuses == [];
    var s1 := if missing && c.watchInit.Lands() then s.(statuses := Initialised(plan.moves)) else s;
    if missing && c.watchInit != Acked then s1
    // a timed-out pass marks moves only on its own copy
    else if s1.started && c.timedOut then Converged(plan, s1, c)
    else Converged(plan, s1.(statuses := Monitored(plan.token, plan.moves, s1.statuses, c)), c)
  }

  /** The intents applied and the summary recomputed. */
  function Intended(plan: Plan, s: PlanState, c: PlanCalls): PlanState {
    var ss := Executed(plan.moves, s.statuses, c);
    s.(statuses := ss, summary := if c.executeSummary then SummaryOf(ss) else s.summary)
  }

  function Worked(plan: Plan, s: PlanState, c: PlanCalls): PlanState {
    Watched(plan, Intended(plan, s, c), c)
  }

  /** Initialisation, when it is needed; the moves are worked on only if it was acknowledged. */
  function Started(plan: Plan, s: PlanState, c: PlanCalls): PlanState {
    if c.initPatch.Lands() then Begun(plan, s) else s
  }

  function Passed(plan: Plan, s: PlanState, c: PlanCalls): PlanState {
    var desired := DesiredPhase(plan.strategy);
    var s1 := if c.phasePatch.Lands() then s.(phase := desired) else s;
    if s.phase.Terminal() then s
    else if s.phase != desired && c.phasePatch != Acked then s1
    else if desired != Executing then s.(phase := desired)
    else Entered(plan, s.(phase := desired), c)
  }

  /** The rest of a pass, once the plan is in Executing. */
  function Entered(plan: Plan, s: PlanState, c: PlanCalls): PlanState {
    if Begun(plan, s) == s then Worked(plan, s, c)
    else if c.initPatch == Acked then Worked(plan, Begun(plan, s), c)
    else Started(plan, s, c)
  }

  // ------------------------------------------------------------------ the reconciler

  class PlanReconciler {
    const plan: Plan
    var phase: PlanPhase
    var started: bool
    var statuses: seq<MoveStatus>
    var summary: Summary
    var completed: bool

    function View(): PlanState reads this { PlanState(phase, started, statuses, summary, completed) }

    constructor (plan: Plan, s: PlanState)
      ensures this.plan == plan && View() == s
    {
      this.plan := plan;
      phase, started, statuses, summary, completed := s.phase, s.started, s.statuses, s.summary, s.completed;
    }

    method PatchMoveStatus(k: MoveKey, st: MoveState, lands: bool)
      modifies `statuses
      ensures statuses == if lands then Upsert(old(statuses), k, st) else old(statuses)
    {
      var latest, found, i := statuses, false, 0;
      while i < |latest|
        invariant 0 <= i <= |latest| && latest == old(statuses) && !found
        invariant forall j :: 0 <= j < i ==> latest[j].key != k
      {
        if latest[i].key == k {
          found := true;
          break;
        }
        i := i + 1;
      }
      UpsertAt(latest, k, st, i);
      if found {
        latest := latest[i := MoveStatus(k, st)];
      } else {
        latest := latest + [MoveStatus(k, st)];
      }
      if lands {
        statuses := latest;
      }
    }

    method PatchMoveStatusIf(k: MoveKey, from: MoveState, to: MoveState, lands: bool)
      modifies `statuses
      ensures statuses == if lands then Advance(old(statuses), k, from, to) else old(statuses)
    {
      var i := 0;
      while i < |statuses|
        invariant 0 <= i <= |statuses| && statuses == old(statuses)
        invariant forall j :: 0 <= j < i ==> statuses[j].key != k
      {
        if statuses[i].key == k {
          break;
        }
        i := i + 1;
      }
      AdvanceAt(statuses, k, from, to, i);
      if lands && i < |statuses| && statuses[i].state == from {
        statuses := statuses[i := MoveStatus(k, to)];
      }
    }

    method RecomputeSummary(lands: bool)
      modifies `summary
      ensures summary == if lands then SummaryOf(statuses) else old(summary)
    {
      var total, succ, fail, pend := 0, 0, 0, 0;
      while total < |statuses|
        invariant 0 <= total <= |statuses|
        invariant Summary(total, succ, fail, pend) == SummaryOf(statuses[..total])
      {
        var state := statuses[total].state;
        assert statuses[..total + 1][..total] == statuses[..total];
        total := total + 1;
        match state
        case MoveSucceeded => succ := succ + 1;
        case MoveFailure => fail := fail + 1;
        case MovePending => pend := pend + 1;
        case MoveInProgress => pend := pend + 1;
      }
      assert statuses[..total] == statuses;
      if lands {
        summary := Summary(total, succ, fail, pend);
      }
    }

    /** Reads the phase off three flags gathered in one scan of the statuses. */
    method ConvergePlanPhase(c: PlanCalls)
      modifies this
      ensures View() == Converged(plan, old(View()), c)
    {
      RecomputeSummary(c.convergeSummary);
      if plan.moves != [] && statuses == [] {
        return;
      }
      var allTerminal, anyFailed, anySucceeded, i := true, false, false, 0;
      while i < |statuses|
        invariant 0 <= i <= |statuses|
        invariant allTerminal <==> CountOf(statuses[..i], {MovePending, MoveInProgress}) == 0
        invariant anyFailed <==> CountOf(statuses[..i], {MoveFailure}) > 0
        invariant anySucceeded <==> CountOf(statuses[..i], {MoveSucceeded}) > 0
      {
        assert statuses[..i + 1][..i] == statuses[..i];
        var state := statuses[i].state;
        if state != MoveSucceeded && state != MoveFailure {
          allTerminal := false;
        }
        if state == MoveFailure {
          anyFailed := true;
        }
        if state == MoveSucceeded {
          anySucceeded := true;
        }
        i := i + 1;
      }
      assert statuses[..i] == statuses;
      if !allTerminal {
        return;
      }
      var final := PlanSucceeded;
      if anyFailed && anySucceeded {
        final := PartiallyFailed;
      } else if anyFailed {
        final := PlanFailed;
      }
      if phase == final && completed {
        return;
      }
      if c.convergePatch {
        phase := final;
        completed := true;
      }
    }

    /** Sets start time and statuses when they are missing. */
    method Initialise(c: PlanCalls) returns (ok: bool)
      modifies this
      ensures ok <==> Begun(plan, old(View())) == old(View()) || c.initPatch == Acked
      ensures View() == Started(plan, old(View()), c) || (View() == old(View()) == Begun(plan, old(View())))
    {
      if started && (statuses != [] || plan.moves == []) {
        return true;
      }
      if c.initPatch.Lands() {
        started := true;
        if statuses == [] {
          statuses := Initialised(plan.moves);
        }
      }
      return c.initPatch == Acked;
    }

    method ApplyIntents(c: PlanCalls)
      modifies `statuses
      ensures statuses == Executed(plan.moves, old(statuses), c)
    {
      for i := 0 to |plan.moves|
        invariant statuses == Executed(plan.moves[..i], old(statuses), c)
      {
        var k := plan.moves[i].key;
        assert plan.moves[..i + 1][..i] == plan.moves[..i];
        if k !in c.found || k !in c.intentOk {
          PatchMoveStatus(k, MoveFailure, k in c.executePatch);
        } else {
          PatchMoveStatusIf(k, MovePending, MoveInProgress, k in c.executePatch);
        }
      }
      assert plan.moves[..|plan.moves|] == plan.moves;
    }

    /** Initialises what is missing and applies the intents; an error of the initialisation ends the pass. */
    method ExecuteMoves(c: PlanCalls) returns (ok: bool)
      modifies this
      ensures ok <==> Begun(plan, old(View())) == old(View()) || c.initPatch == Acked
      ensures !ok ==> View() == Started(plan, old(View()), c)
      ensures ok ==> View() == Intended(plan, Begun(plan, old(View())), c)
    {
      ok := Initialise(c);
      if ok {
        ApplyIntents(c);
        RecomputeSummary(c.executeSummary);
      }
    }

    method WatchMoves(c: PlanCalls)
      modifies `statuses
      ensures statuses == Monitored(plan.token, plan.moves, old(statuses), c)
    {
      for i := 0 to |plan.moves|
        invariant statuses == Monitored(plan.token, plan.moves[..i], old(statuses), c)
      {
        var k := plan.moves[i].key;
        assert plan.moves[..i + 1][..i] == plan.moves[..i];
        if k in c.observed {
          PatchMoveStatus(k, StateOf(MoveProgressOf(plan.token, c.observed[k])), k in c.monitorPatch);
        }
      }
      assert plan.moves[..|plan.moves|] == plan.moves;
    }

    method MonitorAndConverge(c: PlanCalls)
      modifies this
      ensures View() == Watched(plan, old(View()), c)
    {
      if plan.moves != [] && statuses == [] {
        if c.watchInit.Lands() {
          statuses := Initialised(plan.moves);
        }
        if c.watchInit != Acked {
          return;
        }
      }
      if !started || !c.timedOut {
        WatchMoves(c);
      }
      ConvergePlanPhase(c);
    }

    method Reconcile(c: PlanCalls)
      modifies this
      ensures View() == Passed(plan, old(View()), c)
    {
      if phase.Terminal() {
        return;
      }
      var desired := DesiredPhase(plan.strategy);
      if phase != desired {
        if c.phasePatch.Lands() {
          phase := desired;
        }
        if c.phasePatch != Acked {
          return;
        }
      }
      if desired == Executing {
        var ok := ExecuteMoves(c);
        if ok {
          MonitorAndConverge(c);
        }
      }
    }
  }
}
