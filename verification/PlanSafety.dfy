/**
 What every run of plan passes keeps, and what one pass does to each move.
 */
module PlanSafety {
  import opened MigrationProtocol
  import opened PlanExecution
  import opened Prelude

  // ------------------------------------------------------------------ one pass, move by move

  /** Applying the intents never overrides a Succeeded or Failed move unless the intent itself failed. */
  function StateAfterIntent(k: MoveKey, st: MoveState, c: PlanCalls): MoveState {
    if k !in c.executePatch then st
    else if k !in c.found || k !in c.intentOk then MoveFailure
    else if st == MovePending then MoveInProgress
    else st
  }

  function StateAfterMonitor(token: string, k: MoveKey, st: MoveState, c: PlanCalls): MoveState {
    if k !in c.observed || k !in c.monitorPatch then st
    else StateOf(MoveProgressOf(token, c.observed[k]))
  }

  /** ss has one entry per move, in the order of the moves. */
  predicate Aligned(moves: seq<Move>, ss: seq<MoveStatus>) {
    |ss| == |moves| && forall i :: 0 <= i < |ss| ==> ss[i].key == moves[i].key
  }

  lemma KeyIsFirst(moves: seq<Move>, ss: seq<MoveStatus>, i: nat)
    requires DistinctMoves(moves) && Aligned(moves, ss) && i < |moves|
    ensures forall j :: 0 <= j < i ==> ss[j].key != moves[i].key
  {
    forall j | 0 <= j < i ensures ss[j].key != moves[i].key {
      assert MoveKeys(moves)[j] != MoveKeys(moves)[i];
    }
  }

  function SetState(ss: seq<MoveStatus>, i: nat, st: MoveState): (ts: seq<MoveStatus>)
    requires i < |ss|
    ensures |ts| == |ss| && forall j :: 0 <= j < |ss| ==> ts[j] == if j == i then MoveStatus(ss[i].key, st) else ss[j]
  {
    ss[i := ss[i].(state := st)]
  }

  /** In an aligned list the writes for move i change entry i. */
  lemma IntendAt(moves: seq<Move>, ss: seq<MoveStatus>, i: nat, c: PlanCalls)
    requires DistinctMoves(moves) && Aligned(moves, ss) && i < |moves|
    ensures Intend(ss, moves[i].key, c) == SetState(ss, i, StateAfterIntent(moves[i].key, ss[i].state, c))
  {
    KeyIsFirst(moves, ss, i);
    UpsertAt(ss, moves[i].key, MoveFailure, i);
    AdvanceAt(ss, moves[i].key, MovePending, MoveInProgress, i);
  }

  lemma WatchAt(token: string, moves: seq<Move>, ss: seq<MoveStatus>, i: nat, c: PlanCalls)
    requires DistinctMoves(moves) && Aligned(moves, ss) && i < |moves|
    ensures Watch(token, ss, moves[i].key, c) == SetState(ss, i, StateAfterMonitor(token, moves[i].key, ss[i].state, c))
  {
    KeyIsFirst(moves, ss, i);
    if moves[i].key in c.observed {
      UpsertAt(ss, moves[i].key, StateOf(MoveProgressOf(token, c.observed[moves[i].key])), i);
    }
  }

  /** The first n states of ts are those in `now`, the others as in ss. */
  predicate Replaced(ss: seq<MoveStatus>, n: nat, now: seq<MoveState>, ts: seq<MoveStatus>) {
    && n <= |ss| == |ts| == |now|
    && forall i :: 0 <= i < |ss| ==> ts[i] == MoveStatus(ss[i].key, if i < n then now[i] else ss[i].state)
  }

  lemma ReplaceOne(ss: seq<MoveStatus>, n: nat, now: seq<MoveState>, ts: seq<MoveStatus>)
    requires Replaced(ss, n, now, ts) && n < |ss|
    ensures Replaced(ss, n + 1, now, SetState(ts, n, now[n]))
  {
  }

  function AfterIntents(moves: seq<Move>, ss: seq<MoveStatus>, c: PlanCalls): (now: seq<MoveState>)
    requires |moves| == |ss|
    ensures |now| == |ss| && forall i :: 0 <= i < |ss| ==> now[i] == StateAfterIntent(moves[i].key, ss[i].state, c)
  {
    seq(|ss|, i requires 0 <= i < |ss| => StateAfterIntent(moves[i].key, ss[i].state, c))
  }

  lemma {:induction false} ExecutedPointwise(moves: seq<Move>, n: nat, ss: seq<MoveStatus>, c: PlanCalls)
    requires n <= |moves| && DistinctMoves(moves) && Aligned(moves, ss)
    ensures Replaced(ss, n, AfterIntents(moves, ss, c), Executed(moves[..n], ss, c))
  {
    if n > 0 {
      var before := Executed(moves[..n - 1], ss, c);
      assert moves[..n][..n - 1] == moves[..n - 1];
      ExecutedPointwise(moves, n - 1, ss, c);
      IntendAt(moves, before, n - 1, c);
      ReplaceOne(ss, n - 1, AfterIntents(moves, ss, c), before);
    }
  }

  function AfterWatching(token: string, moves: seq<Move>, ss: seq<MoveStatus>, c: PlanCalls): (now: seq<MoveState>)
    requires |moves| == |ss|
    ensures |now| == |ss| && forall i :: 0 <= i < |ss| ==> now[i] == StateAfterMonitor(token, moves[i].key, ss[i].state, c)
  {
    seq(|ss|, i requires 0 <= i < |ss| => StateAfterMonitor(token, moves[i].key, ss[i].state, c))
  }

  lemma {:induction false} MonitoredPointwise(token: string, moves: seq<Move>, n: nat, ss: seq<MoveStatus>, c: PlanCalls)
    requires n <= |moves| && DistinctMoves(moves) && Aligned(moves, ss)
    ensures Replaced(ss, n, AfterWatching(token, moves, ss, c), Monitored(token, moves[..n], ss, c))
  {
    if n > 0 {
      var before := Monitored(token, moves[..n - 1], ss, c);
      assert moves[..n][..n - 1] == moves[..n - 1];
      MonitoredPointwise(token, moves, n - 1, ss, c);
      WatchAt(token, moves, before, n - 1, c);
      ReplaceOne(ss, n - 1, AfterWatching(token, moves, ss, c), before);
    }
  }

  /** The state of move i after one pass: first its intent, then, unless the plan has timed out, what its
      binding shows. */
  function StateAfterPass(plan: Plan, s: PlanState, c: PlanCalls, k: MoveKey, st: MoveState): MoveState {
    var st1 := StateAfterIntent(k, st, c);
    if s.started && c.timedOut then st1 else StateAfterMonitor(plan.token, k, st1, c)
  }

  /** What one pass of an executing plan does to each move is a function of that move's binding and writes. */
  lemma PassMovesPointwise(plan: Plan, s: PlanState, c: PlanCalls)
    requires DistinctMoves(plan.moves) && Aligned(plan.moves, s.statuses)
    ensures Aligned(plan.moves, Worked(plan, s, c).statuses)
    ensures forall i :: 0 <= i < |plan.moves| ==>
              Worked(plan, s, c).statuses[i].state == StateAfterPass(plan, s, c, plan.moves[i].key, s.statuses[i].state)
  {
    var moves := plan.moves;
    assert moves[..|moves|] == moves;
    ExecutedPointwise(moves, |moves|, s.statuses, c);
    MonitoredPointwise(plan.token, moves, |moves|, Executed(moves, s.statuses, c), c);
  }

  // ------------------------------------------------------------------ counting

  lemma {:induction false} CountsAddUp(ss: seq<MoveStatus>)
    ensures var m := SummaryOf(ss); m.succeeded + m.failed + m.pending == m.total == |ss|
  {
    if ss != [] {
      CountsAddUp(ss[..|ss| - 1]);
      match ss[|ss| - 1].state
      case MovePending =>
      case MoveInProgress =>
      case MoveSucceeded =>
      case MoveFailure =>
    }
  }

  lemma {:induction false} CountZero(ss: seq<MoveStatus>, states: set<MoveState>)
    ensures CountOf(ss, states) == 0 <==> forall i :: 0 <= i < |ss| ==> ss[i].state !in states
  {
    if ss != [] {
      CountZero(ss[..|ss| - 1], states);
    }
  }

  // ------------------------------------------------------------------ every run

  function Runs(plan: Plan, s: PlanState, cs: seq<PlanCalls>): PlanState {
    if cs == [] then s else Passed(plan, Runs(plan, s, cs[..|cs| - 1]), cs[|cs| - 1])
  }

  predicate Fresh(s: PlanState) {
    s.phase in {NoPhase, PlanPending} && !s.started && s.statuses == [] && s.summary == Summary(0, 0, 0, 0) && !s.completed
  }

  predicate PlanOk(plan: Plan, s: PlanState) {
    && s.phase != Terminating
    && (s.statuses == [] || Aligned(plan.moves, s.statuses))
    && (s.started ==> Aligned(plan.moves, s.statuses))
    && s.summary.succeeded + s.summary.failed + s.summary.pending == s.summary.total
    && s.summary.total in {0, |plan.moves|}
    && (s.phase in {NoPhase, PlanPending} ==> !s.started && s.statuses == [])
    && (s.phase !in {NoPhase, PlanPending} ==> DesiredPhase(plan.strategy) == Executing)
    && (s.phase.Final() <==> s.completed)
    && (s.phase.Final() ==>
          && s.started && SummaryOf(s.statuses).pending == 0
          && s.phase == Verdict(SummaryOf(s.statuses)))
  }

  lemma ConvergeKeepsOk(plan: Plan, s: PlanState, c: PlanCalls)
    requires PlanOk(plan, s) && s.phase == Executing && s.started
    ensures PlanOk(plan, Converged(plan, s, c))
  {
    CountsAddUp(s.statuses);
  }

  lemma IntendedKeepsOk(plan: Plan, s: PlanState, c: PlanCalls)
    requires DistinctMoves(plan.moves) && PlanOk(plan, s) && s.phase == Executing && s.started
    ensures PlanOk(plan, Intended(plan, s, c))
    ensures Intended(plan, s, c).phase == Executing && Intended(plan, s, c).started
  {
    assert plan.moves[..|plan.moves|] == plan.moves;
    ExecutedPointwise(plan.moves, |plan.moves|, s.statuses, c);
    CountsAddUp(Executed(plan.moves, s.statuses, c));
  }

  lemma WatchKeepsOk(plan: Plan, s: PlanState, c: PlanCalls)
    requires DistinctMoves(plan.moves) && PlanOk(plan, s) && s.phase == Executing && s.started
    ensures PlanOk(plan, Watched(plan, s, c))
  {
    var moves := plan.moves;
    assert moves[..|moves|] == moves;
    MonitoredPointwise(plan.token, moves, |moves|, s.statuses, c);
    ConvergeKeepsOk(plan, s, c);
    ConvergeKeepsOk(plan, s.(statuses := Monitored(plan.token, moves, s.statuses, c)), c);
  }

  lemma WorkKeepsOk(plan: Plan, s: PlanState, c: PlanCalls)
    requires DistinctMoves(plan.moves) && PlanOk(plan, s) && s.phase == Executing && s.started
    ensures PlanOk(plan, Worked(plan, s, c))
  {
    IntendedKeepsOk(plan, s, c);
    WatchKeepsOk(plan, Intended(plan, s, c), c);
  }

  lemma BegunIsOk(plan: Plan, s: PlanState)
    requires PlanOk(plan, s) && s.phase == Executing
    ensures PlanOk(plan, Begun(plan, s)) && Begun(plan, s).phase == Executing && Begun(plan, s).started
    ensures Aligned(plan.moves, Begun(plan, s).statuses)
  {
  }

  lemma PassKeepsOk(plan: Plan, s: PlanState, c: PlanCalls)
    requires DistinctMoves(plan.moves) && PlanOk(plan, s)
    ensures PlanOk(plan, Passed(plan, s, c))
  {
    if !s.phase.Terminal() && DesiredPhase(plan.strategy) == Executing {
      var s1 := s.(phase := Executing);
      BegunIsOk(plan, s1);
      WorkKeepsOk(plan, Begun(plan, s1), c);
    }
  }

  lemma {:induction false} RunKeepsOk(plan: Plan, s: PlanState, cs: seq<PlanCalls>)
    requires DistinctMoves(plan.moves) && Fresh(s)
    ensures PlanOk(plan, Runs(plan, s, cs))
  {
    if cs != [] {
      RunKeepsOk(plan, s, cs[..|cs| - 1]);
      PassKeepsOk(plan, Runs(plan, s, cs[..|cs| - 1]), cs[|cs| - 1]);
    }
  }

  /** The pass gets as far as working on the moves. */
  predicate Works(plan: Plan, s: PlanState, c: PlanCalls) {
    && !s.phase.Terminal() && DesiredPhase(plan.strategy) == Executing
    && (s.phase == Executing || c.phasePatch == Acked)
    && (Begun(plan, s) == s || c.initPatch == Acked)
  }

  /** Some pass of the run that worked on the moves wrote the summary. */
  predicate SummaryWritten(plan: Plan, s0: PlanState, cs: seq<PlanCalls>) {
    cs != [] &&
    (var before, c := cs[..|cs| - 1], cs[|cs| - 1];
     SummaryWritten(plan, s0, before) ||
     (Works(plan, Runs(plan, s0, before), c) && (c.executeSummary || c.convergeSummary)))
  }

  /** The counters cover all moves. */
  predicate Counted(plan: Plan, s: PlanState) { s.summary.total == |plan.moves| }

  lemma WatchCounts(plan: Plan, s: PlanState, c: PlanCalls)
    requires DistinctMoves(plan.moves) && PlanOk(plan, s) && s.phase == Executing && s.started
    ensures c.convergeSummary ==> Watched(plan, s, c).summary == SummaryOf(Watched(plan, s, c).statuses)
    ensures Counted(plan, s) || c.convergeSummary ==> Counted(plan, Watched(plan, s, c))
  {
    assert plan.moves[..|plan.moves|] == plan.moves;
    MonitoredPointwise(plan.token, plan.moves, |plan.moves|, s.statuses, c);
  }

  lemma WorkCounts(plan: Plan, s: PlanState, c: PlanCalls)
    requires DistinctMoves(plan.moves) && PlanOk(plan, s) && s.phase == Executing && s.started
    ensures c.convergeSummary ==> Worked(plan, s, c).summary == SummaryOf(Worked(plan, s, c).statuses)
    ensures Counted(plan, s) || c.executeSummary || c.convergeSummary ==> Counted(plan, Worked(plan, s, c))
  {
    assert plan.moves[..|plan.moves|] == plan.moves;
    ExecutedPointwise(plan.moves, |plan.moves|, s.statuses, c);
    IntendedKeepsOk(plan, s, c);
    WatchCounts(plan, Intended(plan, s, c), c);
  }

  lemma PassCounts(plan: Plan, s: PlanState, c: PlanCalls)
    requires DistinctMoves(plan.moves) && PlanOk(plan, s)
    ensures Counted(plan, s) || (Works(plan, s, c) && (c.executeSummary || c.convergeSummary)) ==> Counted(plan, Passed(plan, s, c))
    ensures Works(plan, s, c) && c.convergeSummary ==> Passed(plan, s, c).summary == SummaryOf(Passed(plan, s, c).statuses)
  {
    if !s.phase.Terminal() && DesiredPhase(plan.strategy) == Executing {
      var s1 := s.(phase := Executing);
      BegunIsOk(plan, s1);
      WorkCounts(plan, Begun(plan, s1), c);
    }
  }

  lemma {:induction false} WrittenIsCounted(plan: Plan, s0: PlanState, cs: seq<PlanCalls>)
    requires DistinctMoves(plan.moves) && Fresh(s0)
    ensures SummaryWritten(plan, s0, cs) ==> Counted(plan, Runs(plan, s0, cs))
  {
    if cs != [] {
      var before := cs[..|cs| - 1];
      WrittenIsCounted(plan, s0, before);
      RunKeepsOk(plan, s0, before);
      PassCounts(plan, Runs(plan, s0, before), cs[|cs| - 1]);
    }
  }

  /** Once a plan has started, its statuses mirror its moves one to one and in order.  Once the summary has been
      written it counts every move, in every later state; and after a pass whose last summary write takes
      effect it is what the statuses say. */
  lemma StatusesMirrorMoves(plan: Plan, s0: PlanState, cs: seq<PlanCalls>)
    requires DistinctMoves(plan.moves) && Fresh(s0)
    ensures var s := Runs(plan, s0, cs);
            && (s.started ==> Aligned(plan.moves, s.statuses))
            && s.summary.succeeded + s.summary.failed + s.summary.pending == s.summary.total
            && (SummaryWritten(plan, s0, cs) ==> s.summary.total == |plan.moves|)
    ensures forall c :: Works(plan, Runs(plan, s0, cs), c) && c.convergeSummary ==>
              var s := Passed(plan, Runs(plan, s0, cs), c); s.summary == SummaryOf(s.statuses)
  {
    RunKeepsOk(plan, s0, cs);
    WrittenIsCounted(plan, s0, cs);
    var s := Runs(plan, s0, cs);
    forall c | Works(plan, s, c) && c.convergeSummary ensures Passed(plan, s, c).summary == SummaryOf(Passed(plan, s, c).statuses) {
      PassCounts(plan, s, c);
    }
  }

  /** The phase a run ends in is dictated by the move states: final phases are reached only when every
      move is terminal, and they tell all-succeeded, all-failed and mixed apart. */
  lemma FinalPhaseIsDictated(plan: Plan, s0: PlanState, cs: seq<PlanCalls>)
    requires DistinctMoves(plan.moves) && Fresh(s0)
    ensures var s := Runs(plan, s0, cs);
            s.phase == PlanSucceeded || s.phase == PlanFailed || s.phase == PartiallyFailed ==>
              && |s.statuses| == |plan.moves|
              && (forall i :: 0 <= i < |s.statuses| ==> s.statuses[i].state in {MoveSucceeded, MoveFailure})
              && (s.phase == PlanSucceeded <==> forall i :: 0 <= i < |s.statuses| ==> s.statuses[i].state == MoveSucceeded)
              && (s.phase == PlanFailed <==>
                  |plan.moves| > 0 && forall i :: 0 <= i < |s.statuses| ==> s.statuses[i].state == MoveFailure)
  {
    var s := Runs(plan, s0, cs);
    RunKeepsOk(plan, s0, cs);
    if s.phase.Final() {
      CountZero(s.statuses, {MovePending, MoveInProgress});
      CountZero(s.statuses, {MoveFailure});
      CountZero(s.statuses, {MoveSucceeded});
      forall i | 0 <= i < |s.statuses| ensures s.statuses[i].state in {MoveSucceeded, MoveFailure} {
        assert s.statuses[i].state !in {MovePending, MoveInProgress};
        match s.statuses[i].state
        case MovePending =>
        case MoveInProgress =>
        case MoveSucceeded =>
        case MoveFailure =>
      }
      if |plan.moves| > 0 {
        assert s.statuses[0].state in {MoveSucceeded, MoveFailure};
      }
    }
  }

  /** Nothing a later pass does changes a plan in a terminal phase. */
  lemma {:induction false} TerminalIsAbsorbing(plan: Plan, s: PlanState, cs: seq<PlanCalls>)
    requires s.phase in {PlanSucceeded, PlanFailed, PartiallyFailed, Terminating}
    ensures Runs(plan, s, cs) == s
  {
    if cs != [] {
      TerminalIsAbsorbing(plan, s, cs[..|cs| - 1]);
    }
  }

  /** Preview plans and plans with an unknown strategy never touch a move. */
  lemma {:induction false} PreviewNeverStarts(plan: Plan, s: PlanState, cs: seq<PlanCalls>)
    requires Fresh(s) && plan.strategy in {Preview, UnknownStrategy}
    ensures !Runs(plan, s, cs).started && Runs(plan, s, cs).statuses == []
    ensures Runs(plan, s, cs).phase in {s.phase, PlanPending}
  {
    if cs != [] {
      PreviewNeverStarts(plan, s, cs[..|cs| - 1]);
    }
  }

  // ------------------------------------------------------------------ request tokens

  function TrimLeft(s: string): string {
    if s != [] && s[0] == '/' then TrimLeft(s[1..]) else s
  }

  function TrimRight(s: string): string {
    if s != [] && s[|s| - 1] == '/' then TrimRight(s[..|s| - 1]) else s
  }

  /** The token a plan writes into the bindings it moves: namespace/policy/plan, then # and the plan's UID
      when it has one.  Labels, when set, override namespace and policy name. */
  function RequestToken(planNamespace: string, summaryPolicy: string, nsLabel: string, policyLabel: string,
                        name: string, uid: string): string {
    var ns := if nsLabel != "" then nsLabel else planNamespace;
    var policy := if policyLabel != "" then policyLabel else summaryPolicy;
    var tok := TrimRight(TrimLeft(ns + "/" + policy + "/" + name));
    if uid != "" then tok + "#" + uid else tok
  }

  lemma HashSuffixesDiffer(s: string, t: string, u: string, v: string)
    requires '#' !in u && '#' !in v && u != v
    ensures s + "#" + u != t + "#" + v
  {
    var a, b := s + "#" + u, t + "#" + v;
    if |u| == |v| {
      assert a[|a| - |u|..] == u && b[|b| - |v|..] == v;
    } else if |u| < |v| {
      assert a[|a| - 1 - |u|] == '#' && b[|b| - 1 - |u|] == v[|v| - 1 - |u|];
    } else {
      assert b[|b| - 1 - |v|] == '#' && a[|a| - 1 - |v|] == u[|u| - 1 - |v|];
    }
  }

  /** Plans with different UIDs never share a token, whatever their names and labels, and a plan with a
      UID never has the empty token, which would match every binding. */
  lemma TokensIdentifyPlans(n1: string, s1: string, nl1: string, pl1: string, name1: string, uid1: string,
                            n2: string, s2: string, nl2: string, pl2: string, name2: string, uid2: string)
    requires uid1 != "" && uid2 != "" && uid1 != uid2 && '#' !in uid1 && '#' !in uid2
    ensures RequestToken(n1, s1, nl1, pl1, name1, uid1) != RequestToken(n2, s2, nl2, pl2, name2, uid2)
    ensures RequestToken(n1, s1, nl1, pl1, name1, uid1) != ""
  {
    var ns := if nl1 != "" then nl1 else n1;
    var ms := if nl2 != "" then nl2 else n2;
    var p := if pl1 != "" then pl1 else s1;
    var q := if pl2 != "" then pl2 else s2;
    HashSuffixesDiffer(TrimRight(TrimLeft(ns + "/" + p + "/" + name1)),
                       TrimRight(TrimLeft(ms + "/" + q + "/" + name2)), uid1, uid2);
  }

  lemma {:induction false} TrimLeavesInner(s: string)
    requires s != "" && s[0] != '/' && s[|s| - 1] != '/'
    ensures TrimLeft(s) == s && TrimRight(s) == s
  {
  }

  /** The token of a plan: policy namespace, policy and plan, and the plan's UID when it has one; labels, when set, say
      which policy it is. */
  lemma TokenExactly(planNamespace: string, summaryPolicy: string, nsLabel: string, policyLabel: string, name: string, uid: string)
    requires var ns := if nsLabel == "" then planNamespace else nsLabel; ns != "" && ns[0] != '/'
    requires name != "" && name[|name| - 1] != '/'
    ensures RequestToken(planNamespace, summaryPolicy, nsLabel, policyLabel, name, uid) ==
            (if nsLabel == "" then planNamespace else nsLabel) + "/" + (if policyLabel == "" then summaryPolicy else policyLabel) + "/" + name
            + (if uid == "" then "" else "#" + uid)
  {
    var ns := if nsLabel == "" then planNamespace else nsLabel;
    var policy := if policyLabel == "" then summaryPolicy else policyLabel;
    var tok := ns + "/" + policy + "/" + name;
    assert tok[0] == ns[0] && tok[|tok| - 1] == name[|name| - 1];
    TrimLeavesInner(tok);
    assert tok + "" == tok;
    assert tok + ("#" + uid) == tok + "#" + uid;
  }

  /** A separator that occurs in neither first part tells two pairs apart. */
  lemma PartsAreTold(a: string, b: string, c: string, d: string, sep: char)
    requires sep !in a && sep !in c && a + [sep] + b == c + [sep] + d
    ensures a == c && b == d
  {
    var s, t := a + [sep] + b, c + [sep] + d;
    assert s[|a|] == sep && forall k :: 0 <= k < |a| ==> s[k] == a[k] != sep;
    assert t[|c|] == sep && forall k :: 0 <= k < |c| ==> t[k] == c[k] != sep;
    assert s[..|a|] == a && t[..|c|] == c && s[|a| + 1..] == b && t[|c| + 1..] == d;
  }

  /** Plain names, as of objects in Kubernetes, have neither separator in them. */
  predicate Plain(s: string) { '/' !in s && '#' !in s }

  /** Also without UIDs the tokens of plans with plain names are equal exactly when namespaces, policies and plan names
      are. */
  lemma TokensEqualIff(n1: string, p1: string, name1: string, n2: string, p2: string, name2: string)
    requires Plain(n1) && Plain(p1) && Plain(name1) && Plain(n2) && Plain(p2) && Plain(name2)
    requires n1 != "" && n2 != "" && name1 != "" && name2 != ""
    ensures RequestToken(n1, p1, "", "", name1, "") == RequestToken(n2, p2, "", "", name2, "") <==> n1 == n2 && p1 == p2 && name1 == name2
  {
    assert n1[0] in n1 && n2[0] in n2 && name1[|name1| - 1] in name1 && name2[|name2| - 1] in name2;
    TokenExactly(n1, p1, "", "", name1, "");
    TokenExactly(n2, p2, "", "", name2, "");
    if RequestToken(n1, p1, "", "", name1, "") == RequestToken(n2, p2, "", "", name2, "") {
      var x, y := p1 + "/" + name1, p2 + "/" + name2;
      assert n1 + "/" + p1 + "/" + name1 + "" == n1 + ['/'] + x && n2 + "/" + p2 + "/" + name2 + "" == n2 + ['/'] + y;
      PartsAreTold(n1, x, n2, y, '/');
      assert x == p1 + ['/'] + name1 && y == p2 + ['/'] + name2;
      PartsAreTold(p1, name1, p2, name2, '/');
    }
  }
}
