/**
 The scheduling half of topology-aware next fit: the cyclic scan from the cursor, and the pass that
 places the Pending replicas of one GlobalDeployment.
 */
module NextFit {
  import opened Prelude

  datatype OrderedNode = OrderedNode(cluster: string, name: string, ready: bool, freeCpu: int, freeMem: int)

  datatype Request = Request(cpu: int, mem: int)

  predicate Fits(n: OrderedNode, req: Request) {
    (req.cpu == 0 && req.mem == 0) || (n.freeCpu >= req.cpu && n.freeMem >= req.mem)
  }

  /** The request asks for anything at all. */
  predicate Asks(req: Request) {
    req.cpu != 0 || req.mem != 0
  }

  predicate Usable(n: OrderedNode, req: Request) {
    n.ready && Fits(n, req)
  }

  /** How many steps after the position following the cursor the cyclic scan reaches position p. */
  function Steps(n: nat, cursor: nat, p: nat): (d: nat)
    requires p < n
    ensures d < n
  {
    var c := cursor % n;
    if p > c then p - c - 1 else p + n - c - 1
  }

  /** p is the usable position the cyclic scan from the cursor meets first. */
  predicate IsNext(order: seq<OrderedNode>, req: Request, cursor: nat, p: nat) {
    && p < |order| && Usable(order[p], req)
    && forall q :: 0 <= q < |order| && Usable(order[q], req) ==> Steps(|order|, cursor, p) <= Steps(|order|, cursor, q)
  }

  predicate AnyUsable(order: seq<OrderedNode>, req: Request) {
    exists q :: 0 <= q < |order| && Usable(order[q], req)
  }

  lemma MulBounds(k: int, n: nat)
    ensures k >= 1 ==> k * n >= n
    ensures k <= -1 ==> k * n <= -(n as int)
  {
    if k >= 1 {
      assert (k - 1) * n >= 0;
    } else if k <= -1 {
      assert (-k - 1) * n >= 0;
    }
  }

  lemma UniqueRemainder(y: int, q: int, r: int, n: nat)
    requires n > 0 && 0 <= r < n && y == q * n + r
    ensures y % n == r
  {
    var q1, r1 := y / n, y % n;
    assert (q - q1) * n == r1 - r;
    MulBounds(q - q1, n);
  }

  /** The i-th position of the scan is i steps away. */
  lemma StepsOf(n: nat, cursor: nat, i: nat)
    requires i < n
    ensures Steps(n, cursor, (cursor + 1 + i) % n) == i
  {
    var k, c := cursor / n, cursor % n;
    var y := c + 1 + i;
    assert cursor == k * n + c;
    if y < n {
      UniqueRemainder(cursor + 1 + i, k, y, n);
    } else {
      assert cursor + 1 + i == (k + 1) * n + (y - n);
      UniqueRemainder(cursor + 1 + i, k + 1, y - n, n);
    }
  }

  method PickNextFit(order: seq<OrderedNode>, cursor: nat, req: Request) returns (pick: Option<nat>)
    ensures pick.Some? ==> IsNext(order, req, cursor, pick.value)
    ensures pick.Some? <==> AnyUsable(order, req)
    ensures pick.Some? ==>
              order[pick.value].ready && (Asks(req) ==> order[pick.value].freeCpu >= req.cpu && order[pick.value].freeMem >= req.mem)
    ensures pick.None? ==> forall n :: n in order && n.ready ==> Asks(req) && (n.freeCpu < req.cpu || n.freeMem < req.mem)
  {
    var n := |order|;
    if n == 0 {
      return None;
    }
    var i := 0;
    while i < n
      invariant 0 <= i <= n
      invariant forall q :: 0 <= q < n && Usable(order[q], req) ==> Steps(n, cursor, q) >= i
    {
      var idx := (cursor + 1 + i) % n;
      StepsOf(n, cursor, i);
      if Usable(order[idx], req) {
        return Some(idx);
      }
      forall q | 0 <= q < n && Usable(order[q], req) ensures Steps(n, cursor, q) >= i + 1 {
        if Steps(n, cursor, q) == i {
          StepsInjective(n, cursor, q, idx);
        }
      }
      i := i + 1;
    }
    return None;
  }

  lemma StepsInjective(n: nat, cursor: nat, p: nat, q: nat)
    requires p < n && q < n && Steps(n, cursor, p) == Steps(n, cursor, q)
    ensures p == q
  {
  }

  // ------------------------------------------------------------------ a scheduling pass

  function CursorAfter(cursor: nat, picks: seq<nat>): nat {
    if picks == [] then cursor else picks[|picks| - 1]
  }

  /** picks are consecutive next-fit picks, the first from the cursor. */
  predicate PickRun(order: seq<OrderedNode>, req: Request, cursor: nat, picks: seq<nat>) {
    picks == [] ||
    (var before := picks[..|picks| - 1];
     PickRun(order, req, cursor, before) && IsNext(order, req, CursorAfter(cursor, before), picks[|picks| - 1]))
  }

  function Chosen(slots: seq<Option<nat>>): seq<nat> {
    if slots == [] then []
    else
      var before := Chosen(slots[..|slots| - 1]);
      match slots[|slots| - 1]
      case None => before
      case Some(p) => before + [p]
  }

  /** What a pass meets when it reads a binding again: nothing, one that is not Pending, or a Pending one whose
      writes go through or not. */
  datatype Sight = Unreadable | Busy | Pending(writable: bool)

  /** The cursor of a deployment; zero when none is stored. */
  function Stored(cursors: map<string, nat>, key: string): nat {
    if key in cursors then cursors[key] else 0
  }

  /** One binding's share of a pass: a slot, or none. */
  predicate SlotFits(b: Sight, slot: Option<nat>, usable: bool) {
    !b.Unreadable? && (slot.Some? <==> b.Pending? && usable) && (slot.Some? ==> b.writable)
  }

  /** Why a pass ends at a binding. */
  predicate EndsPass(b: Sight, usable: bool) {
    b.Unreadable? || (usable && b == Pending(false))
  }

  /** The slots filled so far, the cursor they lead to, and the stored cursors. */
  ghost predicate Progress(order: seq<OrderedNode>, req: Request, key: string, stored: map<string, nat>, slots: seq<Option<nat>>,
                           cursor: nat, cursors: map<string, nat>)
  {
    && PickRun(order, req, Stored(stored, key), Chosen(slots))
    && cursor == CursorAfter(Stored(stored, key), Chosen(slots))
    && cursors == if Chosen(slots) == [] then stored else stored[key := cursor]
  }

  lemma SlotPush(order: seq<OrderedNode>, req: Request, key: string, stored: map<string, nat>, slots: seq<Option<nat>>,
                 cursor: nat, cursors: map<string, nat>, s: Option<nat>)
    requires Progress(order, req, key, stored, slots, cursor, cursors)
    requires s.Some? ==> IsNext(order, req, cursor, s.value)
    ensures s.None? ==> Progress(order, req, key, stored, slots + [s], cursor, cursors)
    ensures s.Some? ==> Progress(order, req, key, stored, slots + [s], s.value, cursors[key := s.value])
  {
    assert (slots + [s])[..|slots|] == slots;
    var picks := Chosen(slots);
    if s.Some? {
      assert (picks + [s.value])[..|picks|] == picks;
      assert stored[key := cursor][key := s.value] == stored[key := s.value];
    }
  }

  class TanfScheduler {
    var cursors: map<string, nat>

    constructor ()
      ensures cursors == map[]
    {
      cursors := map[];
    }

    /** Places the bindings that are Pending, in order.  A failed read or write ends the pass and leaves the
        cursor where the last placement put it. */
    method SchedulePending(key: string, order: seq<OrderedNode>, req: Request, bindings: seq<Sight>)
      returns (slots: seq<Option<nat>>)
      modifies this
      ensures |slots| <= |bindings|
      ensures |slots| < |bindings| ==> EndsPass(bindings[|slots|], AnyUsable(order, req))
      ensures forall i :: 0 <= i < |slots| ==> SlotFits(bindings[i], slots[i], AnyUsable(order, req))
      ensures var first := Stored(old(cursors), key);
              && PickRun(order, req, first, Chosen(slots))
              && cursors == if Chosen(slots) == [] then old(cursors) else old(cursors)[key := CursorAfter(first, Chosen(slots))]
    {
      slots := [];
      var cursor := Stored(cursors, key);
      ghost var usable := AnyUsable(order, req);
      while |slots| < |bindings|
        invariant |slots| <= |bindings|
        invariant forall i :: 0 <= i < |slots| ==> SlotFits(bindings[i], slots[i], usable)
        invariant Progress(order, req, key, old(cursors), slots, cursor, cursors)
        decreases |bindings| - |slots|
      {
        var pick := None;
        match bindings[|slots|] {
          case Unreadable =>
            return;
          case Busy =>
          case Pending(writable) =>
            pick := PickNextFit(order, cursor, req);
            if pick.Some? && !writable {
              return;
            }
        }
        SlotPush(order, req, key, old(cursors), slots, cursor, cursors, pick);
        slots := slots + [pick];
        if pick.Some? {
          cursor := pick.value;
          cursors := cursors[key := cursor];
        }
      }
    }
  }

  // ------------------------------------------------------------------ fairness

  function Times(picks: seq<nat>, p: nat): nat {
    if picks == [] then 0 else Times(picks[..|picks| - 1], p) + (if picks[|picks| - 1] == p then 1 else 0)
  }

  lemma StepsFrom(n: nat, cursor: nat, last: nat, p: nat)
    requires last < n && p < n
    ensures var a, b := Steps(n, cursor, last), Steps(n, cursor, p);
            Steps(n, last, p) == if b > a then b - a - 1 else b - a - 1 + n
  {
    UniqueRemainder(last, 0, last, n);
  }

  /** Usable positions at most o steps from the first cursor have been picked m + 1 times, the usable
      positions beyond it m times, unusable ones never. */
  predicate Level(order: seq<OrderedNode>, req: Request, cursor: nat, picks: seq<nat>, m: nat, o: int) {
    forall p :: 0 <= p < |order| ==>
      Times(picks, p) ==
      if !Usable(order[p], req) then 0
      else if Steps(|order|, cursor, p) <= o then m + 1
      else m
  }

  /** o is how far the last pick is from the first cursor. */
  predicate Reached(n: nat, cursor: nat, picks: seq<nat>, o: int) {
    if picks == [] then o == -1
    else picks[|picks| - 1] < n && o == Steps(n, cursor, picks[|picks| - 1])
  }

  lemma LevelStep(order: seq<OrderedNode>, req: Request, cursor: nat, picks: seq<nat>, m: nat, o: int, q: nat, all: seq<nat>)
    requires Level(order, req, cursor, picks, m, o) && Reached(|order|, cursor, picks, o)
    requires IsNext(order, req, CursorAfter(cursor, picks), q) && all == picks + [q]
    ensures var o1 := Steps(|order|, cursor, q);
            Level(order, req, cursor, all, if o1 > o then m else m + 1, o1) && Reached(|order|, cursor, all, o1)
  {
    var n, o1 := |order|, Steps(|order|, cursor, q);
    assert (picks + [q])[..|picks|] == picks;
    forall p | 0 <= p < n && Usable(order[p], req)
      ensures Times(picks + [q], p) == (if Steps(n, cursor, p) <= o1 then 1 else 0) + (if o1 > o then m else m + 1)
    {
      assert Steps(n, CursorAfter(cursor, picks), q) <= Steps(n, CursorAfter(cursor, picks), p);
      if picks != [] {
        StepsFrom(n, cursor, picks[|picks| - 1], p);
        StepsFrom(n, cursor, picks[|picks| - 1], q);
      }
      if Steps(n, cursor, p) == o1 {
        StepsInjective(n, cursor, p, q);
      }
    }
  }

  lemma {:induction false} RunIsLevel(order: seq<OrderedNode>, req: Request, cursor: nat, picks: seq<nat>)
    returns (m: nat, o: int)
    requires PickRun(order, req, cursor, picks)
    ensures Level(order, req, cursor, picks, m, o) && Reached(|order|, cursor, picks, o)
  {
    if picks == [] {
      return 0, -1;
    }
    var before, q := picks[..|picks| - 1], picks[|picks| - 1];
    m, o := RunIsLevel(order, req, cursor, before);
    LevelStep(order, req, cursor, before, m, o, q, picks);
    m, o := if Steps(|order|, cursor, q) > o then m else m + 1, Steps(|order|, cursor, q);
  }

  /** However many replicas a run of picks places, and wherever the cursor started, two usable nodes are
      picked equally often up to one, and no unusable node is picked. */
  lemma PicksAreFair(order: seq<OrderedNode>, req: Request, cursor: nat, picks: seq<nat>, p: nat, q: nat)
    requires PickRun(order, req, cursor, picks) && p < |order| && q < |order|
    ensures Usable(order[p], req) && Usable(order[q], req) ==> Times(picks, p) <= Times(picks, q) + 1
    ensures !Usable(order[p], req) ==> Times(picks, p) == 0
  {
    var m, o := RunIsLevel(order, req, cursor, picks);
    assert Level(order, req, cursor, picks, m, o);
  }

  /** No pick is lost: the pick counts over all positions add up to the number of replicas placed. */
  lemma {:induction false} PicksAddUp(order: seq<OrderedNode>, req: Request, cursor: nat, picks: seq<nat>)
    requires PickRun(order, req, cursor, picks)
    ensures SumTimes(picks, |order|) == |picks|
  {
    if picks == [] {
      SumOfNone(|order|);
    } else {
      var before := picks[..|picks| - 1];
      PicksAddUp(order, req, cursor, before);
      SumOneMore(picks, |order|);
    }
  }

  function SumTimes(picks: seq<nat>, n: nat): nat {
    if n == 0 then 0 else SumTimes(picks, n - 1) + Times(picks, n - 1)
  }

  lemma SumOfNone(n: nat)
    ensures SumTimes([], n) == 0
  {
  }

  lemma {:induction false} SumOneMore(picks: seq<nat>, n: nat)
    requires picks != []
    ensures SumTimes(picks, n) == SumTimes(picks[..|picks| - 1], n) + (if picks[|picks| - 1] < n then 1 else 0)
  {
    if n > 0 {
      SumOneMore(picks, n - 1);
    }
  }

  // ------------------------------------------------------------------ what a pick means

  /** The position that many steps behind the one after the cursor, going round. */
  function Behind(n: nat, cursor: nat, steps: nat): (p: nat)
    requires n > 0
    ensures p < n
  {
    (cursor + 1 + steps) % n
  }

  lemma BehindSteps(n: nat, cursor: nat, steps: nat)
    requires steps < n
    ensures Steps(n, cursor, Behind(n, cursor, steps)) == steps
    ensures forall q :: 0 <= q < n && Steps(n, cursor, q) == steps ==> q == Behind(n, cursor, steps)
  {
    StepsOf(n, cursor, steps);
    forall q | 0 <= q < n && Steps(n, cursor, q) == steps ensures q == Behind(n, cursor, steps) {
      StepsInjective(n, cursor, q, Behind(n, cursor, steps));
    }
  }

  /** The pick is the first usable position behind the cursor, going round. */
  lemma NextExactly(order: seq<OrderedNode>, req: Request, cursor: nat, d: nat)
    requires d < |order|
    ensures IsNext(order, req, cursor, Behind(|order|, cursor, d)) <==>
            && Usable(order[Behind(|order|, cursor, d)], req)
            && forall e :: 0 <= e < d ==> !Usable(order[Behind(|order|, cursor, e)], req)
  {
    var n := |order|;
    BehindSteps(n, cursor, d);
    if forall e :: 0 <= e < d ==> !Usable(order[Behind(n, cursor, e)], req) {
      forall q | 0 <= q < n && Usable(order[q], req) ensures d <= Steps(n, cursor, q) {
        BehindSteps(n, cursor, Steps(n, cursor, q));
      }
    } else {
      var e :| 0 <= e < d && Usable(order[Behind(n, cursor, e)], req);
      BehindSteps(n, cursor, e);
    }
  }

  /** What it means that a node can take a replica. */
  lemma UsableExactly(n: OrderedNode, req: Request)
    ensures Usable(n, req) <==> n.ready && ((req.cpu == 0 && req.mem == 0) || (req.cpu <= n.freeCpu && req.mem <= n.freeMem))
  {
  }

  /** A deployment without a stored cursor starts as if its first node had just been picked: its second node is the first
      to be tried. */
  lemma FreshStartsBehindFirst(order: seq<OrderedNode>, req: Request, key: string, cursors: map<string, nat>)
    requires key !in cursors && order != []
    requires Usable(order[1 % |order|], req)
    ensures IsNext(order, req, Stored(cursors, key), 1 % |order|)
  {
    NextExactly(order, req, 0, 0);
  }
}
