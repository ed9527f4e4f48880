/**
 The lease that lets one OptimizationPolicy at a time be active: create, renew, or take over after the
 holder has not renewed for longer than the lease duration.  Times are integers of one clock.
 */
module PolicyLease {
  import opened Prelude

  datatype Lease = NoLease | Lease(holder: string, renewed: int, renewKnown: bool, duration: int)

  /** One attempt: policy `who` at time `at`, with the outcome of its write (readable: the lease could be
      fetched at all). */
  datatype Attempt = Attempt(who: string, at: int, readable: bool, write: Fate)

  predicate Expired(l: Lease, now: int)
    requires l.Lease?
  {
    !l.renewKnown || now - l.renewed > l.duration
  }

  /** Whether the attempt writes the lease: nothing there yet, its own, or expired. */
  predicate Writes(l: Lease, a: Attempt) {
    a.readable && a.write != Refused && (l.NoLease? || l.holder == a.who || Expired(l, a.at))
  }

  predicate Succeeds(l: Lease, a: Attempt) {
    Writes(l, a) && a.write == Acked
  }

  function After(l: Lease, a: Attempt, duration: int): Lease {
    if Writes(l, a) then Lease(a.who, a.at, true, duration) else l
  }

  class LeaseStore {
    var present: bool
    var holder: string
    var renewed: int
    var renewKnown: bool
    var duration: int
    const leaseDuration: int

    function View(): Lease reads this {
      if present then Lease(holder, renewed, renewKnown, duration) else NoLease
    }

    constructor (leaseDuration: int)
      ensures View() == NoLease && this.leaseDuration == leaseDuration
    {
      this.leaseDuration := leaseDuration;
      present, holder, renewed, renewKnown, duration := false, "", 0, false, 0;
    }

    method Put(who: string, at: int, write: Fate) returns (ok: bool)
      modifies this
      ensures View() == if write != Refused then Lease(who, at, true, leaseDuration) else old(View())
      ensures ok <==> write == Acked
    {
      if write != Refused {
        present, holder, renewed, renewKnown, duration := true, who, at, true, leaseDuration;
      }
      ok := write == Acked;
    }

    method TryAcquire(a: Attempt) returns (acquired: bool)
      modifies this
      ensures acquired == Succeeds(old(View()), a)
      ensures View() == After(old(View()), a, leaseDuration)
    {
      if !a.readable {
        return false;
      }
      if !present {
        acquired := Put(a.who, a.at, a.write);
        return;
      }
      if holder == a.who {
        acquired := Put(a.who, a.at, a.write);
        return;
      }
      if renewKnown {
        if a.at - renewed <= duration {
          return false;
        }
      }
      acquired := Put(a.who, a.at, a.write);
    }
  }

  // ------------------------------------------------------------------ runs

  /** The lease after the first k attempts. */
  function LeaseAt(l0: Lease, tries: seq<Attempt>, duration: int, k: nat): Lease
    requires k <= |tries|
  {
    if k == 0 then l0 else After(LeaseAt(l0, tries, duration, k - 1), tries[k - 1], duration)
  }

  predicate ClockNeverGoesBack(tries: seq<Attempt>) {
    forall i, j :: 0 <= i < j < |tries| ==> tries[i].at <= tries[j].at
  }

  predicate SucceedsAt(l0: Lease, tries: seq<Attempt>, duration: int, k: nat)
    requires k < |tries|
  {
    Succeeds(LeaseAt(l0, tries, duration, k), tries[k])
  }

  /** After a success, as long as the lease has not changed hands it was last renewed no earlier; once it
      has, more than a full duration has passed since. */
  lemma {:induction false} HeldSince(l0: Lease, tries: seq<Attempt>, duration: int, i: nat, k: nat)
    requires ClockNeverGoesBack(tries) && duration >= 0 && i < k <= |tries| && SucceedsAt(l0, tries, duration, i)
    ensures var l := LeaseAt(l0, tries, duration, k);
            && l.Lease? && l.renewKnown && l.duration == duration
            && tries[i].at <= l.renewed <= tries[k - 1].at
            && (l.holder != tries[i].who ==> l.renewed - tries[i].at > duration)
  {
    if k > i + 1 {
      HeldSince(l0, tries, duration, i, k - 1);
    }
  }

  /** Two successes by different policies are more than one lease duration apart, whatever lies between
      them, including writes that took effect without being acknowledged. */
  lemma SuccessesNeverOverlap(l0: Lease, tries: seq<Attempt>, duration: int, i: nat, j: nat)
    requires ClockNeverGoesBack(tries) && duration >= 0 && i < j < |tries|
    requires SucceedsAt(l0, tries, duration, i) && SucceedsAt(l0, tries, duration, j)
    requires tries[i].who != tries[j].who
    ensures tries[j].at - tries[i].at > duration
  {
    HeldSince(l0, tries, duration, i, j);
  }

  /** Policy `who` succeeds at some attempt from i on before k, no earlier than one duration before time t. */
  ghost predicate RenewedInTime(l0: Lease, tries: seq<Attempt>, duration: int, who: string, i: nat, k: nat, t: int)
    requires k <= |tries|
  {
    exists r :: i <= r < k && tries[r].who == who && t - tries[r].at <= duration && SucceedsAt(l0, tries, duration, r)
  }

  /** Whenever somebody tries after i and before k, the policy that succeeded at i has renewed in time. */
  ghost predicate Diligent(l0: Lease, tries: seq<Attempt>, duration: int, i: nat, k: nat)
    requires i < |tries| && k <= |tries|
  {
    forall j {:trigger RenewedInTime(l0, tries, duration, tries[i].who, i, j, tries[j].at)} ::
      i < j < k ==> RenewedInTime(l0, tries, duration, tries[i].who, i, j, tries[j].at)
  }

  /** While policy `who` holds the lease and has renewed in time, only its own attempts write it. */
  lemma RivalsBlocked(l0: Lease, tries: seq<Attempt>, duration: int, who: string, i: nat, k: nat)
    requires ClockNeverGoesBack(tries) && duration >= 0 && i < k < |tries|
    requires RenewedInTime(l0, tries, duration, who, i, k, tries[k].at)
    requires var l := LeaseAt(l0, tries, duration, k); l.Lease? && l.holder == who
    ensures Writes(LeaseAt(l0, tries, duration, k), tries[k]) ==> tries[k].who == who
  {
    var r :| i <= r < k && tries[r].who == who && tries[k].at - tries[r].at <= duration &&
             SucceedsAt(l0, tries, duration, r);
    HeldSince(l0, tries, duration, r, k);
  }

  lemma {:induction false} HolderStays(l0: Lease, tries: seq<Attempt>, duration: int, i: nat, k: nat)
    requires ClockNeverGoesBack(tries) && duration >= 0 && i < k <= |tries| && SucceedsAt(l0, tries, duration, i)
    requires Diligent(l0, tries, duration, i, k)
    ensures var l := LeaseAt(l0, tries, duration, k); l.Lease? && l.holder == tries[i].who
    decreases k
  {
    if k > i + 1 {
      HolderStays(l0, tries, duration, i, k - 1);
      assert RenewedInTime(l0, tries, duration, tries[i].who, i, k - 1, tries[k - 1].at);
      RivalsBlocked(l0, tries, duration, tries[i].who, i, k - 1);
    }
  }

  /** A holder whose last success is never more than one duration old when somebody tries is not displaced,
      and nobody else succeeds meanwhile. */
  lemma DiligentHolderStays(l0: Lease, tries: seq<Attempt>, duration: int, i: nat, k: nat)
    requires ClockNeverGoesBack(tries) && duration >= 0 && i < k <= |tries| && SucceedsAt(l0, tries, duration, i)
    requires Diligent(l0, tries, duration, i, k)
    ensures var l := LeaseAt(l0, tries, duration, k); l.Lease? && l.holder == tries[i].who
    ensures forall j :: i < j < k && SucceedsAt(l0, tries, duration, j) ==> tries[j].who == tries[i].who
  {
    HolderStays(l0, tries, duration, i, k);
    forall j | i < j < k && SucceedsAt(l0, tries, duration, j) ensures tries[j].who == tries[i].who {
      HolderStays(l0, tries, duration, i, j);
      assert RenewedInTime(l0, tries, duration, tries[i].who, i, j, tries[j].at);
      RivalsBlocked(l0, tries, duration, tries[i].who, i, j);
    }
  }

  /** The bound is tight: one tick after the duration a rival that tries takes over. */
  lemma TakeoverAfterDuration(l: Lease, rival: string, at: int)
    requires l.Lease? && l.renewKnown && l.holder != rival
    ensures Succeeds(l, Attempt(rival, at, true, Acked)) <==> at > l.renewed + l.duration
  {
  }

  // ------------------------------------------------------------------ who gets the lease

  /** Exactly when an attempt succeeds: its read and its write go through, and there is no lease, or it is the policy's
      own, however old, or its last renewal is unknown, or more than its duration ago. */
  lemma SucceedsExactly(l: Lease, a: Attempt)
    ensures l.NoLease? ==> (Succeeds(l, a) <==> a.readable && a.write == Acked)
    ensures l.Lease? && l.holder == a.who ==> (Succeeds(l, a) <==> a.readable && a.write == Acked)
    ensures l.Lease? && l.holder != a.who && !l.renewKnown ==> (Succeeds(l, a) <==> a.readable && a.write == Acked)
    ensures l.Lease? && l.holder != a.who && l.renewKnown ==>
              (Succeeds(l, a) <==> a.readable && a.write == Acked && a.at - l.renewed > l.duration)
  {
  }

  /** What an attempt leaves: its own lease, renewed at its time, when the write takes effect, acknowledged or not; the
      old lease when it is a rival's that has not run out, or when read or write fails. */
  lemma LeavesExactly(l: Lease, a: Attempt, duration: int)
    ensures After(l, a, duration) ==
            if !a.readable || a.write == Refused then l
            else if l.Lease? && l.holder != a.who && l.renewKnown && a.at - l.renewed <= l.duration then l
            else Lease(a.who, a.at, true, duration)
  {
  }

  /** Whoever comes first gets a lease that nobody has: whatever attempts failed before, the first one that can read and
      whose write takes effect makes its policy the holder, and it has succeeded when the write is acknowledged. */
  lemma {:induction false} FirstComesFirst(tries: seq<Attempt>, duration: int, k: nat)
    requires k < |tries| && tries[k].readable && tries[k].write != Refused
    requires forall j :: 0 <= j < k ==> !tries[j].readable || tries[j].write == Refused
    ensures LeaseAt(NoLease, tries, duration, k) == NoLease
    ensures LeaseAt(NoLease, tries, duration, k + 1) == Lease(tries[k].who, tries[k].at, true, duration)
    ensures SucceedsAt(NoLease, tries, duration, k) <==> tries[k].write == Acked
    ensures forall j :: 0 <= j < k ==> !SucceedsAt(NoLease, tries, duration, j)
  {
    NobodyYet(tries, duration, k);
    forall j | 0 <= j < k ensures !SucceedsAt(NoLease, tries, duration, j) {
      NobodyYet(tries, duration, j);
    }
  }

  lemma {:induction false} NobodyYet(tries: seq<Attempt>, duration: int, k: nat)
    requires k <= |tries| && forall j :: 0 <= j < k ==> !tries[j].readable || tries[j].write == Refused
    ensures LeaseAt(NoLease, tries, duration, k) == NoLease
  {
    if k > 0 {
      NobodyYet(tries, duration, k - 1);
    }
  }

  /** Attempt j does nothing to a lease renewed by attempt i: its read or its write fails, or it is a rival's and too early. */
  predicate Fruitless(tries: seq<Attempt>, duration: int, i: nat, j: nat)
    requires i < |tries| && j < |tries|
  {
    || !tries[j].readable || tries[j].write == Refused
    || (tries[j].who != tries[i].who && tries[j].at - tries[i].at <= duration)
  }

  /** A lease that its holder abandons passes on: after the last attempt of the holder that takes effect, the first
      attempt of a rival that goes through more than one duration later succeeds, whatever fails in between. */
  lemma {:induction false} AbandonedPassesOn(l0: Lease, tries: seq<Attempt>, duration: int, i: nat, k: nat)
    requires ClockNeverGoesBack(tries) && duration >= 0 && i < k < |tries| && SucceedsAt(l0, tries, duration, i)
    requires tries[k].who != tries[i].who && tries[k].readable && tries[k].write == Acked
    requires tries[k].at - tries[i].at > duration
    requires forall j :: i < j < k ==> Fruitless(tries, duration, i, j)
    ensures SucceedsAt(l0, tries, duration, k)
  {
    StillHeld(l0, tries, duration, i, k);
  }

  lemma {:induction false} StillHeld(l0: Lease, tries: seq<Attempt>, duration: int, i: nat, k: nat)
    requires ClockNeverGoesBack(tries) && duration >= 0 && i < k <= |tries| && SucceedsAt(l0, tries, duration, i)
    requires forall j :: i < j < k ==> Fruitless(tries, duration, i, j)
    ensures LeaseAt(l0, tries, duration, k) == Lease(tries[i].who, tries[i].at, true, duration)
  {
    if k > i + 1 {
      StillHeld(l0, tries, duration, i, k - 1);
      assert Fruitless(tries, duration, i, k - 1);
    }
  }
}
