/**
 Submitters waiting for a queue slot (`send_command` of `crates/marian-core/src/scheduler.rs`), and the wakeups
 that `Notify` hands to them: first come first served, one stored permit, a wakeup that is dropped unread goes
 to the next waiter.
 */
module Wakeups {
  import opened Base
  import opened Distinct
  import opened Sums

  datatype Key = Key(sourceLang: string, targetLang: string, maxOutputTokens: nat, bucket: nat)

  /** A command carries the number of its submitter. */
  datatype Command = Translate(id: nat, key: Key) | Shutdown(id: nat)

  datatype Refusal = Full | Disconnected

  /**
   Where a submitter stands: about to register, registered but not yet probed, refused by a full queue, parked,
   timed out but still registered, out with the gauge still to be corrected, sent, or gone.
   */
  datatype Phase = Fresh | Registered | Refused | Parked | Expired | Leaving(why: Refusal) | Sent | Left(why: Refusal)

  /** Its registration with `Notify`: none, in the waiting list, woken by a slot, by the stored permit, or by the worker's exit. */
  datatype Flag = Unregistered | Waiting | Woken | Permit | WokenByExit

  /** `credit`: woken in the previous round, and not yet probed since. */
  datatype Submitter = Submitter(command: Command, phase: Phase, flag: Flag, credit: bool)

  datatype Queue = Queue(submitters: seq<Submitter>, waiters: seq<nat>, permit: bool)

  // ---------------------------------------------------------------------------------- what Notify does

  function SetSubmitter(q: Queue, i: nat, x: Submitter): Queue
    requires i < |q.submitters|
  {
    q.(submitters := q.submitters[i := x])
  }

  ghost predicate WaitersOk(q: Queue) {
    && (forall k :: 0 <= k < |q.waiters| ==> q.waiters[k] < |q.submitters| && q.submitters[q.waiters[k]].flag.Waiting?)
    && (forall i :: 0 <= i < |q.submitters| && q.submitters[i].flag.Waiting? ==> i in q.waiters)
    && NoRepeats(q.waiters)
    && (q.permit ==> q.waiters == [])
  }

  ghost predicate PhaseOk(x: Submitter) {
    && (x.flag.Unregistered? <==> x.phase.Fresh? || x.phase.Leaving? || x.phase.Sent? || x.phase.Left?)
    && (x.credit ==> x.phase.Fresh? || x.phase.Registered?)
    && (x.phase.Expired? ==> !x.flag.Permit?)
  }

  ghost predicate QueueOk(q: Queue) {
    WaitersOk(q) && forall i :: 0 <= i < |q.submitters| ==> PhaseOk(q.submitters[i])
  }

  /** `notify_one`: the first waiter, or a stored permit. */
  function NotifyOne(q: Queue): Queue
    requires q.waiters != [] ==> q.waiters[0] < |q.submitters|
  {
    if q.waiters == [] then q.(permit := true)
    else SetSubmitter(q, q.waiters[0], q.submitters[q.waiters[0]].(flag := Woken)).(waiters := q.waiters[1..])
  }

  function Remove(xs: seq<nat>, x: nat): (rest: seq<nat>)
    ensures x !in xs ==> rest == xs
    ensures forall y :: y in rest ==> y in xs
  {
    if xs == [] then [] else if xs[0] == x then Remove(xs[1..], x) else [xs[0]] + Remove(xs[1..], x)
  }

  lemma {:induction false} RemoveFacts(xs: seq<nat>, x: nat)
    requires NoRepeats(xs)
    ensures forall y :: y in Remove(xs, x) <==> y in xs && y != x
    ensures NoRepeats(Remove(xs, x))
  {
    if xs != [] {
      var tail := Remove(xs[1..], x);
      RemoveFacts(xs[1..], x);
      assert NoRepeats(tail) && xs[0] !in xs[1..];
      if xs[0] != x { assert xs[0] !in tail; }
    }
  }

  /** `enable`: takes the stored permit, or joins the waiting list. */
  function Register(q: Queue, i: nat): Queue
    requires i < |q.submitters|
  {
    var x := q.submitters[i].(phase := Registered);
    if q.permit then SetSubmitter(q, i, x.(flag := Permit)).(permit := false)
    else SetSubmitter(q, i, x.(flag := Waiting)).(waiters := q.waiters + [i])
  }

  /** Drops a registration; a wakeup that was never read is passed on. */
  function Drop(q: Queue, i: nat, phase: Phase): Queue
    requires i < |q.submitters| && WaitersOk(q)
  {
    var x := q.submitters[i];
    var dropped := SetSubmitter(q, i, x.(phase := phase, flag := Unregistered, credit := false));
    if x.flag.Waiting? then dropped.(waiters := Remove(q.waiters, i))
    else if x.flag.Woken? then NotifyOne(dropped)
    else dropped
  }

  /** `notify_waiters`. */
  function NotifyAll(q: Queue): Queue {
    Queue(seq(|q.submitters|, i requires 0 <= i < |q.submitters| =>
                var x := q.submitters[i]; if x.flag.Waiting? then x.(flag := WokenByExit) else x),
          [], q.permit)
  }

  lemma NotifyOneKeeps(q: Queue)
    requires QueueOk(q)
    ensures QueueOk(NotifyOne(q)) && |NotifyOne(q).submitters| == |q.submitters|
    ensures forall i :: 0 <= i < |q.submitters| ==> var x, y := q.submitters[i], NotifyOne(q).submitters[i];
              y == x || (x.flag.Waiting? && y == x.(flag := Woken))
  {
  }

  lemma RegisterKeeps(q: Queue, i: nat)
    requires QueueOk(q) && i < |q.submitters| && q.submitters[i].phase.Fresh?
    ensures QueueOk(Register(q, i)) && (AnyStuck(Register(q, i)) ==> AnyStuck(q))
  {
    var after := Register(q, i);
    if !q.permit {
      forall k | 0 <= k < |after.submitters| && after.submitters[k].flag.Waiting? ensures k in after.waiters {
        assert after.waiters[|q.waiters|] == i;
        if k != i { assert k in q.waiters; }
      }
    }
  }

  /** Changing a submitter that is not in the waiting list, and does not join it. */
  lemma SetKeeps(q: Queue, i: nat, x: Submitter)
    requires QueueOk(q) && i < |q.submitters| && PhaseOk(x) && !x.flag.Waiting? && !q.submitters[i].flag.Waiting?
    ensures QueueOk(SetSubmitter(q, i, x))
  {
  }

  lemma UnwaitKeeps(q: Queue, i: nat, x: Submitter)
    requires QueueOk(q) && i < |q.submitters| && PhaseOk(x) && !x.flag.Waiting?
    ensures QueueOk(SetSubmitter(q, i, x).(waiters := Remove(q.waiters, i)))
  {
    RemoveFacts(q.waiters, i);
    var after := SetSubmitter(q, i, x).(waiters := Remove(q.waiters, i));
    forall k | 0 <= k < |after.waiters|
      ensures after.waiters[k] < |after.submitters| && after.submitters[after.waiters[k]].flag.Waiting?
    {
      assert after.waiters[k] in q.waiters;
    }
  }

  lemma DropKeeps(q: Queue, i: nat, phase: Phase)
    requires QueueOk(q) && i < |q.submitters| && !q.submitters[i].flag.Unregistered?
    requires phase.Leaving? || phase.Sent?
    ensures QueueOk(Drop(q, i, phase)) && |Drop(q, i, phase).submitters| == |q.submitters|
    ensures AnyStuck(Drop(q, i, phase)) ==> AnyStuck(q)
  {
    var x := q.submitters[i];
    var y := x.(phase := phase, flag := Unregistered, credit := false);
    if x.flag.Waiting? {
      UnwaitKeeps(q, i, y);
    } else {
      SetKeeps(q, i, y);
      NotifyOneKeeps(SetSubmitter(q, i, y));
      assert AnyStuck(SetSubmitter(q, i, y)) ==> AnyStuck(q);
    }
  }

  lemma NotifyAllKeeps(q: Queue)
    requires QueueOk(q)
    ensures QueueOk(NotifyAll(q))
  {
  }

  // ---------------------------------------------------------------------------------- wakeups in flight

  /** How many slots a submitter is on its way to look at. */
  function Weight(x: Submitter): int {
    match x.flag
    case Unregistered => if x.credit then 1 else 0
    case Waiting => if x.credit then 1 else 0
    case Woken => if x.credit then 2 else 1
    case Permit => 1
    case WokenByExit => 0
  }

  /** Wakeups held by submitters. */
  ghost function Held(q: Queue): int {
    Sum(Weight, q.submitters)
  }

  /** Refused by a full queue and not woken since. */
  predicate Stuck(x: Submitter) {
    (x.phase.Refused? || x.phase.Parked?) && x.flag.Waiting?
  }

  ghost predicate AnyStuck(q: Queue) {
    exists i :: 0 <= i < |q.submitters| && Stuck(q.submitters[i])
  }

  /** No lost wakeup: if anyone is stuck, every free slot has a wakeup in flight. */
  ghost predicate Covered(q: Queue, free: int, owed: int) {
    AnyStuck(q) ==> free <= Held(q) + owed
  }

  lemma NotifyOneCovers(q: Queue, free: int, owed: int)
    requires QueueOk(q) && Covered(q, free, owed + 1)
    ensures Covered(NotifyOne(q), free, owed)
  {
    if q.waiters != [] {
      var i := q.waiters[0];
      SumUpdate(Weight, q.submitters, i, q.submitters[i].(flag := Woken));
      assert AnyStuck(NotifyOne(q)) ==> AnyStuck(q);
    }
  }

  /** A registration adds no stuck submitter; with the permit it takes, nobody is stuck. */
  lemma RegisterCovers(q: Queue, i: nat, free: int, owed: int)
    requires QueueOk(q) && i < |q.submitters| && q.submitters[i].phase.Fresh? && Covered(q, free, owed)
    ensures Covered(Register(q, i), free, owed)
  {
    var after := Register(q, i);
    SumUpdate(Weight, q.submitters, i, after.submitters[i]);
    assert AnyStuck(after) ==> AnyStuck(q);
  }

  /** A submitter that takes a slot gives up at most one wakeup for it. */
  lemma SendCovers(q: Queue, i: nat, free: int, owed: int)
    requires QueueOk(q) && i < |q.submitters| && q.submitters[i].phase.Registered? && Covered(q, free, owed)
    ensures Covered(Drop(q, i, Sent), free - 1, owed)
  {
    DropSum(q, i, Sent, owed, free - 1);
  }

  /** A submitter that gives up passes on a wakeup it never read. */
  lemma LeaveCovers(q: Queue, i: nat, why: Refusal, free: int, owed: int)
    requires QueueOk(q) && i < |q.submitters| && q.submitters[i].phase.Expired? && Covered(q, free, owed)
    ensures Covered(Drop(q, i, Leaving(why)), free, owed)
  {
    DropSum(q, i, Leaving(why), owed, free);
  }

  /** What dropping a registration does to the wakeups in flight. */
  lemma DropSum(q: Queue, i: nat, phase: Phase, owed: int, free: int)
    requires QueueOk(q) && i < |q.submitters| && !q.submitters[i].flag.Unregistered? && (phase.Leaving? || phase.Sent?)
    requires AnyStuck(q) ==> free <= Held(q) + owed - Weight(q.submitters[i]) + if q.submitters[i].flag.Woken? then 1 else 0
    ensures Covered(Drop(q, i, phase), free, owed)
  {
    var x := q.submitters[i];
    var y := x.(phase := phase, flag := Unregistered, credit := false);
    var dropped := SetSubmitter(q, i, y);
    SumUpdate(Weight, q.submitters, i, y);
    assert AnyStuck(dropped) ==> AnyStuck(q);
    if x.flag.Woken? {
      SetKeeps(q, i, y);
      NotifyOneCovers(dropped, free, owed);
    }
  }

  /** A submitter that reads its wakeup carries it into the next round. */
  lemma WakeCovers(q: Queue, i: nat, free: int, owed: int)
    requires QueueOk(q) && i < |q.submitters| && q.submitters[i].phase.Parked? && Covered(q, free, owed)
    requires q.submitters[i].flag.Woken? || q.submitters[i].flag.Permit? || q.submitters[i].flag.WokenByExit?
    ensures Covered(SetSubmitter(q, i, q.submitters[i].(phase := Fresh, flag := Unregistered, credit := true)), free, owed)
  {
    var y := q.submitters[i].(phase := Fresh, flag := Unregistered, credit := true);
    SumUpdate(Weight, q.submitters, i, y);
    assert AnyStuck(SetSubmitter(q, i, y)) ==> AnyStuck(q);
  }

  /** A change of phase alone, towards a phase that is not stuck unless it was. */
  lemma PhaseCovers(q: Queue, i: nat, phase: Phase, free: int, owed: int)
    requires QueueOk(q) && i < |q.submitters| && PhaseOk(q.submitters[i].(phase := phase))
    requires Covered(q, free, owed) && (Stuck(q.submitters[i].(phase := phase)) ==> Stuck(q.submitters[i]))
    ensures Covered(SetSubmitter(q, i, q.submitters[i].(phase := phase)), free, owed)
  {
    var y := q.submitters[i].(phase := phase);
    SumUpdate(Weight, q.submitters, i, y);
    assert AnyStuck(SetSubmitter(q, i, y)) ==> AnyStuck(q);
  }

  lemma PhaseKeeps(q: Queue, i: nat, x: Submitter)
    requires QueueOk(q) && i < |q.submitters| && PhaseOk(x) && x.flag == q.submitters[i].flag
    ensures QueueOk(SetSubmitter(q, i, x))
  {
    var after := SetSubmitter(q, i, x);
    forall k | 0 <= k < |after.submitters| && after.submitters[k].flag.Waiting? ensures k in after.waiters {
      assert q.submitters[k].flag.Waiting?;
    }
  }

  /** The queue was full: there is no free slot to cover. */
  lemma RefusedCovers(q: Queue, owed: nat)
    ensures Covered(q, 0, owed)
  {
    SumNatural(Weight, q.submitters);
  }
}
