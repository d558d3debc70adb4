/**
 The load harness's dispatch loop: a concurrency semaphore, a one-way ramp gate and a set of tasks.

 Wherever the loop awaits, the next of the given moments happens: time passes, the ramp task adds a permit or
 a task in flight finishes. When no moment is left while the loop still waits, the ending is `Cut`.
 */
module LoadDriver {
  import opened Wrappers
  import opened Sets

  /** The number of permits with which a run without ramp opens the gate. */
  const MAX_PERMITS: nat := 0x1FFF_FFFF_FFFF_FFFF

  datatype StopCondition = TotalBundles(n: nat) | SoakDeadline(after: nat)

  /** Finished: the loop ended and every task was joined. Failed: the corpus had no next bundle. */
  datatype Ending = Finished | Failed | Cut

  /** How a turn of the dispatch loop ends: in time, after the deadline, waiting in vain, or without a bundle. */
  datatype Pass = Dispatched | Late | Starved | NoBundle

  datatype Acquired = Permit | TimedOut | Waiting

  /** What may happen while the loop awaits; what cannot happen then is skipped. */
  datatype Moment = Passes(elapsed: nat) | RampWakes | TaskEnds(seqNo: nat)

  /** The time that passes in these moments. */
  function Elapsed(moments: seq<Moment>, from: nat, until: nat): nat
    requires until <= |moments|
  {
    if until <= from then 0
    else Elapsed(moments, from, until - 1) + if moments[until - 1].Passes? then moments[until - 1].elapsed else 0
  }

  lemma {:induction false} ElapsedAdds(moments: seq<Moment>, from: nat, mid: nat, until: nat)
    requires from <= mid <= until <= |moments|
    ensures Elapsed(moments, from, until) == Elapsed(moments, from, mid) + Elapsed(moments, mid, until)
    decreases until
  {
    if mid < until {
      ElapsedAdds(moments, from, mid, until - 1);
    }
  }

  lemma OneMoment(moments: seq<Moment>, from: nat, i: nat)
    requires from <= i < |moments|
    ensures Elapsed(moments, from, from) == 0
    ensures Elapsed(moments, from, i + 1)
            == Elapsed(moments, from, i) + if moments[i].Passes? then moments[i].elapsed else 0
  {
  }

  lemma NoMoment(moments: seq<Moment>, from: nat)
    requires from <= |moments|
    ensures Elapsed(moments, from, from) == 0
  {
  }

  function Max(a: nat, b: nat): nat { if a > b then a else b }

  ghost function UpTo(n: nat): (r: set<nat>)
    ensures |r| == n && forall k: nat :: k in r <==> k < n
  {
    if n == 0 then {} else UpTo(n - 1) + {n - 1}
  }

  ghost predicate Distinct(s: seq<nat>) {
    forall i, j :: 0 <= i < j < |s| ==> s[i] != s[j]
  }

  class Driver {
    const concurrency: nat
    /** The ramp's pause between two permits; without a ramp the gate opens at once. */
    const step: Option<nat>
    const devicePool: nat

    var now: nat
    var slots: nat
    var gate: nat
    /** The permits the gate was given so far. */
    var granted: nat
    var emitted: nat
    var inFlight: set<nat>
    var finished: seq<nat>

    ghost var held: nat
    ghost var passed: nat
    ghost var dispatchedAt: seq<nat>
    /** What the loop is to reach, and for each moment it waited whether it could have dispatched a bundle instead. */
    ghost var goal: Option<StopCondition>
    ghost var idled: seq<bool>

    /** The run is not over: the total is not reached, or the deadline has not passed. */
    ghost predicate Wanted()
      reads this
    {
      match goal
      case None => false
      case Some(TotalBundles(n)) => emitted < n
      case Some(SoakDeadline(after)) => now < after
    }

    /** At none of the moments waited so far could a bundle have been dispatched. */
    ghost predicate NeverIdled(awaited: nat)
      reads this
    {
      |idled| == awaited && true !in idled
    }

    ghost predicate AllBefore(time: nat)
      reads this
    {
      forall k :: 0 <= k < |dispatchedAt| ==> dispatchedAt[k] < time
    }

    ghost predicate Valid()
      reads this
    {
      && slots + |inFlight| + held == concurrency && held <= 1
      && gate + passed == granted && emitted + held <= passed
      && devicePool > 0 && TasksOk()
      && RampOk()
    }

    /** Every sequence number given out so far belongs to exactly one task, running or finished. */
    ghost predicate TasksOk()
      reads this
    {
      && Distinct(finished)
      && (forall k :: k in finished ==> k !in inFlight)
      && (forall k: nat :: k < emitted <==> k in inFlight || k in finished)
      && |finished| + |inFlight| == emitted
    }

    ghost predicate RampOk()
      reads this
    {
      && |dispatchedAt| == emitted
      && (forall k :: 0 <= k < emitted ==> dispatchedAt[k] <= now)
      && (step.Some? ==> (granted > 0 ==> (granted - 1) * step.value <= now)
                         && forall k :: 0 <= k < emitted ==> k * step.value <= dispatchedAt[k])
    }

    constructor (concurrency: nat, ramp: nat, devicePool: nat)
      ensures Valid() && now == 0 && emitted == 0 && held == 0 && this.concurrency == Max(concurrency, 1)
      ensures this.devicePool == Max(devicePool, 1) && gate == if ramp == 0 then MAX_PERMITS else 0
      ensures step == if ramp == 0 then None else Some(ramp / Max(concurrency, 1))
      ensures NeverIdled(0)
    {
      this.concurrency := Max(concurrency, 1);
      this.devicePool := Max(devicePool, 1);
      step := if ramp == 0 then None else Some(ramp / Max(concurrency, 1));
      slots := Max(concurrency, 1);
      gate := if ramp == 0 then MAX_PERMITS else 0;
      granted := if ramp == 0 then MAX_PERMITS else 0;
      now, emitted, inFlight, finished := 0, 0, {}, [];
      held, passed, dispatchedAt, goal, idled := 0, 0, [], None, [];
    }

    /** A task ends and its slot is free again. */
    method FinishTask(k: nat)
      requires Valid() && k in inFlight
      modifies this
      ensures Valid() && emitted == old(emitted) && held == old(held) && passed == old(passed)
      ensures dispatchedAt == old(dispatchedAt) && now == old(now) && goal == old(goal) && idled == old(idled)
      ensures finished == old(finished) + [k] && inFlight == old(inFlight) - {k}
    {
      inFlight := inFlight - {k};
      finished := finished + [k];
      slots := slots + 1;
    }

    /** One moment while the loop awaits. */
    method Await(m: Moment)
      requires Valid()
      modifies this
      ensures Valid() && emitted == old(emitted) && held == old(held) && passed == old(passed)
      ensures dispatchedAt == old(dispatchedAt) && goal == old(goal)
      ensures idled == old(idled) + [old(Wanted() && gate > 0 && slots > 0)]
      ensures slots >= old(slots) && (m.Passes? ==> gate == old(gate) && slots == old(slots))
      ensures now == old(now) + if m.Passes? then m.elapsed else 0
      ensures m.TaskEnds? && m.seqNo in old(inFlight) ==>
                finished == old(finished) + [m.seqNo] && inFlight == old(inFlight) - {m.seqNo}
      ensures m.RampWakes? && step.Some? && old(granted) * step.value <= now ==> gate == old(gate) + 1
    {
      idled := idled + [Wanted() && gate > 0 && slots > 0];
      match m
      case TaskEnds(k) =>
        if k in inFlight {
          FinishTask(k);
        }
      case RampWakes =>
        if step.Some? && granted * step.value <= now {
          // The ramp task adds a permit and goes back to sleep for a step.
          gate, granted := gate + 1, granted + 1;
        }
      case Passes(elapsed) => now := now + elapsed;
    }

    /** Takes a ramp permit for good. */
    method AcquireGate(deadline: Option<nat>, moments: seq<Moment>, at: nat) returns (a: Acquired, next: nat)
      requires Valid() && held == 0 && at <= |moments| && NeverIdled(at)
      modifies this
      ensures Valid() && emitted == old(emitted) && held == 0 && dispatchedAt == old(dispatchedAt)
      ensures at <= next <= |moments| && now == old(now) + Elapsed(moments, at, next)
      ensures next == at ==> slots == old(slots)
      ensures goal == old(goal) && NeverIdled(next)
      ensures a == Permit && deadline.Some? && old(now) < deadline.value ==> now < deadline.value
      ensures passed == old(passed) + if a == Permit then 1 else 0
      ensures a == TimedOut ==> deadline.Some? && now >= deadline.value
      ensures a == Waiting ==> next == |moments| && gate == 0
    {
      next := at;
      while gate == 0
        invariant Valid() && emitted == old(emitted) && held == 0 && dispatchedAt == old(dispatchedAt)
        invariant goal == old(goal) && NeverIdled(next)
        invariant gate > 0 && deadline.Some? && old(now) < deadline.value ==> now < deadline.value
        invariant at <= next <= |moments| && now == old(now) + Elapsed(moments, at, next)
        invariant passed == old(passed) && (next == at ==> slots == old(slots))
        decreases |moments| - next
      {
        if deadline.Some? && now >= deadline.value { return TimedOut, next; }
        if next == |moments| { return Waiting, next; }
        Await(moments[next]);
        next := next + 1;
      }
      gate, passed := gate - 1, passed + 1;
      a := Permit;
    }

    /** Takes a slot, to be given back by the task that will use it. */
    method AcquireSlot(deadline: Option<nat>, moments: seq<Moment>, at: nat) returns (a: Acquired, next: nat)
      requires Valid() && held == 0 && emitted < passed && at <= |moments| && NeverIdled(at)
      modifies this
      ensures Valid() && emitted == old(emitted) && passed == old(passed) && dispatchedAt == old(dispatchedAt)
      ensures at <= next <= |moments| && now == old(now) + Elapsed(moments, at, next)
      ensures held == if a == Permit then 1 else 0
      ensures goal == old(goal) && NeverIdled(next)
      ensures a == Permit && deadline.Some? && old(now) < deadline.value ==> now < deadline.value
      ensures a == Permit && next == at ==> slots == old(slots) - 1
      ensures a == TimedOut ==> deadline.Some? && now >= deadline.value
      ensures a == Waiting ==> next == |moments| && slots == 0
    {
      next := at;
      while slots == 0
        invariant Valid() && emitted == old(emitted) && held == 0 && dispatchedAt == old(dispatchedAt)
        invariant goal == old(goal) && NeverIdled(next)
        invariant slots > 0 && deadline.Some? && old(now) < deadline.value ==> now < deadline.value
        invariant at <= next <= |moments| && now == old(now) + Elapsed(moments, at, next)
        invariant passed == old(passed) && (next == at ==> slots == old(slots))
        decreases |moments| - next
      {
        if deadline.Some? && now >= deadline.value { return TimedOut, next; }
        if next == |moments| { return Waiting, next; }
        Await(moments[next]);
        next := next + 1;
      }
      slots, held := slots - 1, 1;
      a := Permit;
    }

    /** Spawns the task for the next bundle; it takes over the slot the loop holds. */
    method Dispatch() returns (seqNo: nat, device: nat)
      requires Valid() && held == 1
      modifies this
      ensures Valid() && held == 0 && emitted == old(emitted) + 1 && inFlight == old(inFlight) + {seqNo}
      ensures seqNo == old(emitted) && device == seqNo % devicePool
      ensures dispatchedAt == old(dispatchedAt) + [now] && finished == old(finished) && passed == old(passed)
      ensures now == old(now) && slots == old(slots) && goal == old(goal) && idled == old(idled)
      ensures forall n: nat :: old(NeverIdled(n)) ==> NeverIdled(n)
      ensures forall time: nat :: old(AllBefore(time)) && now < time ==> AllBefore(time)
    {
      if step.Some? {
        Monotone(emitted, granted - 1, step.value);
      }
      seqNo, device := emitted, emitted % devicePool;
      inFlight := inFlight + {emitted};
      held := 0;
      dispatchedAt := dispatchedAt + [now];
      emitted := emitted + 1;
    }

    method ReleaseSlot()
      requires Valid() && held == 1
      modifies `slots, `held
      ensures Valid() && held == 0
      ensures forall n: nat :: old(NeverIdled(n)) ==> NeverIdled(n)
    {
      slots, held := slots + 1, 0;
    }

    /** Waits until no task is left, or no moment. */
    method Join(moments: seq<Moment>, at: nat) returns (ending: Ending, next: nat)
      requires Valid() && held == 0 && at <= |moments| && now == Elapsed(moments, 0, at)
      requires !Wanted() && NeverIdled(at)
      modifies this
      ensures Valid() && held == 0 && emitted == old(emitted) && old(now) <= now
      ensures dispatchedAt == old(dispatchedAt) && goal == old(goal) && NeverIdled(next)
      ensures forall time: nat :: old(AllBefore(time)) ==> AllBefore(time)
      ensures at <= next <= |moments| && now == Elapsed(moments, 0, next)
      ensures ending == if inFlight == {} then Finished else Cut
      ensures ending == Finished ==> slots == concurrency && |finished| == emitted
      ensures ending == Finished ==> Distinct(finished) && forall k: nat :: k in finished <==> k < emitted
      ensures ending == Cut ==> next == |moments|
    {
      hide Elapsed, RampOk;
      next := at;
      while inFlight != {}
        invariant Valid() && held == 0 && emitted == old(emitted) && old(now) <= now && !Wanted()
        invariant dispatchedAt == old(dispatchedAt) && goal == old(goal)
        invariant NeverIdled(next)
        invariant at <= next <= |moments| && now == Elapsed(moments, 0, next)
        decreases |moments| - next
      {
        if next == |moments| { return Cut, next; }
        OneMoment(moments, 0, next);
        Await(moments[next]);
        next := next + 1;
      }
      ending := Finished;
    }

    ghost method Begin(stop: StopCondition)
      requires Valid()
      modifies `goal
      ensures Valid() && goal == Some(stop) && (NeverIdled(0) <==> old(NeverIdled(0)))
      ensures emitted == 0 ==> forall time: nat :: AllBefore(time)
    {
      goal := Some(stop);
    }

    /** One turn of the dispatch loop: a ramp permit, a slot, the next bundle and its task. */
    method DispatchNext(deadline: Option<nat>, corpus: nat -> bool, moments: seq<Moment>, at: nat)
      returns (pass: Pass, next: nat)
      requires Valid() && held == 0 && at <= |moments| && NeverIdled(at) && now == Elapsed(moments, 0, at)
      requires deadline.Some? ==> now < deadline.value
      modifies this
      ensures Valid() && held == 0 && goal == old(goal) && NeverIdled(next)
      ensures at <= next <= |moments| && now == Elapsed(moments, 0, next)
      ensures emitted == old(emitted) + if pass == Dispatched then 1 else 0
      ensures deadline.Some? && old(AllBefore(deadline.value)) ==> AllBefore(deadline.value)
      ensures pass == Dispatched ==> corpus(old(emitted)) && (next > at || slots < old(slots))
      ensures pass == Late ==> deadline.Some? && now >= deadline.value
      ensures pass == Starved ==> next == |moments| && (gate == 0 || slots == 0)
      ensures pass == NoBundle ==> !corpus(emitted) && (deadline.Some? ==> now < deadline.value)
    {
      hide Elapsed, RampOk, TasksOk, Distinct, NeverIdled;
      var gateAnswer, slotAnswer;
      gateAnswer, next := AcquireGate(deadline, moments, at);
      ElapsedAdds(moments, 0, at, next);
      if gateAnswer == TimedOut { return Late, next; }
      if gateAnswer == Waiting { return Starved, next; }
      ghost var mid := next;
      slotAnswer, next := AcquireSlot(deadline, moments, next);
      ElapsedAdds(moments, 0, mid, next);
      if slotAnswer == TimedOut { return Late, next; }
      if slotAnswer == Waiting { return Starved, next; }
      if !corpus(emitted) {
        // Leaving early gives the slot back and aborts whatever is in flight.
        ReleaseSlot();
        return NoBundle, next;
      }
      var seqNo, device := Dispatch();
      pass := Dispatched;
    }

    /**
     The dispatch loop and the final join. `corpus` tells whether there is a next bundle after that many. The
     loop gives up waiting only when all moments are over.
     */
    method RunDriver(stop: StopCondition, corpus: nat -> bool, moments: seq<Moment>)
      returns (ending: Ending, used: nat)
      requires Valid() && now == 0 && emitted == 0 && held == 0 && NeverIdled(0)
      modifies this
      ensures Valid()
      ensures used <= |moments| && now == Elapsed(moments, 0, used)
      ensures ending == Finished ==> inFlight == {} && slots == concurrency && |finished| == emitted
      ensures ending == Finished ==> Distinct(finished) && forall k: nat :: k in finished <==> k < emitted
      ensures ending == Finished && stop.TotalBundles? ==> emitted == stop.n
      ensures stop.TotalBundles? ==> emitted <= stop.n
      ensures ending == Finished && stop.SoakDeadline? ==> now >= stop.after
      ensures ending == Failed ==> !corpus(emitted) && Wanted()
      ensures stop.SoakDeadline? ==> AllBefore(stop.after)
      ensures goal == Some(stop) && NeverIdled(used)
      ensures ending == Cut ==> used == |moments| && (gate == 0 || slots == 0 || inFlight != {})
      ensures forall k: nat :: k < emitted ==> corpus(k)
    {
      hide Elapsed, RampOk, TasksOk, Distinct, NeverIdled, AllBefore;
      NoMoment(moments, 0);
      Begin(stop);
      var deadline := if stop.SoakDeadline? then Some(now + stop.after) else None;
      used := 0;
      while !(stop.TotalBundles? && emitted >= stop.n) && !(deadline.Some? && now >= deadline.value)
        invariant Valid() && held == 0
        invariant used <= |moments| && now == Elapsed(moments, 0, used)
        invariant stop.TotalBundles? ==> emitted <= stop.n
        invariant goal == Some(stop) && NeverIdled(used)
        invariant stop.SoakDeadline? ==> AllBefore(stop.after)
        invariant forall k: nat :: k < emitted ==> corpus(k)
        decreases |moments| - used, slots
      {
        var pass;
        pass, used := DispatchNext(deadline, corpus, moments, used);
        if pass == Late { break; }
        if pass == Starved { return Cut, used; }
        if pass == NoBundle { return Failed, used; }
      }
      ending, used := Join(moments, used);
    }
  }

  lemma Monotone(a: nat, b: nat, m: nat)
    requires a <= b
    ensures a * m <= b * m
  {
  }

  lemma QuotientBound(k: nat, m: nat, t: nat)
    requires m > 0 && k * m <= t
    ensures k <= t / m
  {
    var q := t / m;
    assert t < (q + 1) * m;
    if k > q {
      Monotone(q + 1, k, m);
    }
  }

  /** The sequence numbers of the bundles dispatched by time t. */
  ghost function DispatchedBy(times: seq<nat>, t: nat): set<nat> {
    set k: nat | k < |times| && times[k] <= t
  }

  /** While ramping, no more than one bundle per elapsed step is dispatched, plus the first. */
  lemma RampBoundsDispatch(d: Driver, t: nat)
    requires d.Valid() && d.step.Some? && d.step.value > 0
    ensures |DispatchedBy(d.dispatchedAt, t)| <= 1 + t / d.step.value
  {
    var bound := t / d.step.value + 1;
    forall k | k in DispatchedBy(d.dispatchedAt, t) ensures k in UpTo(bound) {
      QuotientBound(k, d.step.value, t);
    }
    SubsetSize(DispatchedBy(d.dispatchedAt, t), UpTo(bound));
  }

  /** At no time are more tasks in flight than the concurrency allows. */
  lemma InFlightIsBounded(d: Driver)
    requires d.Valid()
    ensures |d.inFlight| <= d.concurrency && (d.slots == d.concurrency <==> d.inFlight == {} && d.held == 0)
  {
  }
}
