/**
  The concurrent-stream limiter: INCR a shared Redis counter, keep the slot when the reply is
  within the limit, otherwise DECR again; DECR on release. Requests interleave command by
  command, and the counter can also drift: a stream may end without releasing, a release may
  come with no acquisition behind it, the key may expire, and a Redis error lets a request in.
*/
module StreamSlots {
  type StreamId = nat

  // ---------------------------------------------------------------- interleaved requests

  /**
    `live` streams are running, `undoing` ones have been refused and have their DECR still to come.
    `forced` are those let in by an error although INCR had counted them, until they release.
    `drift` is how far the counter has moved away from the slots in use.
  */
  datatype State = State(
    counter: int,
    live: set<StreamId>,
    undoing: set<StreamId>,
    ended: set<StreamId>,
    forced: set<StreamId>,
    drift: int)

  const INITIAL := State(0, {}, {}, {}, {}, 0)

  datatype Step =
    | Acquire(id: StreamId)         // INCR, and the branch on its reply
    | Undo(id: StreamId)            // DECR after a refusal
    | Release(id: StreamId)         // DECR at the end of a stream
    | Leak(id: StreamId)            // the stream ends and its release never runs
    | SpuriousRelease               // a DECR with no acquisition behind it
    | KeyExpired                    // the counter key is dropped by Redis
    | FailOpen(id: StreamId)        // INCR fails: the stream runs, uncounted
    | ForceOpen(id: StreamId)       // INCR counts, EXPIRE or the reply fails: the stream runs whatever the count
    | UndoFails(id: StreamId)       // the DECR after a refusal fails: the stream runs after all

  predicate Fault(step: Step) { !step.Acquire? && !step.Undo? && !step.Release? }

  predicate Known(s: State, id: StreamId) { id in s.live || id in s.undoing || id in s.ended }

  predicate Enabled(s: State, step: Step) {
    match step
    case Acquire(id) => !Known(s, id)
    case Undo(id) => id in s.undoing
    case Release(id) => id in s.live
    case Leak(id) => id in s.live
    case SpuriousRelease => true
    case KeyExpired => true
    case FailOpen(id) => !Known(s, id)
    case ForceOpen(id) => !Known(s, id)
    case UndoFails(id) => id in s.undoing
  }

  /** Whether an acquisition in this state is admitted: its INCR must answer at most the limit. */
  predicate Admits(s: State, limit: nat) { s.counter + 1 <= limit }

  function Apply(s: State, limit: nat, step: Step): State
    requires Enabled(s, step)
  {
    match step
    case Acquire(id) =>
      if Admits(s, limit)
      then s.(counter := s.counter + 1, live := s.live + {id})
      else s.(counter := s.counter + 1, undoing := s.undoing + {id})
    case Undo(id) => s.(counter := s.counter - 1, undoing := s.undoing - {id}, ended := s.ended + {id})
    case Release(id) =>
      s.(counter := s.counter - 1, live := s.live - {id}, ended := s.ended + {id}, forced := s.forced - {id})
    case Leak(id) => s.(live := s.live - {id}, ended := s.ended + {id}, drift := s.drift + 1)
    case SpuriousRelease => s.(counter := s.counter - 1, drift := s.drift - 1)
    case KeyExpired => s.(counter := 0, drift := -(|s.live| + |s.undoing|))
    case FailOpen(id) => s.(live := s.live + {id}, drift := s.drift - 1)
    case ForceOpen(id) => s.(counter := s.counter + 1, live := s.live + {id}, forced := s.forced + {id})
    case UndoFails(id) => s.(undoing := s.undoing - {id}, live := s.live + {id}, forced := s.forced + {id})
  }

  predicate IsRun(s: State, limit: nat, steps: seq<Step>)
    decreases |steps|
  {
    steps == [] || (Enabled(s, steps[0]) && IsRun(Apply(s, limit, steps[0]), limit, steps[1..]))
  }

  function Run(s: State, limit: nat, steps: seq<Step>): State
    requires IsRun(s, limit, steps)
    decreases |steps|
  {
    if steps == [] then s else Run(Apply(s, limit, steps[0]), limit, steps[1..])
  }

  predicate Inv(s: State, limit: nat) {
    && s.live !! s.undoing && s.live !! s.ended && s.undoing !! s.ended
    && s.forced <= s.live + s.ended
    && s.counter == |s.live| + |s.undoing| + s.drift
    && |s.live| + s.drift <= limit + |s.forced|
  }

  lemma OneMore(ids: set<StreamId>, id: StreamId)
    ensures id !in ids ==> |ids + {id}| == |ids| + 1
    ensures id in ids ==> |ids - {id}| == |ids| - 1
    ensures id !in ids ==> ids - {id} == ids
  {
  }

  lemma StartKeepsInv(s: State, limit: nat, step: Step)
    requires Inv(s, limit) && Enabled(s, step) && (step.Acquire? || step.FailOpen? || step.ForceOpen?)
    ensures Inv(Apply(s, limit, step), limit)
  {
    OneMore(s.live, step.id);
    OneMore(s.undoing, step.id);
    OneMore(s.forced, step.id);
  }

  lemma EndKeepsInv(s: State, limit: nat, step: Step)
    requires Inv(s, limit) && Enabled(s, step) && (step.Undo? || step.Release? || step.Leak? || step.UndoFails?)
    ensures Inv(Apply(s, limit, step), limit)
  {
    OneMore(s.live, step.id);
    OneMore(s.undoing, step.id);
    OneMore(s.forced, step.id);
  }

  lemma StepKeepsInv(s: State, limit: nat, step: Step)
    requires Inv(s, limit) && Enabled(s, step)
    ensures Inv(Apply(s, limit, step), limit)
    ensures !Fault(step) ==>
              Apply(s, limit, step).drift == s.drift && Apply(s, limit, step).forced <= s.forced
  {
    match step
    case Acquire(_) => StartKeepsInv(s, limit, step);
    case FailOpen(_) => StartKeepsInv(s, limit, step);
    case ForceOpen(_) => StartKeepsInv(s, limit, step);
    case Undo(_) => EndKeepsInv(s, limit, step);
    case Release(_) => EndKeepsInv(s, limit, step);
    case Leak(_) => EndKeepsInv(s, limit, step);
    case UndoFails(_) => EndKeepsInv(s, limit, step);
    case SpuriousRelease =>
    case KeyExpired =>
  }

  predicate FaultFree(steps: seq<Step>) { forall i :: 0 <= i < |steps| ==> !Fault(steps[i]) }

  lemma {:induction false} RunKeepsInv(s: State, limit: nat, steps: seq<Step>)
    requires Inv(s, limit) && IsRun(s, limit, steps)
    ensures Inv(Run(s, limit, steps), limit)
    ensures FaultFree(steps) ==> Run(s, limit, steps).drift == s.drift && Run(s, limit, steps).forced <= s.forced
    decreases |steps|
  {
    if steps != [] {
      StepKeepsInv(s, limit, steps[0]);
      RunKeepsInv(Apply(s, limit, steps[0]), limit, steps[1..]);
    }
  }

  /**
    Conservation, over every interleaving without drift: the counter is the live streams plus
    the refusals not yet undone, live streams never exceed the limit, a request is refused only
    when those two together fill the limit, and the counter is back at zero when all have ended.
  */
  lemma SlotsAreConserved(limit: nat, steps: seq<Step>)
    requires IsRun(INITIAL, limit, steps) && FaultFree(steps)
    ensures var s := Run(INITIAL, limit, steps);
            && s.counter == |s.live| + |s.undoing|
            && |s.live| <= limit
            && (Admits(s, limit) <==> |s.live| + |s.undoing| < limit)
            && (s.live == {} && s.undoing == {} ==> s.counter == 0)
  {
    RunKeepsInv(INITIAL, limit, steps);
  }

  /**
    Any run, faults included: live streams exceed the limit by at most the slots the counter is short
    of plus the streams forced in that have not released, and every slot it has too many counts
    against that. The counter is right exactly when the drift is zero.
  */
  lemma DriftBoundsOveruse(limit: nat, steps: seq<Step>)
    requires IsRun(INITIAL, limit, steps)
    ensures var s := Run(INITIAL, limit, steps);
            && s.counter == |s.live| + |s.undoing| + s.drift
            && |s.live| <= limit + |s.forced| - s.drift
            && (s.live == {} && s.undoing == {} ==> (s.counter == 0 <==> s.drift == 0))
  {
    RunKeepsInv(INITIAL, limit, steps);
  }

  /** How many streams a run leaks. */
  function Leaks(steps: seq<Step>): nat {
    if steps == [] then 0 else (if steps[0].Leak? then 1 else 0) + Leaks(steps[1..])
  }

  /** No fault but leaks. */
  predicate OnlyLeaks(steps: seq<Step>) { forall i :: 0 <= i < |steps| ==> Fault(steps[i]) ==> steps[i].Leak? }

  lemma {:induction false} LeaksBecomeDrift(s: State, limit: nat, steps: seq<Step>)
    requires Inv(s, limit) && IsRun(s, limit, steps)
    requires OnlyLeaks(steps)
    ensures Run(s, limit, steps).drift == s.drift + Leaks(steps)
    decreases |steps|
  {
    if steps != [] {
      StepKeepsInv(s, limit, steps[0]);
      LeaksBecomeDrift(Apply(s, limit, steps[0]), limit, steps[1..]);
    }
  }

  /**
    A facade that maps its request between acquiring and the `try` leaks a slot when the mapping
    throws. Every leak costs one slot for good: with all streams ended the counter equals the
    leaks, and a new request is refused exactly when the leaks have used up the limit.
  */
  lemma LeaksShrinkTheLimit(limit: nat, steps: seq<Step>)
    requires IsRun(INITIAL, limit, steps)
    requires OnlyLeaks(steps)
    requires Run(INITIAL, limit, steps).live == {} && Run(INITIAL, limit, steps).undoing == {}
    ensures Run(INITIAL, limit, steps).counter == Leaks(steps)
    ensures !Admits(Run(INITIAL, limit, steps), limit) <==> Leaks(steps) >= limit
  {
    RunKeepsInv(INITIAL, limit, steps);
    LeaksBecomeDrift(INITIAL, limit, steps);
  }

  /** With no debt, an admission finds room below the limit. */
  lemma {:induction false} NoDebtKeepsTheLimit(s: State, limit: nat, steps: seq<Step>)
    requires Inv(s, limit) && |s.live| <= limit && s.drift >= 0
    requires IsRun(s, limit, steps) && FaultFree(steps)
    ensures |Run(s, limit, steps).live| <= limit
    decreases |steps|
  {
    if steps != [] {
      var t := Apply(s, limit, steps[0]);
      StepKeepsInv(s, limit, steps[0]);
      if steps[0].Acquire? && Admits(s, limit) {
        assert t.live == s.live + {steps[0].id};
        assert |t.live| == |s.live| + 1;
      } else if steps[0].Release? {
        assert |t.live| == |s.live| - 1;
      }
      NoDebtKeepsTheLimit(t, limit, steps[1..]);
    }
  }

  lemma {:induction false} UnusedId(ids: set<StreamId>) returns (id: StreamId)
    ensures forall x :: x in ids ==> x < id
    decreases |ids|
  {
    if ids == {} {
      id := 0;
    } else {
      var x :| x in ids;
      var others := ids - {x};
      var y := UnusedId(others);
      assert forall z :: z in ids ==> z == x || z in others;
      id := if x < y then y else x + 1;
    }
  }

  /** In debt, there is always a step towards the limit: acquire if admitted, otherwise undo. */
  lemma DebtLeavesAStep(s: State, limit: nat) returns (step: Step)
    requires Inv(s, limit) && |s.live| <= limit && s.drift < 0
    ensures Enabled(s, step) && !Fault(step)
    ensures var t := Apply(s, limit, step);
            Inv(t, limit) && t.drift == s.drift && |t.undoing| - |t.live| < |s.undoing| - |s.live|
  {
    if Admits(s, limit) {
      var id := UnusedId(s.live + s.undoing + s.ended);
      assert !Known(s, id);
      step := Acquire(id);
      OneMore(s.live, id);
      assert Apply(s, limit, step).live == s.live + {id};
    } else {
      assert s.undoing != {};
      var id :| id in s.undoing;
      step := Undo(id);
      OneMore(s.undoing, id);
      assert Apply(s, limit, step).undoing == s.undoing - {id};
    }
    StepKeepsInv(s, limit, step);
  }

  lemma RunFirst(s: State, limit: nat, step: Step, rest: seq<Step>)
    requires Enabled(s, step) && IsRun(Apply(s, limit, step), limit, rest)
    ensures IsRun(s, limit, [step] + rest)
    ensures Run(s, limit, [step] + rest) == Run(Apply(s, limit, step), limit, rest)
  {
    var steps := [step] + rest;
    assert steps[0] == step && steps[1..] == rest;
  }

  /** In debt, undoing what is pending and acquiring again and again ends above the limit. */
  lemma {:induction false} DebtOverfills(s: State, limit: nat) returns (steps: seq<Step>)
    requires Inv(s, limit) && |s.live| <= limit && s.drift < 0
    ensures IsRun(s, limit, steps) && FaultFree(steps) && |Run(s, limit, steps).live| > limit
    decreases |s.undoing| + limit - |s.live|
  {
    var step := DebtLeavesAStep(s, limit);
    var t := Apply(s, limit, step);
    var rest: seq<Step> := [];
    if |t.live| <= limit {
      rest := DebtOverfills(t, limit);
    }
    RunFirst(s, limit, step, rest);
    steps := [step] + rest;
  }

  /**
    When the limit can be relied on. From any state within the limit, every fault-free continuation
    stays within it exactly when the counter has not fallen below the slots in use.
  */
  lemma LimitHoldsExactlyWithoutDebt(s: State, limit: nat)
    requires Inv(s, limit) && |s.live| <= limit
    ensures (forall steps :: IsRun(s, limit, steps) && FaultFree(steps) ==> |Run(s, limit, steps).live| <= limit)
       <==> s.counter >= |s.live| + |s.undoing|
  {
    if s.drift >= 0 {
      forall steps | IsRun(s, limit, steps) && FaultFree(steps) ensures |Run(s, limit, steps).live| <= limit {
        NoDebtKeepsTheLimit(s, limit, steps);
      }
    } else {
      var steps := DebtOverfills(s, limit);
    }
  }

  /** Releasing without having acquired lets one stream too many in: the counter goes below zero. */
  lemma SpuriousReleaseAdmitsOneTooMany()
    ensures var steps := [SpuriousRelease, Acquire(1), Acquire(2)];
            IsRun(INITIAL, 1, steps) && |Run(INITIAL, 1, steps).live| == 2
  {
    var steps := [SpuriousRelease, Acquire(1), Acquire(2)];
    var s1 := Apply(INITIAL, 1, steps[0]);
    var s2 := Apply(s1, 1, steps[1]);
    var s3 := Apply(s2, 1, steps[2]);
    assert steps[1..][1..] == steps[2..] && steps[2..][1..] == [];
    assert Run(s2, 1, steps[2..]) == s3;
    assert Run(s1, 1, steps[1..]) == s3;
    assert s3.live == {1, 2};
  }

  // ---------------------------------------------------------------- one request alone

  /** The counter of one gateway key as the service drives it, beside the slots it stands for. */
  class StreamCounter {
    const limit: nat
    var count: int
    ghost var slots: State

    constructor (maxConcurrent: nat)
      ensures Valid() && limit == maxConcurrent && slots == INITIAL
    {
      limit := maxConcurrent;
      count := 0;
      slots := INITIAL;
    }

    ghost predicate Valid()
      reads this
    {
      count == slots.counter && Inv(slots, limit)
    }

    /** The request is the steps of the protocol: acquire, and undo when the reply is above the limit. */
    method CheckConcurrentStreams(ghost id: StreamId) returns (allowed: bool, remaining: nat)
      requires Valid() && !Known(slots, id)
      modifies this
      ensures Valid()
      ensures allowed <==> old(count) < limit
      ensures slots == Run(old(slots), limit, if allowed then [Acquire(id)] else [Acquire(id), Undo(id)])
      ensures allowed ==> id in slots.live && remaining == limit - count
      ensures !allowed ==> slots == old(slots).(ended := old(slots).ended + {id})
      ensures !allowed ==> count == old(count) && remaining == 0
    {
      StepKeepsInv(slots, limit, Acquire(id));
      RunFirst(slots, limit, Acquire(id), []);
      ghost var before := slots;
      slots := Apply(slots, limit, Acquire(id));
      count := count + 1;
      var current := count;
      if current <= limit {
        return true, limit - current;
      } else {
        StepKeepsInv(slots, limit, Undo(id));
        RunFirst(slots, limit, Undo(id), []);
        RunFirst(before, limit, Acquire(id), [Undo(id)]);
        slots := Apply(slots, limit, Undo(id));
        count := count - 1;
        assert slots.undoing == before.undoing;
        return false, 0;
      }
    }

    /** A release is the protocol's step, and frees one slot: unless slots have leaked, the next request is admitted. */
    method ReleaseStream(ghost id: StreamId)
      requires Valid() && id in slots.live
      modifies this
      ensures Valid() && slots == Apply(old(slots), limit, Release(id))
      ensures slots.undoing == {} && slots.drift <= 0 && |old(slots).live| <= limit ==>
                Admits(slots, limit)
    {
      StepKeepsInv(slots, limit, Release(id));
      OneMore(slots.live, id);
      slots := Apply(slots, limit, Release(id));
      count := count - 1;
    }
  }
}
