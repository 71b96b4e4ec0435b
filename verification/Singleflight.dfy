/**
  In-process coalescing: callers of one key share one unit of work while it is in flight. A unit of
  work settles first, its `finally` callback removes the key in a later microtask, and only then
  does the shared promise settle, so calls can arrive between the two.
*/
module Singleflight {
  import opened Wrappers

  type Key = string
  type WorkId = nat
  type CallerId = nat

  datatype Outcome = Value(value: string) | Failure(error: string)

  /** The promise the callers share: pending, pending with the work already done, or settled. */
  datatype Promise = Running | Finishing(outcome: Outcome) | Settled(outcome: Outcome)

  /** `starter` is the caller that started it. */
  datatype Work = Work(key: Key, promise: Promise, starter: CallerId)

  /** `works` in the order they were started; `joined` says whose promise a caller was given. */
  datatype State = State(inFlight: map<Key, WorkId>, works: seq<Work>, joined: map<CallerId, WorkId>)

  const INITIAL := State(map[], [], map[])

  datatype Step =
    | Call(caller: CallerId, key: Key)
    | CallThrows(caller: CallerId, key: Key)     // no work in flight, and starting it throws
    | Finish(work: WorkId, outcome: Outcome)     // the work itself settles
    | Cleanup(work: WorkId)                      // the finally callback, then the shared promise

  predicate Pending(s: State, w: WorkId) { w < |s.works| && !s.works[w].promise.Settled? }

  predicate Enabled(s: State, step: Step) {
    match step
    case Call(c, _) => c !in s.joined
    case CallThrows(c, key) => c !in s.joined && key !in s.inFlight
    case Finish(w, _) => w < |s.works| && s.works[w].promise.Running?
    case Cleanup(w) => w < |s.works| && s.works[w].promise.Finishing?
  }

  function Apply(s: State, step: Step): State
    requires Enabled(s, step)
  {
    match step
    case Call(c, key) =>
      if key in s.inFlight then s.(joined := s.joined[c := s.inFlight[key]])
      else State(s.inFlight[key := |s.works|], s.works + [Work(key, Running, c)], s.joined[c := |s.works|])
    case CallThrows(_, _) => s
    case Finish(w, outcome) => s.(works := s.works[w := s.works[w].(promise := Finishing(outcome))])
    case Cleanup(w) =>
      State(s.inFlight - {s.works[w].key},
            s.works[w := s.works[w].(promise := Settled(s.works[w].promise.outcome))], s.joined)
  }

  /** The map and the pending work correspond one to one, and every caller waits on work that exists. */
  ghost predicate Inv(s: State) {
    && (forall k :: k in s.inFlight ==> Pending(s, s.inFlight[k]) && s.works[s.inFlight[k]].key == k)
    && (forall w: WorkId :: Pending(s, w) ==> s.works[w].key in s.inFlight && s.inFlight[s.works[w].key] == w)
    && (forall c :: c in s.joined ==> s.joined[c] < |s.works|)
  }

  lemma StepKeepsInv(s: State, step: Step)
    requires Inv(s) && Enabled(s, step)
    ensures Inv(Apply(s, step))
  {
    var t := Apply(s, step);
    match step
    case Call(c, key) =>
      if key !in s.inFlight {
        forall w: WorkId | Pending(t, w) ensures t.works[w].key in t.inFlight && t.inFlight[t.works[w].key] == w {
          if w < |s.works| { assert Pending(s, w); }
        }
        assert forall k :: k in s.inFlight ==> Pending(s, s.inFlight[k]);
      }
    case CallThrows(_, _) =>
    case Finish(x, _) =>
      assert forall w: WorkId :: Pending(t, w) <==> Pending(s, w);
    case Cleanup(x) =>
      assert Pending(s, x);
      assert forall w: WorkId :: Pending(t, w) ==> Pending(s, w) && w != x;
  }

  predicate IsRun(s: State, steps: seq<Step>)
    decreases |steps|
  {
    steps == [] || (Enabled(s, steps[0]) && IsRun(Apply(s, steps[0]), steps[1..]))
  }

  function Run(s: State, steps: seq<Step>): State
    requires IsRun(s, steps)
    decreases |steps|
  {
    if steps == [] then s else Run(Apply(s, steps[0]), steps[1..])
  }

  lemma {:induction false} RunKeepsInv(s: State, steps: seq<Step>)
    requires Inv(s) && IsRun(s, steps)
    ensures Inv(Run(s, steps))
    decreases |steps|
  {
    if steps != [] {
      StepKeepsInv(s, steps[0]);
      RunKeepsInv(Apply(s, steps[0]), steps[1..]);
    }
  }

  /** In every interleaving the map's keys are exactly those with pending work, and no key has two. */
  lemma OnePendingWorkPerKey(steps: seq<Step>)
    requires IsRun(INITIAL, steps)
    ensures var s := Run(INITIAL, steps);
            && (forall k :: k in s.inFlight <==> exists w: WorkId :: Pending(s, w) && s.works[w].key == k)
            && (forall v: WorkId, w: WorkId ::
                  Pending(s, v) && Pending(s, w) && s.works[v].key == s.works[w].key ==> v == w)
  {
    RunKeepsInv(INITIAL, steps);
    var s := Run(INITIAL, steps);
    forall k | k in s.inFlight ensures exists w: WorkId :: Pending(s, w) && s.works[w].key == k {
      assert Pending(s, s.inFlight[k]);
    }
  }

  /** A later state keeps who joined what, which key a work is for, and every outcome already decided. */
  ghost predicate Extends(s: State, t: State) {
    && |s.works| <= |t.works|
    && (forall c :: c in s.joined ==> c in t.joined && t.joined[c] == s.joined[c])
    && (forall w :: 0 <= w < |s.works| ==>
          && t.works[w].key == s.works[w].key && t.works[w].starter == s.works[w].starter
          && (!s.works[w].promise.Running? ==>
                !t.works[w].promise.Running? && t.works[w].promise.outcome == s.works[w].promise.outcome))
  }

  lemma {:induction false} RunExtends(s: State, steps: seq<Step>)
    requires IsRun(s, steps)
    ensures Extends(s, Run(s, steps))
    decreases |steps|
  {
    if steps != [] {
      RunExtends(Apply(s, steps[0]), steps[1..]);
    }
  }

  /** What a caller gets once the promise it was given settles. */
  function Received(s: State, c: CallerId): Option<Outcome>
    requires c in s.joined && s.joined[c] < |s.works|
  {
    var p := s.works[s.joined[c]].promise;
    if p.Settled? then Some(p.outcome) else None
  }

  /** An outcome, once decided, was decided by a step of the run. */
  lemma {:induction false} OutcomeComesFromFinish(s: State, steps: seq<Step>, w: WorkId)
    requires IsRun(s, steps) && w < |Run(s, steps).works| && !Run(s, steps).works[w].promise.Running?
    ensures (w < |s.works| && !s.works[w].promise.Running?)
         || Finish(w, Run(s, steps).works[w].promise.outcome) in steps
    decreases |steps|
  {
    if steps != [] {
      var t := Apply(s, steps[0]);
      OutcomeComesFromFinish(t, steps[1..], w);
      RunExtends(t, steps[1..]);
    }
  }

  /**
    A caller is given work that was pending at the moment of the call, or started by it when none
    was. What it receives, value or failure, is the outcome that a step of the run finished that very
    work with, and no further step changes it.
  */
  lemma CallerReceivesPendingWork(past: seq<Step>, c: CallerId, key: Key, future: seq<Step>, later: seq<Step>)
    requires IsRun(INITIAL, past)
    requires var s := Run(INITIAL, past); Enabled(s, Call(c, key)) && IsRun(Apply(s, Call(c, key)), future)
    requires IsRun(Run(Apply(Run(INITIAL, past), Call(c, key)), future), later)
    ensures var s := Run(INITIAL, past);
            var t := Run(Apply(s, Call(c, key)), future);
            var w := Apply(s, Call(c, key)).joined[c];
            && (key in s.inFlight ==> Pending(s, w) && s.works[w].key == key)
            && (key !in s.inFlight ==>
                  w == |s.works| && forall v: WorkId :: Pending(s, v) ==> s.works[v].key != key)
            && c in t.joined && t.joined[c] == w && w < |t.works| && t.works[w].key == key
            && (Received(t, c).Some? ==>
                  && Finish(w, Received(t, c).value) in past + future
                  && var u := Run(t, later);
                     c in u.joined && u.joined[c] == w && w < |u.works| && Received(u, c) == Received(t, c))
  {
    RunKeepsInv(INITIAL, past);
    var s := Run(INITIAL, past);
    var called := Apply(s, Call(c, key));
    StepKeepsInv(s, Call(c, key));
    RunExtends(called, future);
    var t := Run(called, future);
    var w := called.joined[c];
    if Received(t, c).Some? {
      OutcomeComesFromFinish(called, future, w);
      if !called.works[w].promise.Running? {
        OutcomeComesFromFinish(INITIAL, past, w);
      }
      RunExtends(t, later);
      SettledStays(t, later, w);
    }
  }

  lemma {:induction false} SettledStays(s: State, steps: seq<Step>, w: WorkId)
    requires IsRun(s, steps) && w < |s.works| && s.works[w].promise.Settled?
    ensures w < |Run(s, steps).works| && Run(s, steps).works[w] == s.works[w]
    decreases |steps|
  {
    if steps != [] {
      SettledStays(Apply(s, steps[0]), steps[1..], w);
    }
  }

  /** Two callers of one key share work, and its outcome, exactly when the first one's is pending at the second call. */
  lemma OverlappingCallersShareWork(past: seq<Step>, first: CallerId, second: CallerId, key: Key)
    requires IsRun(INITIAL, past)
    requires var s := Run(INITIAL, past);
             && first in s.joined && s.joined[first] < |s.works| && s.works[s.joined[first]].key == key
             && second !in s.joined
    ensures var s := Run(INITIAL, past);
            Apply(s, Call(second, key)).joined[second] == s.joined[first] <==> Pending(s, s.joined[first])
  {
    RunKeepsInv(INITIAL, past);
  }

  // ---------------------------------------------------------------- whose work it is

  /** Every call asks for its caller's own key. */
  predicate CallsTheirKey(steps: seq<Step>, keyOf: CallerId -> Key) {
    forall i :: 0 <= i < |steps| ==> steps[i].Call? ==> steps[i].key == keyOf(steps[i].caller)
  }

  /** Callers wait on work for their key, and the caller that started a work is one of them. */
  ghost predicate Keyed(s: State, keyOf: CallerId -> Key) {
    && (forall k :: k in s.inFlight ==> s.inFlight[k] < |s.works| && s.works[s.inFlight[k]].key == k)
    && (forall c :: c in s.joined ==> s.joined[c] < |s.works| && s.works[s.joined[c]].key == keyOf(c))
    && (forall w :: 0 <= w < |s.works| ==> StartedByItsCaller(s, w, keyOf))
  }

  predicate StartedByItsCaller(s: State, w: WorkId, keyOf: CallerId -> Key)
    requires w < |s.works|
  {
    var c := s.works[w].starter;
    c in s.joined && s.joined[c] == w && s.works[w].key == keyOf(c)
  }

  lemma StepKeepsKeyed(s: State, step: Step, keyOf: CallerId -> Key)
    requires Keyed(s, keyOf) && Enabled(s, step) && (step.Call? ==> step.key == keyOf(step.caller))
    ensures Keyed(Apply(s, step), keyOf)
  {
    var t := Apply(s, step);
    forall w | 0 <= w < |t.works| ensures StartedByItsCaller(t, w, keyOf) {
      if w < |s.works| { assert StartedByItsCaller(s, w, keyOf); }
    }
  }

  lemma {:induction false} RunKeepsKeyed(s: State, steps: seq<Step>, keyOf: CallerId -> Key)
    requires Keyed(s, keyOf) && IsRun(s, steps) && CallsTheirKey(steps, keyOf)
    ensures Keyed(Run(s, steps), keyOf)
    decreases |steps|
  {
    if steps != [] {
      StepKeepsKeyed(s, steps[0], keyOf);
      RunKeepsKeyed(Apply(s, steps[0]), steps[1..], keyOf);
    }
  }

  // ---------------------------------------------------------------- the closure itself

  /** The closure over the map as the code runs it, beside the state it stands for. */
  class InProcessSingleflight {
    var inFlight: map<Key, WorkId>
    var started: nat
    ghost var state: State

    constructor ()
      ensures Valid() && state == INITIAL
    {
      inFlight, started := map[], 0;
      state := INITIAL;
    }

    ghost predicate Valid()
      reads this
    {
      inFlight == state.inFlight && started == |state.works| && Inv(state)
    }

    /** The caller is handed the work of its key that is pending, and a new one only when there is none. */
    method Call(ghost c: CallerId, key: Key) returns (w: WorkId)
      requires Valid() && Enabled(state, Step.Call(c, key))
      modifies this
      ensures Valid() && state == Apply(old(state), Step.Call(c, key))
      ensures w == state.joined[c] && Pending(state, w) && state.works[w].key == key
      ensures (exists v: WorkId :: Pending(old(state), v) && old(state).works[v].key == key) ==> started == old(started)
    {
      StepKeepsInv(state, Step.Call(c, key));
      state := Apply(state, Step.Call(c, key));
      if key in inFlight {
        return inFlight[key];
      }
      w := started;
      started := started + 1;
      inFlight := inFlight[key := w];
    }

    /** The work itself settles; the map does not change yet. */
    ghost method Finish(w: WorkId, outcome: Outcome)
      requires Valid() && Enabled(state, Step.Finish(w, outcome))
      modifies this`state
      ensures Valid() && state == Apply(old(state), Step.Finish(w, outcome))
    {
      StepKeepsInv(state, Step.Finish(w, outcome));
      state := Apply(state, Step.Finish(w, outcome));
    }

    /** The callback is the protocol's step: it ends its own work, so that the next call of the key starts afresh. */
    method Cleanup(ghost w: WorkId, key: Key)
      requires Valid() && Enabled(state, Step.Cleanup(w)) && key == state.works[w].key
      modifies this
      ensures Valid() && state == Apply(old(state), Step.Cleanup(w))
      ensures forall v: WorkId :: Pending(state, v) <==> Pending(old(state), v) && v != w
      ensures forall v: WorkId :: Pending(state, v) ==> state.works[v].key != key
    {
      StepKeepsInv(state, Step.Cleanup(w));
      assert Pending(state, w);
      state := Apply(state, Step.Cleanup(w));
      inFlight := inFlight - {key};
    }
  }
}
