/**
  The embedding circuit breaker, closed / open / half-open, driven by calls that overlap and
  may report long after the state they were admitted in has gone.
*/
module CircuitBreaker {
  import opened Wrappers

  datatype Config = Config(openAfter: nat, cooldownMs: nat)

  datatype Breaker = Breaker(failures: nat, openedAtMs: int, trialInFlight: bool)

  const CLOSED := Breaker(0, 0, false)

  predicate Tripped(c: Config, b: Breaker) { b.failures >= c.openAfter }

  predicate CooledDown(c: Config, b: Breaker, now: int) { now - b.openedAtMs >= c.cooldownMs }

  predicate Skips(c: Config, b: Breaker, now: int) {
    Tripped(c, b) && (!CooledDown(c, b, now) || b.trialInFlight)
  }

  /** A tripped breaker that lets a call through marks it as the trial. */
  function AfterAsk(c: Config, b: Breaker, now: int): Breaker {
    if Tripped(c, b) && !Skips(c, b, now) then b.(trialInFlight := true) else b
  }

  function AfterFailure(c: Config, b: Breaker, now: int): Breaker {
    Breaker(b.failures + 1, if b.failures + 1 >= c.openAfter then now else b.openedAtMs, false)
  }

  // ---------------------------------------------------------------- overlapping calls

  /** The breaker, the calls admitted that have not reported yet, the last event's time, and all reports so far. */
  datatype System = System(breaker: Breaker, outstanding: nat, clock: int, reports: seq<bool>)

  const INITIAL := System(CLOSED, 0, 0, [])

  datatype Event =
    | Ask(at: int)      // shouldSkipEmbed; an admitted call becomes outstanding
    | Succeed(at: int)  // some outstanding call reports success
    | Fail(at: int)     // some outstanding call reports failure

  predicate Enabled(s: System, e: Event) { e.Ask? || s.outstanding > 0 }

  /** On a clock that does not go back. */
  predicate Timely(clock: int, events: seq<Event>)
    decreases |events|
  {
    events == [] || (events[0].at >= clock && Timely(events[0].at, events[1..]))
  }

  predicate Admitted(c: Config, s: System, e: Event) { e.Ask? && !Skips(c, s.breaker, e.at) }

  predicate AdmittedWhileOpen(c: Config, s: System, e: Event) { Admitted(c, s, e) && Tripped(c, s.breaker) }

  function Apply(c: Config, s: System, e: Event): System
    requires Enabled(s, e)
  {
    match e
    case Ask(now) =>
      System(AfterAsk(c, s.breaker, now), if Admitted(c, s, e) then s.outstanding + 1 else s.outstanding,
             now, s.reports)
    case Succeed(now) => System(CLOSED, s.outstanding - 1, now, s.reports + [true])
    case Fail(now) => System(AfterFailure(c, s.breaker, now), s.outstanding - 1, now, s.reports + [false])
  }

  predicate IsRun(c: Config, s: System, events: seq<Event>)
    decreases |events|
  {
    events == [] || (Enabled(s, events[0]) && IsRun(c, Apply(c, s, events[0]), events[1..]))
  }

  function Run(c: Config, s: System, events: seq<Event>): System
    requires IsRun(c, s, events)
    decreases |events|
  {
    if events == [] then s else Run(c, Apply(c, s, events[0]), events[1..])
  }

  /** Length of the run of failures at the end of the reports. */
  function TrailingFailures(reports: seq<bool>): nat {
    if reports == [] || reports[|reports| - 1] then 0 else 1 + TrailingFailures(reports[..|reports| - 1])
  }

  /** The counter is the trailing failures, and a trial in flight is a call that has yet to report. */
  predicate Inv(s: System) {
    && s.breaker.failures == TrailingFailures(s.reports)
    && (s.breaker.trialInFlight ==> s.outstanding > 0)
  }

  lemma StepKeepsInv(c: Config, s: System, e: Event)
    requires Inv(s) && Enabled(s, e)
    ensures Inv(Apply(c, s, e))
  {
    var t := Apply(c, s, e);
    if !e.Ask? {
      assert t.reports[..|t.reports| - 1] == s.reports;
    }
  }

  lemma {:induction false} RunKeepsInv(c: Config, s: System, events: seq<Event>)
    requires Inv(s) && IsRun(c, s, events)
    ensures Inv(Run(c, s, events))
    decreases |events|
  {
    if events != [] {
      StepKeepsInv(c, s, events[0]);
      RunKeepsInv(c, Apply(c, s, events[0]), events[1..]);
    }
  }

  /** Over every run, however stale the reports: `failures` is the length of the trailing run of failures. */
  lemma FailuresCountTheTrailingRun(c: Config, events: seq<Event>)
    requires IsRun(c, INITIAL, events)
    ensures var s := Run(c, INITIAL, events); s.breaker.failures == TrailingFailures(s.reports)
  {
    RunKeepsInv(c, INITIAL, events);
  }

  /**
    The breaker never wedges: in every reachable state with no call outstanding, the next call is
    admitted exactly when the breaker is not tripped or the cooldown has elapsed.
  */
  lemma NeverWedges(c: Config, events: seq<Event>, now: int)
    requires IsRun(c, INITIAL, events) && Run(c, INITIAL, events).outstanding == 0
    ensures var b := Run(c, INITIAL, events).breaker;
            !Skips(c, b, now) <==> (!Tripped(c, b) || CooledDown(c, b, now))
  {
    RunKeepsInv(c, INITIAL, events);
  }

  /** Why every admission must be reported: a trial that never reports blocks all later calls, at any time. */
  lemma {:induction false} UnreportedTrialBlocksForever(c: Config, s: System, asks: seq<Event>)
    requires Tripped(c, s.breaker) && s.breaker.trialInFlight
    requires IsRun(c, s, asks) && forall i :: 0 <= i < |asks| ==> asks[i].Ask?
    ensures Run(c, s, asks).breaker == s.breaker && Run(c, s, asks).outstanding == s.outstanding
    decreases |asks|
  {
    if asks != [] {
      UnreportedTrialBlocksForever(c, Apply(c, s, asks[0]), asks[1..]);
    }
  }

  // ---------------------------------------------------------------- how often an open breaker admits

  /** The times of the calls a tripped breaker let through. */
  function OpenAdmissions(c: Config, s: System, events: seq<Event>): seq<int>
    requires IsRun(c, s, events)
    decreases |events|
  {
    if events == [] then []
    else
      (if AdmittedWhileOpen(c, s, events[0]) then [events[0].at] else [])
      + OpenAdmissions(c, Apply(c, s, events[0]), events[1..])
  }

  predicate Spaced(times: seq<int>, gap: int) {
    forall i, j :: 0 <= i < j < |times| ==> times[j] - times[i] >= gap
  }

  /** Since a tripped breaker let a call through at t, either no one reported or the cooldown restarted. */
  predicate Guarded(c: Config, s: System, t: int) {
    && t <= s.clock
    && Tripped(c, s.breaker)
    && (s.breaker.trialInFlight || s.breaker.openedAtMs >= t)
  }

  lemma {:induction false} NextOpenAdmissionsAreFar(c: Config, s: System, events: seq<Event>, t: int)
    requires IsRun(c, s, events) && Timely(s.clock, events) && Guarded(c, s, t)
    requires forall i :: 0 <= i < |events| ==> !events[i].Succeed?
    ensures forall i :: 0 <= i < |OpenAdmissions(c, s, events)| ==>
              OpenAdmissions(c, s, events)[i] - t >= c.cooldownMs
    decreases |events|
  {
    if events != [] {
      NextOpenAdmissionsAreFar(c, Apply(c, s, events[0]), events[1..], t);
    }
  }

  /**
    While no success is reported, calls admitted by the tripped breaker are pairwise at least the
    cooldown apart, whichever calls are in flight and however late their failures come in.
  */
  lemma {:induction false} OpenAdmissionsAreSpaced(c: Config, s: System, events: seq<Event>)
    requires IsRun(c, s, events) && Timely(s.clock, events)
    requires forall i :: 0 <= i < |events| ==> !events[i].Succeed?
    ensures Spaced(OpenAdmissions(c, s, events), c.cooldownMs)
    ensures forall i :: 0 <= i < |OpenAdmissions(c, s, events)| ==> OpenAdmissions(c, s, events)[i] >= s.clock
    decreases |events|
  {
    if events != [] {
      var next := Apply(c, s, events[0]);
      OpenAdmissionsAreSpaced(c, next, events[1..]);
      if AdmittedWhileOpen(c, s, events[0]) {
        NextOpenAdmissionsAreFar(c, next, events[1..], events[0].at);
      }
    }
  }

  lemma {:induction false} SpacedTimesTakeTime(times: seq<int>, gap: nat)
    requires Spaced(times, gap) && times != []
    ensures times[|times| - 1] - times[0] >= (|times| - 1) * gap
    decreases |times|
  {
    if |times| > 1 {
      var front := times[..|times| - 1];
      SpacedTimesTakeTime(front, gap);
      assert times[|times| - 1] - times[|times| - 2] >= gap;
      assert (|times| - 1) * gap == (|times| - 2) * gap + gap;
    }
  }

  /** At most 1 + floor(T / cooldown) such calls within a span of T milliseconds. */
  lemma {:induction false} OpenAdmissionsAreRare(c: Config, s: System, events: seq<Event>, span: nat)
    requires c.cooldownMs > 0 && IsRun(c, s, events) && Timely(s.clock, events)
    requires forall i :: 0 <= i < |events| ==> !events[i].Succeed?
    requires var times := OpenAdmissions(c, s, events);
             times != [] ==> times[|times| - 1] - times[0] <= span
    ensures |OpenAdmissions(c, s, events)| <= 1 + span / c.cooldownMs
  {
    var times := OpenAdmissions(c, s, events);
    OpenAdmissionsAreSpaced(c, s, events);
    if times != [] {
      SpacedTimesAreFew(times, c.cooldownMs, span);
    }
  }

  lemma SpacedTimesAreFew(times: seq<int>, gap: nat, span: nat)
    requires gap > 0 && times != [] && Spaced(times, gap) && times[|times| - 1] - times[0] <= span
    ensures |times| <= 1 + span / gap
  {
    SpacedTimesTakeTime(times, gap);
    QuotientBound(|times| - 1, gap, span);
  }

  lemma QuotientBound(n: nat, d: nat, total: nat)
    requires d > 0 && n * d <= total
    ensures n <= total / d
  {
    var q := total / d;
    assert total < (q + 1) * d;
    if n >= q + 1 {
      ProductGrows(q + 1, n, d);
    }
  }

  lemma ProductGrows(a: nat, b: nat, d: nat)
    requires a <= b
    ensures a * d <= b * d
  {
    assert b * d == a * d + (b - a) * d;
  }

  // ---------------------------------------------------------------- when calls are admitted, from the history alone

  /** When the last failure was reported. */
  function LastFailAt(events: seq<Event>): Option<int> {
    if events == [] then None
    else
      var last := events[|events| - 1];
      if last.Fail? then Some(last.at) else LastFailAt(events[..|events| - 1])
  }

  lemma {:induction false} RunOneMore(c: Config, s: System, events: seq<Event>)
    requires events != [] && IsRun(c, s, events)
    ensures var before := events[..|events| - 1];
            && IsRun(c, s, before)
            && Enabled(Run(c, s, before), events[|events| - 1])
            && Run(c, s, events) == Apply(c, Run(c, s, before), events[|events| - 1])
    decreases |events|
  {
    var before := events[..|events| - 1];
    if before == [] {
      assert events[1..] == [];
    } else {
      assert events[1..][..|events| - 2] == before[1..];
      RunOneMore(c, Apply(c, s, events[0]), events[1..]);
    }
  }

  /** A breaker with enough failures at its end opened with the last of them. */
  lemma {:induction false} OpenedAtLastFail(c: Config, events: seq<Event>)
    requires c.openAfter >= 1 && IsRun(c, INITIAL, events)
    ensures var s := Run(c, INITIAL, events);
            s.breaker.failures >= c.openAfter ==> LastFailAt(events) == Some(s.breaker.openedAtMs)
    decreases |events|
  {
    if events != [] {
      RunOneMore(c, INITIAL, events);
      OpenedAtLastFail(c, events[..|events| - 1]);
    }
  }

  /**
    Both thresholds, over every run and on the history alone. A call asked for at `now` is admitted,
    and so becomes outstanding, while fewer than `openAfter` failures end the reports. From then on it
    is refused until the cooldown since the last failure has passed, and admitted after that unless
    an earlier call has yet to report.
  */
  lemma AdmissionFollowsReports(c: Config, events: seq<Event>, now: int)
    requires c.openAfter >= 1 && IsRun(c, INITIAL, events)
    ensures var s := Run(c, INITIAL, events);
            var after := Apply(c, s, Ask(now));
            && (TrailingFailures(s.reports) < c.openAfter ==> after.outstanding == s.outstanding + 1)
            && (TrailingFailures(s.reports) >= c.openAfter ==>
                  && LastFailAt(events).Some?
                  && (now < LastFailAt(events).value + c.cooldownMs ==> after.outstanding == s.outstanding)
                  && (now >= LastFailAt(events).value + c.cooldownMs && s.outstanding == 0 ==> after.outstanding == 1))
  {
    RunKeepsInv(c, INITIAL, events);
    OpenedAtLastFail(c, events);
  }

  /** While one trial is out, no other call is admitted: at most one trial per cooldown. */
  lemma TrialIsAlone(c: Config, s: System, first: int, second: int)
    requires s.breaker.failures >= c.openAfter
    requires Apply(c, s, Ask(first)).outstanding == s.outstanding + 1
    ensures Apply(c, Apply(c, s, Ask(first)), Ask(second)).outstanding == s.outstanding + 1
  {
  }

  // ---------------------------------------------------------------- the breaker itself

  /** The fields as the methods update them, beside the system they are part of. */
  class EmbeddingCircuitBreaker {
    const config: Config
    var failures: nat
    var openedAtMs: int
    var trialInFlight: bool
    ghost var system: System

    constructor (config: Config)
      ensures Valid() && this.config == config && system == INITIAL
    {
      this.config := config;
      failures, openedAtMs, trialInFlight := 0, 0, false;
      system := INITIAL;
    }

    ghost predicate Valid()
      reads this
    {
      system.breaker == Breaker(failures, openedAtMs, trialInFlight) && Inv(system)
    }

    /** The Ask event; the call is to be skipped exactly when that event leaves no call outstanding more. */
    method ShouldSkipEmbed(now: int) returns (skip: bool)
      requires Valid()
      modifies this
      ensures Valid() && system == Apply(config, old(system), Ask(now))
      ensures skip <==> system.outstanding == old(system).outstanding
      ensures failures == old(failures)
    {
      StepKeepsInv(config, system, Ask(now));
      system := Apply(config, system, Ask(now));
      if failures < config.openAfter { return false; }
      var cooledDown := now - openedAtMs >= config.cooldownMs;
      if !cooledDown { return true; }
      if trialInFlight { return true; }
      trialInFlight := true;
      return false;
    }

    method RecordEmbedFailure(now: int)
      requires Valid() && system.outstanding > 0
      modifies this
      ensures Valid() && system == Apply(config, old(system), Fail(now))
      ensures failures == old(failures) + 1
    {
      StepKeepsInv(config, system, Fail(now));
      system := Apply(config, system, Fail(now));
      failures := failures + 1;
      trialInFlight := false;
      if failures >= config.openAfter {
        openedAtMs := now;
      }
    }

    method RecordEmbedSuccess(ghost now: int)
      requires Valid() && system.outstanding > 0
      modifies this
      ensures Valid() && system == Apply(config, old(system), Succeed(now))
      ensures failures == 0
    {
      StepKeepsInv(config, system, Succeed(now));
      system := Apply(config, system, Succeed(now));
      failures := 0;
      openedAtMs := 0;
      trialInFlight := false;
    }
  }
}
