/**
  Retry, backoff and fallback around one provider attempt, and the SSE events a streamed answer
  emits through it. An attempt is an oracle's script: whether the provider stream opened, the
  text chunks it produced, and how it ended.
*/
module ResilientStream {
  import opened Wrappers
  import opened ChatTypes

  type Alias = string

  /** An HTTP exception (with or without an error code in its body), or any other error. */
  datatype Failure = Http(status: nat, hasCode: bool) | Other

  datatype End = Ok(value: ProviderFinal) | Err(error: Failure)

  datatype Script = Script(opens: bool, chunks: seq<string>, end: End, ms: nat)

  type Oracle = (Alias, nat) -> Script

  datatype Policy = Policy(maxAttempts: nat, onStatus: set<nat>, initialDelayMs: nat, maxDelayMs: nat)

  /** A meta, delta or done event, reduced to what the executor decides about it. */
  datatype Event =
    | Opened(alias: Alias)
    | Chunk(text: string)
    | Closed(value: ProviderFinal, effectiveAlias: Option<Alias>)

  datatype Call = Call(alias: Alias, attempt: nat)

  const NOTHING := ProviderFinal(None, [], None, "", "", None)
  const BAD_GATEWAY := 502
  const GATEWAY_TIMEOUT := 504

  // ---------------------------------------------------------------- the attempt deadline

  datatype TimedChunk = TimedChunk(text: string, at: nat)

  /** What a provider would do with nobody watching the clock. */
  datatype Raw = Raw(opensAt: Option<nat>, chunks: seq<TimedChunk>, end: End, settlesAt: nat)

  function ChunksBefore(chunks: seq<TimedChunk>, deadline: nat): seq<string> {
    if chunks == [] then []
    else (if chunks[0].at < deadline then [chunks[0].text] else []) + ChunksBefore(chunks[1..], deadline)
  }

  function AllChunks(chunks: seq<TimedChunk>): seq<string> {
    if chunks == [] then [] else [chunks[0].text] + AllChunks(chunks[1..])
  }

  /** The attempt raced against its deadline; an aborted attempt emits nothing more and ends as a 504. */
  function WithTimeout(timeoutMs: Option<nat>, raw: Raw): Script {
    if timeoutMs.None? || timeoutMs.value == 0 || raw.settlesAt < timeoutMs.value
    then Script(raw.opensAt.Some?, AllChunks(raw.chunks), raw.end, raw.settlesAt)
    else Script(raw.opensAt.Some? && raw.opensAt.value < timeoutMs.value,
                ChunksBefore(raw.chunks, timeoutMs.value), Err(Http(GATEWAY_TIMEOUT, true)), timeoutMs.value)
  }

  // ---------------------------------------------------------------- what a run of attempts is

  predicate Retryable(policy: Policy, e: Failure) { e.Http? && e.status in policy.onStatus }

  predicate RetryableEnd(policy: Policy, end: End) { end.Err? && Retryable(policy, end.error) }

  /** The last attempt made once attempt `k` is reached: the first that is no retryable failure, or the last allowed. */
  function StopAt(o: Oracle, policy: Policy, alias: Alias, k: nat): (n: nat)
    requires 1 <= k <= policy.maxAttempts
    ensures k <= n <= policy.maxAttempts
    decreases policy.maxAttempts - k
  {
    if k == policy.maxAttempts || !RetryableEnd(policy, o(alias, k).end) then k
    else StopAt(o, policy, alias, k + 1)
  }

  lemma {:induction false} StopsAtFirstFinalAttempt(o: Oracle, policy: Policy, alias: Alias, k: nat)
    requires 1 <= k <= policy.maxAttempts
    ensures var n := StopAt(o, policy, alias, k);
            && (forall i :: k <= i < n ==> RetryableEnd(policy, o(alias, i).end))
            && (n == policy.maxAttempts || !RetryableEnd(policy, o(alias, n).end))
    decreases policy.maxAttempts - k
  {
    if k < policy.maxAttempts && RetryableEnd(policy, o(alias, k).end) {
      StopsAtFirstFinalAttempt(o, policy, alias, k + 1);
    }
  }

  function Attempts(o: Oracle, policy: Policy, alias: Alias): nat
    requires policy.maxAttempts >= 1
  {
    StopAt(o, policy, alias, 1)
  }

  function Final(o: Oracle, policy: Policy, alias: Alias): Script
    requires policy.maxAttempts >= 1
  {
    o(alias, Attempts(o, policy, alias))
  }

  /** The log after the first `n` calls on an alias. */
  function CallsAfter(before: seq<Call>, alias: Alias, n: nat): seq<Call> {
    if n == 0 then before else CallsAfter(before, alias, n - 1) + [Call(alias, n)]
  }

  /** Numbered from 1, behind the calls made before. */
  lemma {:induction false} CallsAreNumbered(before: seq<Call>, alias: Alias, n: nat)
    ensures var calls := CallsAfter(before, alias, n);
            && |calls| == |before| + n
            && (forall i :: 0 <= i < |before| ==> calls[i] == before[i])
            && (forall i :: |before| <= i < |calls| ==> calls[i] == Call(alias, i + 1 - |before|))
    decreases n
  {
    if n > 0 {
      CallsAreNumbered(before, alias, n - 1);
    }
  }

  function Pow2(n: nat): (r: nat)
    ensures r >= 1
  {
    if n == 0 then 1 else 2 * Pow2(n - 1)
  }

  function Min(a: nat, b: nat): nat { if a <= b then a else b }

  function BackoffMs(policy: Policy, attempt: nat): nat
    requires attempt >= 1
  {
    Min(policy.maxDelayMs, policy.initialDelayMs * Pow2(attempt - 1))
  }

  /** Sleep between the first `n` attempts. */
  function SleepMs(policy: Policy, n: nat): nat {
    if n <= 1 then 0 else SleepMs(policy, n - 1) + BackoffMs(policy, n - 1)
  }

  function AttemptMs(o: Oracle, alias: Alias, n: nat): nat {
    if n == 0 then 0 else AttemptMs(o, alias, n - 1) + o(alias, n).ms
  }

  function Deltas(chunks: seq<string>): seq<Event> {
    seq(|chunks|, i requires 0 <= i < |chunks| => Chunk(chunks[i]))
  }

  /** The text an attempt sends; nothing when its stream never opened. */
  function Assembled(sc: Script): string { if sc.opens then Concat(sc.chunks) else "" }

  /** The trace once an attempt is over; the meta event goes out once, with the first stream that opens. */
  function EmitTo(before: seq<Event>, metaEmitted: bool, alias: Alias, sc: Script): seq<Event> {
    if !sc.opens then before
    else (if metaEmitted then before else before + [Opened(alias)]) + Deltas(sc.chunks)
  }

  predicate OpenedBy(o: Oracle, alias: Alias, n: nat) { n > 0 && (OpenedBy(o, alias, n - 1) || o(alias, n).opens) }

  /** The trace after the first `n` attempts on an alias. */
  function EventsAfter(before: seq<Event>, metaEmitted: bool, o: Oracle, alias: Alias, n: nat): seq<Event> {
    if n == 0 then before
    else
      EmitTo(EventsAfter(before, metaEmitted, o, alias, n - 1), metaEmitted || OpenedBy(o, alias, n - 1),
             alias, o(alias, n))
  }

  /** All text sent to the client so far. */
  function TextOf(events: seq<Event>): string {
    if events == [] then ""
    else
      var e := events[|events| - 1];
      TextOf(events[..|events| - 1]) + (if e.Chunk? then e.text else "")
  }

  /** A stream in progress: nothing yet, or the meta event and deltas after it. */
  predicate InProgress(events: seq<Event>, metaEmitted: bool) {
    if metaEmitted
    then events != [] && events[0].Opened? && forall i :: 1 <= i < |events| ==> events[i].Chunk?
    else events == []
  }

  predicate EndsWith(s: string, suffix: string) { |suffix| <= |s| && s[|s| - |suffix|..] == suffix }

  lemma {:induction false} TextOfAppend(xs: seq<Event>, ys: seq<Event>)
    ensures TextOf(xs + ys) == TextOf(xs) + TextOf(ys)
    decreases |ys|
  {
    if ys == [] {
      assert xs + ys == xs;
    } else {
      assert (xs + ys)[..|xs + ys| - 1] == xs + ys[..|ys| - 1];
      TextOfAppend(xs, ys[..|ys| - 1]);
    }
  }

  lemma {:induction false} TextOfDeltas(chunks: seq<string>)
    ensures TextOf(Deltas(chunks)) == Concat(chunks)
    decreases |chunks|
  {
    if chunks != [] {
      assert Deltas(chunks)[..|chunks| - 1] == Deltas(chunks[..|chunks| - 1]);
      TextOfDeltas(chunks[..|chunks| - 1]);
    }
  }

  /** An attempt appends its own text and nothing else. */
  lemma AttemptText(before: seq<Event>, metaEmitted: bool, alias: Alias, sc: Script)
    ensures TextOf(EmitTo(before, metaEmitted, alias, sc)) == TextOf(before) + Assembled(sc)
  {
    if sc.opens {
      TextOfDeltas(sc.chunks);
      if metaEmitted {
        TextOfAppend(before, Deltas(sc.chunks));
      } else {
        TextOfAppend(before, [Opened(alias)]);
        TextOfAppend(before + [Opened(alias)], Deltas(sc.chunks));
        assert TextOf([Opened(alias)]) == "" by { assert [Opened(alias)][..0] == []; }
      }
    }
  }

  lemma OwnTextIsLast(text: string, own: string)
    ensures EndsWith(text + own, own)
  {
    assert (text + own)[|text|..] == own;
  }

  /** An attempt keeps the trace in progress, and its own text is the end of the text sent. */
  lemma AttemptKeepsShape(before: seq<Event>, metaEmitted: bool, alias: Alias, sc: Script)
    requires InProgress(before, metaEmitted)
    ensures InProgress(EmitTo(before, metaEmitted, alias, sc), metaEmitted || sc.opens)
    ensures EndsWith(TextOf(EmitTo(before, metaEmitted, alias, sc)), Assembled(sc))
  {
    AttemptText(before, metaEmitted, alias, sc);
    OwnTextIsLast(TextOf(before), Assembled(sc));
  }

  // ---------------------------------------------------------------- execution

  datatype AliasResult = AliasResult(end: End, attempts: nat, assembledText: string)

  datatype Thrown =
    | CircularFallback
    | PrimaryError(error: Failure)
    | Exhausted(status: nat, totalAttempts: Option<nat>)

  datatype Result =
    | Success(value: ProviderFinal, usedAlias: Alias, attempts: nat, didFallback: bool, assembledText: string)
    | Throws(thrown: Thrown)

  /** A stream that never opened cannot have ended well. */
  ghost predicate StreamOracle(o: Oracle) { forall a, k :: o(a, k).end.Ok? ==> o(a, k).opens }

  function ExhaustedError(primary: Failure, policy: Policy): Thrown {
    if primary.Http? && primary.hasCode
    then Exhausted(primary.status, Some(policy.maxAttempts * 2))
    else Exhausted(BAD_GATEWAY, None)
  }

  /** What the executor returns for a given oracle, said without its loops. */
  function ExpectedResult(o: Oracle, policy: Policy, primary: Alias, fallback: Option<Alias>): Result
    requires policy.maxAttempts >= 1
  {
    var p := Final(o, policy, primary);
    if fallback == Some(primary) then Throws(CircularFallback)
    else if p.end.Ok? then Success(p.end.value, primary, Attempts(o, policy, primary), false, Assembled(p))
    else if fallback.None? then Throws(PrimaryError(p.end.error))
    else
      var f := Final(o, policy, fallback.value);
      if f.end.Ok?
      then Success(f.end.value, fallback.value,
                   Attempts(o, policy, primary) + Attempts(o, policy, fallback.value), true, Assembled(f))
      else Throws(ExhaustedError(p.end.error, policy))
  }

  /** The calls the executor makes for a given oracle. */
  function ExpectedCalls(o: Oracle, policy: Policy, primary: Alias, fallback: Option<Alias>): seq<Call>
    requires policy.maxAttempts >= 1
  {
    if fallback == Some(primary) then []
    else
      var first := CallsAfter([], primary, Attempts(o, policy, primary));
      if Final(o, policy, primary).end.Ok? || fallback.None? then first
      else CallsAfter(first, fallback.value, Attempts(o, policy, fallback.value))
  }

  predicate ExpectedMeta(o: Oracle, policy: Policy, primary: Alias, fallback: Option<Alias>)
    requires policy.maxAttempts >= 1
  {
    && fallback != Some(primary)
    && (|| OpenedBy(o, primary, Attempts(o, policy, primary))
        || (Final(o, policy, primary).end.Err? && fallback.Some?
            && OpenedBy(o, fallback.value, Attempts(o, policy, fallback.value))))
  }

  /** The events all its attempts emit. */
  function ExpectedEvents(o: Oracle, policy: Policy, primary: Alias, fallback: Option<Alias>): seq<Event>
    requires policy.maxAttempts >= 1
  {
    if fallback == Some(primary) then []
    else
      var p := Attempts(o, policy, primary);
      var first := EventsAfter([], false, o, primary, p);
      if Final(o, policy, primary).end.Ok? || fallback.None? then first
      else EventsAfter(first, OpenedBy(o, primary, p), o, fallback.value, Attempts(o, policy, fallback.value))
  }

  lemma {:induction false} AttemptsKeepShape(before: seq<Event>, metaEmitted: bool, o: Oracle, alias: Alias, n: nat)
    requires InProgress(before, metaEmitted)
    ensures InProgress(EventsAfter(before, metaEmitted, o, alias, n), metaEmitted || OpenedBy(o, alias, n))
    ensures n > 0 ==> EndsWith(TextOf(EventsAfter(before, metaEmitted, o, alias, n)), Assembled(o(alias, n)))
    decreases n
  {
    if n > 0 {
      AttemptsKeepShape(before, metaEmitted, o, alias, n - 1);
      AttemptKeepsShape(EventsAfter(before, metaEmitted, o, alias, n - 1),
                        metaEmitted || OpenedBy(o, alias, n - 1), alias, o(alias, n));
    }
  }

  /**
    The trace of every execution, whatever fails and however often it is retried: nothing, or one meta
    event followed by deltas only; and on success the assembled text is the end of the text sent.
  */
  lemma TraceIsWellFormed(o: Oracle, policy: Policy, primary: Alias, fallback: Option<Alias>)
    requires policy.maxAttempts >= 1
    ensures InProgress(ExpectedEvents(o, policy, primary, fallback), ExpectedMeta(o, policy, primary, fallback))
    ensures var r := ExpectedResult(o, policy, primary, fallback);
            r.Success? ==> EndsWith(TextOf(ExpectedEvents(o, policy, primary, fallback)), r.assembledText)
    ensures StreamOracle(o) && ExpectedResult(o, policy, primary, fallback).Success? ==>
              ExpectedMeta(o, policy, primary, fallback)
  {
    if fallback != Some(primary) {
      var p := Attempts(o, policy, primary);
      AttemptsKeepShape([], false, o, primary, p);
      if Final(o, policy, primary).end.Err? && fallback.Some? {
        AttemptsKeepShape(EventsAfter([], false, o, primary, p), OpenedBy(o, primary, p), o, fallback.value,
                          Attempts(o, policy, fallback.value));
      }
    }
  }

  // ---------------------------------------------------------------- the outcome, read off the calls made

  /** How a call ended. */
  function EndOf(o: Oracle, call: Call): End { o(call.alias, call.attempt).end }

  /** How the last call on an alias ended. */
  function LastEnd(o: Oracle, calls: seq<Call>, alias: Alias): Option<End> {
    if calls == [] then None
    else
      var last := calls[|calls| - 1];
      if last.alias == alias then Some(EndOf(o, last)) else LastEnd(o, calls[..|calls| - 1], alias)
  }

  /**
    What is returned is the outcome of the last call made: its value, its alias and its text on
    success, its error when there was no fallback. With both aliases failed it is the error of the
    last call on the primary that gives the status.
  */
  predicate TellsOutcome(
    o: Oracle, policy: Policy, primary: Alias, fallback: Option<Alias>, calls: seq<Call>, r: Result)
  {
    match r
    case Success(value, usedAlias, attempts, didFallback, text) =>
      && calls != []
      && var last := calls[|calls| - 1];
         && EndOf(o, last) == Ok(value) && usedAlias == last.alias && attempts == |calls|
         && (didFallback <==> last.alias != primary)
         && text == Assembled(o(last.alias, last.attempt))
    case Throws(CircularFallback) => calls == [] && fallback == Some(primary)
    case Throws(PrimaryError(error)) =>
      && calls != [] && fallback.None?
      && var last := calls[|calls| - 1];
         last.alias == primary && EndOf(o, last) == Err(error)
    case Throws(Exhausted(status, total)) =>
      && calls != [] && fallback.Some?
      && calls[|calls| - 1].alias == fallback.value && EndOf(o, calls[|calls| - 1]).Err?
      && var end := LastEnd(o, calls, primary);
         && end.Some? && end.value.Err?
         && if end.value.error.Http? && end.value.error.hasCode
            then status == end.value.error.status && total == Some(policy.maxAttempts * 2)
            else status == 502 && total == None
  }

  /** All chunks the calls produced, in order. */
  function SentChunks(o: Oracle, calls: seq<Call>): seq<string> {
    if calls == [] then []
    else
      var last := calls[|calls| - 1];
      SentChunks(o, calls[..|calls| - 1]) + ChunksOf(o(last.alias, last.attempt))
  }

  function ChunksOf(sc: Script): seq<string> { if sc.opens then sc.chunks else [] }

  /** The aliases of the calls that opened a stream, in order. */
  function Openers(o: Oracle, calls: seq<Call>): seq<Alias> {
    if calls == [] then []
    else
      var last := calls[|calls| - 1];
      Openers(o, calls[..|calls| - 1]) + (if o(last.alias, last.attempt).opens then [last.alias] else [])
  }

  /** The trace the calls leave: the alias of the first that opened, then every chunk of every call. */
  predicate TellsCalls(o: Oracle, calls: seq<Call>, events: seq<Event>) {
    events == (if Openers(o, calls) == [] then [] else [Opened(Openers(o, calls)[0])]) + Deltas(SentChunks(o, calls))
  }

  lemma DeltasAppend(xs: seq<string>, ys: seq<string>)
    ensures Deltas(xs + ys) == Deltas(xs) + Deltas(ys)
  {
  }

  lemma {:induction false} OneMoreCall(o: Oracle, calls: seq<Call>, call: Call)
    ensures var sc := o(call.alias, call.attempt);
            && SentChunks(o, calls + [call]) == SentChunks(o, calls) + ChunksOf(sc)
            && Openers(o, calls + [call]) == Openers(o, calls) + (if sc.opens then [call.alias] else [])
  {
    var all := calls + [call];
    assert all[..|all| - 1] == calls && all[|calls|] == call;
  }

  lemma EventsAssociate(a: seq<Event>, b: seq<Event>, c: seq<Event>)
    ensures (a + b) + c == a + (b + c)
  {
  }

  lemma {:induction false} OneMoreCallIsTold(o: Oracle, calls: seq<Call>, events: seq<Event>, call: Call)
    requires TellsCalls(o, calls, events)
    ensures TellsCalls(o, calls + [call],
                       EmitTo(events, Openers(o, calls) != [], call.alias, o(call.alias, call.attempt)))
    ensures Openers(o, calls + [call]) != [] <==> Openers(o, calls) != [] || o(call.alias, call.attempt).opens
  {
    var sc := o(call.alias, call.attempt);
    OneMoreCall(o, calls, call);
    DeltasAppend(SentChunks(o, calls), ChunksOf(sc));
    if Openers(o, calls) != [] {
      EventsAssociate([Opened(Openers(o, calls)[0])], Deltas(SentChunks(o, calls)), Deltas(ChunksOf(sc)));
    } else {
      NothingOpenedNothingSent(o, calls);
      assert events == [];
    }
  }

  lemma {:induction false} NothingOpenedNothingSent(o: Oracle, calls: seq<Call>)
    requires Openers(o, calls) == []
    ensures SentChunks(o, calls) == []
    decreases |calls|
  {
    if calls != [] {
      NothingOpenedNothingSent(o, calls[..|calls| - 1]);
    }
  }

  lemma {:induction false} AttemptsAreTold(
    o: Oracle, calls: seq<Call>, events: seq<Event>, alias: Alias, n: nat)
    requires TellsCalls(o, calls, events)
    ensures TellsCalls(o, CallsAfter(calls, alias, n), EventsAfter(events, Openers(o, calls) != [], o, alias, n))
    ensures Openers(o, CallsAfter(calls, alias, n)) != [] <==> Openers(o, calls) != [] || OpenedBy(o, alias, n)
    decreases n
  {
    if n > 0 {
      AttemptsAreTold(o, calls, events, alias, n - 1);
      OneMoreCallIsTold(o, CallsAfter(calls, alias, n - 1),
                        EventsAfter(events, Openers(o, calls) != [], o, alias, n - 1), Call(alias, n));
    }
  }

  lemma {:induction false} LastEndStays(o: Oracle, before: seq<Call>, alias: Alias, other: Alias, n: nat)
    requires alias != other
    ensures LastEnd(o, CallsAfter(before, other, n), alias) == LastEnd(o, before, alias)
    decreases n
  {
    if n > 0 {
      LastEndStays(o, before, alias, other, n - 1);
      var calls := CallsAfter(before, other, n);
      assert calls[..|calls| - 1] == CallsAfter(before, other, n - 1);
    }
  }

  lemma ResultTellsOutcome(o: Oracle, policy: Policy, primary: Alias, fallback: Option<Alias>)
    requires policy.maxAttempts >= 1
    ensures TellsOutcome(o, policy, primary, fallback, ExpectedCalls(o, policy, primary, fallback),
                         ExpectedResult(o, policy, primary, fallback))
  {
    if fallback != Some(primary) {
      var p := Attempts(o, policy, primary);
      CallsAreNumbered([], primary, p);
      var calls := ExpectedCalls(o, policy, primary, fallback);
      if Final(o, policy, primary).end.Err? && fallback.Some? {
        var f := Attempts(o, policy, fallback.value);
        LastEndStays(o, CallsAfter([], primary, p), primary, fallback.value, f);
        CallsAreNumbered(CallsAfter([], primary, p), fallback.value, f);
        assert calls[|calls| - 1] == Call(fallback.value, f);
      }
    }
  }

  lemma {:induction false} FirstAliasIsTold(o: Oracle, alias: Alias, n: nat)
    ensures TellsCalls(o, CallsAfter([], alias, n), EventsAfter([], false, o, alias, n))
    ensures Openers(o, CallsAfter([], alias, n)) != [] <==> OpenedBy(o, alias, n)
  {
    AttemptsAreTold(o, [], [], alias, n);
  }

  lemma {:induction false} BothAliasesAreTold(o: Oracle, primary: Alias, p: nat, fallback: Alias, f: nat)
    ensures TellsCalls(o, CallsAfter(CallsAfter([], primary, p), fallback, f),
                       EventsAfter(EventsAfter([], false, o, primary, p), OpenedBy(o, primary, p), o, fallback, f))
  {
    FirstAliasIsTold(o, primary, p);
    AttemptsAreTold(o, CallsAfter([], primary, p), EventsAfter([], false, o, primary, p), fallback, f);
  }

  lemma {:induction false} EventsTellCalls(o: Oracle, policy: Policy, primary: Alias, fallback: Option<Alias>)
    requires policy.maxAttempts >= 1
    ensures TellsCalls(o, ExpectedCalls(o, policy, primary, fallback), ExpectedEvents(o, policy, primary, fallback))
  {
    if fallback != Some(primary) {
      var p := Attempts(o, policy, primary);
      if Final(o, policy, primary).end.Err? && fallback.Some? {
        BothAliasesAreTold(o, primary, p, fallback.value, Attempts(o, policy, fallback.value));
      } else {
        FirstAliasIsTold(o, primary, p);
      }
    }
  }

  /** Sleep before each call that is not the first on its alias. */
  function SleepOf(policy: Policy, calls: seq<Call>): nat {
    if calls == [] then 0
    else
      var last := calls[|calls| - 1];
      SleepOf(policy, calls[..|calls| - 1]) + (if last.attempt > 1 then BackoffMs(policy, last.attempt - 1) else 0)
  }

  function TimeOf(o: Oracle, calls: seq<Call>): nat {
    if calls == [] then 0
    else
      var last := calls[|calls| - 1];
      TimeOf(o, calls[..|calls| - 1]) + o(last.alias, last.attempt).ms
  }

  lemma {:induction false} CallsTellCost(before: seq<Call>, o: Oracle, policy: Policy, alias: Alias, n: nat)
    ensures SleepOf(policy, CallsAfter(before, alias, n)) == SleepOf(policy, before) + SleepMs(policy, n)
    ensures TimeOf(o, CallsAfter(before, alias, n)) == TimeOf(o, before) + AttemptMs(o, alias, n)
    decreases n
  {
    if n > 0 {
      CallsTellCost(before, o, policy, alias, n - 1);
      var calls := CallsAfter(before, alias, n);
      assert calls[..|calls| - 1] == CallsAfter(before, alias, n - 1);
    }
  }

  // ---------------------------------------------------------------- one session

  /** What a session has emitted and cost. */
  datatype Spent = Spent(events: seq<Event>, metaEmitted: bool, calls: seq<Call>, sleptMs: nat, attemptMs: nat)

  /** The same after `n` attempts on an alias, with the sleep between them. */
  ghost function AliasCost(before: Spent, o: Oracle, policy: Policy, alias: Alias, n: nat): Spent {
    Spent(EventsAfter(before.events, before.metaEmitted, o, alias, n),
          before.metaEmitted || OpenedBy(o, alias, n),
          CallsAfter(before.calls, alias, n),
          before.sleptMs + SleepMs(policy, n),
          before.attemptMs + AttemptMs(o, alias, n))
  }

  /** The same when `attempt` is about to be made, with the sleep before it. */
  ghost function CostAfter(before: Spent, o: Oracle, policy: Policy, alias: Alias, attempt: nat): Spent
    requires attempt >= 1
  {
    AliasCost(before, o, policy, alias, attempt - 1).(sleptMs := before.sleptMs + SleepMs(policy, attempt))
  }

  /** The same after a whole execution. */
  ghost function ExpectedCost(before: Spent, o: Oracle, policy: Policy, primary: Alias, fallback: Option<Alias>): Spent
    requires policy.maxAttempts >= 1
  {
    if fallback == Some(primary) then before
    else
      var first := AliasCost(before, o, policy, primary, Attempts(o, policy, primary));
      if Final(o, policy, primary).end.Ok? || fallback.None? then first
      else AliasCost(first, o, policy, fallback.value, Attempts(o, policy, fallback.value))
  }

  /** The trace, the calls and the times of an execution that starts from nothing. */
  lemma ExpectedCostTells(before: Spent, o: Oracle, policy: Policy, primary: Alias, fallback: Option<Alias>)
    requires policy.maxAttempts >= 1 && before.events == [] && !before.metaEmitted && before.calls == []
    ensures var after := ExpectedCost(before, o, policy, primary, fallback);
            && after.events == ExpectedEvents(o, policy, primary, fallback)
            && after.metaEmitted == ExpectedMeta(o, policy, primary, fallback)
            && after.calls == ExpectedCalls(o, policy, primary, fallback)
            && after.sleptMs == before.sleptMs + SleepOf(policy, after.calls)
            && after.attemptMs == before.attemptMs + TimeOf(o, after.calls)
  {
    if fallback != Some(primary) {
      var p := Attempts(o, policy, primary);
      CallsTellCost([], o, policy, primary, p);
      if Final(o, policy, primary).end.Err? && fallback.Some? {
        CallsTellCost(CallsAfter([], primary, p), o, policy, fallback.value, Attempts(o, policy, fallback.value));
      }
    }
  }

  /** One more attempt. */
  ghost function Attempted(before: Spent, alias: Alias, attempt: nat, sc: Script): Spent {
    Spent(EmitTo(before.events, before.metaEmitted, alias, sc), before.metaEmitted || sc.opens,
          before.calls + [Call(alias, attempt)], before.sleptMs, before.attemptMs + sc.ms)
  }

  /** After attempt number `attempt`, without and with the sleep that follows a retryable failure. */
  lemma AttemptedOnce(before: Spent, o: Oracle, policy: Policy, alias: Alias, attempt: nat)
    requires attempt >= 1
    ensures var c := Attempted(CostAfter(before, o, policy, alias, attempt), alias, attempt, o(alias, attempt));
            && c == AliasCost(before, o, policy, alias, attempt)
            && c.(sleptMs := c.sleptMs + BackoffMs(policy, attempt)) == CostAfter(before, o, policy, alias, attempt + 1)
  {
  }

  /** The loop goes on exactly past a retryable failure that is not the last attempt allowed. */
  lemma StopsHereOrLater(o: Oracle, policy: Policy, alias: Alias, attempt: nat)
    requires 1 <= attempt <= policy.maxAttempts
    ensures var end := o(alias, attempt).end;
            StopAt(o, policy, alias, attempt) ==
              if end.Ok? || !Retryable(policy, end.error) || attempt == policy.maxAttempts then attempt
              else StopAt(o, policy, alias, attempt + 1)
  {
  }

  /** One request: the events its client has seen, and what it cost. */
  class Session {
    var events: seq<Event>
    var metaEmitted: bool
    var calls: seq<Call>
    var sleptMs: nat
    var attemptMs: nat

    constructor ()
      ensures events == [] && !metaEmitted && calls == [] && sleptMs == 0 && attemptMs == 0
    {
      events, metaEmitted, calls, sleptMs, attemptMs := [], false, [], 0, 0;
    }

    ghost function Cost(): Spent
      reads this
    {
      Spent(events, metaEmitted, calls, sleptMs, attemptMs)
    }

    /** One attempt. It emits meta at most once per session, then every chunk as it arrives. */
    method StreamOnce(alias: Alias, attempt: nat, sc: Script) returns (end: End, assembledText: string)
      modifies this
      ensures Cost() == Attempted(old(Cost()), alias, attempt, sc)
      ensures end == sc.end
      ensures assembledText == Assembled(sc)
    {
      calls := calls + [Call(alias, attempt)];
      attemptMs := attemptMs + sc.ms;
      assembledText := "";
      end := sc.end;
      if sc.opens {
        if !metaEmitted {
          events := events + [Opened(alias)];
          metaEmitted := true;
        }
        ghost var base := events;
        var i := 0;
        while i < |sc.chunks|
          invariant 0 <= i <= |sc.chunks|
          invariant events == base + Deltas(sc.chunks[..i])
          invariant assembledText == Concat(sc.chunks[..i]) && metaEmitted
          invariant calls == old(calls) + [Call(alias, attempt)]
          invariant sleptMs == old(sleptMs) && attemptMs == old(attemptMs) + sc.ms
        {
          assert sc.chunks[..i + 1][..i] == sc.chunks[..i];
          assert Deltas(sc.chunks[..i + 1]) == Deltas(sc.chunks[..i]) + [Chunk(sc.chunks[i])];
          assembledText := assembledText + sc.chunks[i];
          events := events + [Chunk(sc.chunks[i])];
          i := i + 1;
        }
        assert sc.chunks[..i] == sc.chunks;
      }
    }

    /** Attempts on one alias, with backoff between retryable failures. */
    method TryAlias(o: Oracle, policy: Policy, alias: Alias) returns (r: AliasResult)
      requires policy.maxAttempts >= 1
      modifies this
      ensures var last := Final(o, policy, alias);
              r == AliasResult(last.end, Attempts(o, policy, alias), Assembled(last))
      ensures Cost() == AliasCost(old(Cost()), o, policy, alias, r.attempts)
    {
      ghost var start := Cost();
      var attempt := 1;
      while true
        invariant 1 <= attempt <= policy.maxAttempts
        invariant Attempts(o, policy, alias) == StopAt(o, policy, alias, attempt)
        invariant Cost() == CostAfter(start, o, policy, alias, attempt)
        decreases policy.maxAttempts - attempt
      {
        var end, text := StreamOnce(alias, attempt, o(alias, attempt));
        AttemptedOnce(start, o, policy, alias, attempt);
        StopsHereOrLater(o, policy, alias, attempt);
        if end.Ok? || !Retryable(policy, end.error) || attempt == policy.maxAttempts {
          return AliasResult(end, attempt, text);
        }
        sleptMs := sleptMs + BackoffMs(policy, attempt);
        attempt := attempt + 1;
      }
    }

    method ExecuteWithRetryAndFallback(o: Oracle, policy: Policy, primary: Alias, fallback: Option<Alias>)
      returns (r: Result)
      requires policy.maxAttempts >= 1 && events == [] && !metaEmitted && calls == []
      modifies this
      ensures TellsOutcome(o, policy, primary, fallback, calls, r) && TellsCalls(o, calls, events)
      ensures sleptMs == old(sleptMs) + SleepOf(policy, calls) && attemptMs == old(attemptMs) + TimeOf(o, calls)
      ensures InProgress(events, metaEmitted)
      ensures r.Success? ==> EndsWith(TextOf(events), r.assembledText)
      ensures r.Success? && StreamOracle(o) ==> metaEmitted
      ensures r == ExpectedResult(o, policy, primary, fallback)
      ensures events == ExpectedEvents(o, policy, primary, fallback)
      ensures metaEmitted == ExpectedMeta(o, policy, primary, fallback)
      ensures calls == ExpectedCalls(o, policy, primary, fallback)
    {
      ResultTellsOutcome(o, policy, primary, fallback);
      EventsTellCalls(o, policy, primary, fallback);
      ExpectedCostTells(Cost(), o, policy, primary, fallback);
      TraceIsWellFormed(o, policy, primary, fallback);
      r := PrimaryThenFallback(o, policy, primary, fallback);
    }

    method PrimaryThenFallback(o: Oracle, policy: Policy, primary: Alias, fallback: Option<Alias>) returns (r: Result)
      requires policy.maxAttempts >= 1
      modifies this
      ensures r == ExpectedResult(o, policy, primary, fallback)
      ensures Cost() == ExpectedCost(old(Cost()), o, policy, primary, fallback)
    {
      if fallback == Some(primary) {
        return Throws(CircularFallback);
      }
      var p := TryAlias(o, policy, primary);
      if p.end.Ok? {
        return Success(p.end.value, primary, p.attempts, false, p.assembledText);
      }
      if fallback.None? {
        return Throws(PrimaryError(p.end.error));
      }
      var f := TryAlias(o, policy, fallback.value);
      if f.end.Ok? {
        return Success(f.end.value, fallback.value, p.attempts + f.attempts, true, f.assembledText);
      }
      return Throws(ExhaustedError(p.end.error, policy));
    }

    /**
      A streamed request that missed the cache. `stored` is the text handed to the cache, `trace` all
      events but the last.
      The trace is nothing, or one meta event, deltas, and exactly one done event at the end when
      the request succeeded and none when it did not. What is cached is the successful attempt's
      text, the last part of what the client saw, and only when the primary alias produced it.
    */
    method ExecuteStreamMiss(o: Oracle, policy: Policy, primary: Alias, fallback: Option<Alias>)
      returns (r: Result, stored: Option<string>, ghost trace: seq<Event>)
      requires policy.maxAttempts >= 1 && StreamOracle(o)
      requires events == [] && !metaEmitted && calls == []
      modifies this
      ensures TellsOutcome(o, policy, primary, fallback, calls, r) && TellsCalls(o, calls, trace)
      ensures r == ExpectedResult(o, policy, primary, fallback)
      ensures trace == ExpectedEvents(o, policy, primary, fallback)
      ensures calls == ExpectedCalls(o, policy, primary, fallback)
      ensures InProgress(trace, metaEmitted)
      ensures r.Success? ==> metaEmitted && EndsWith(TextOf(trace), r.assembledText)
      ensures r.Success? ==> events == trace + [Closed(r.value, if r.didFallback then Some(r.usedAlias) else None)]
      ensures r.Throws? ==> events == trace
      ensures stored == if r.Success? && !r.didFallback then Some(r.assembledText) else None
    {
      r := ExecuteWithRetryAndFallback(o, policy, primary, fallback);
      trace := events;
      stored := None;
      if r.Success? {
        events := events + [Closed(r.value, if r.didFallback then Some(r.usedAlias) else None)];
        if !r.didFallback {
          stored := Some(r.assembledText);
        }
      }
    }
  }

  // ---------------------------------------------------------------- accounting

  lemma {:induction false} SleepGrows(policy: Policy, n: nat, m: nat)
    requires n <= m
    ensures SleepMs(policy, n) <= SleepMs(policy, m)
    decreases m
  {
    if n < m {
      SleepGrows(policy, n, m - 1);
    }
  }

  /** Both aliases together sleep at most twice as long as one that uses all its attempts. */
  lemma WholeSleepIsBounded(o: Oracle, policy: Policy, primary: Alias, fallback: Option<Alias>)
    requires policy.maxAttempts >= 1
    ensures SleepOf(policy, ExpectedCalls(o, policy, primary, fallback)) <= 2 * SleepMs(policy, policy.maxAttempts)
  {
    if fallback != Some(primary) {
      var p := Attempts(o, policy, primary);
      CallsTellCost([], o, policy, primary, p);
      SleepGrows(policy, p, policy.maxAttempts);
      if Final(o, policy, primary).end.Err? && fallback.Some? {
        var f := Attempts(o, policy, fallback.value);
        CallsTellCost(CallsAfter([], primary, p), o, policy, fallback.value, f);
        SleepGrows(policy, f, policy.maxAttempts);
      }
    }
  }

  /** Backoff starts at the initial delay and doubles until it meets the cap, exactly. */
  lemma BackoffDoublesUntilCapped(policy: Policy, attempt: nat)
    requires attempt >= 1
    ensures BackoffMs(policy, 1) == Min(policy.maxDelayMs, policy.initialDelayMs)
    ensures BackoffMs(policy, attempt + 1) == Min(policy.maxDelayMs, 2 * BackoffMs(policy, attempt))
  {
    var x := policy.initialDelayMs * Pow2(attempt - 1);
    assert policy.initialDelayMs * Pow2(attempt) == 2 * x;
  }

  /** Backoff doubles up to a cap, so the sleep on one alias is below both geometric and linear bounds. */
  lemma {:induction false} SleepIsBounded(policy: Policy, m: nat)
    requires m >= 1
    ensures SleepMs(policy, m) <= policy.initialDelayMs * (Pow2(m - 1) - 1)
    ensures SleepMs(policy, m) <= (m - 1) * policy.maxDelayMs
    decreases m
  {
    if m > 1 {
      SleepIsBounded(policy, m - 1);
      GeometricStep(SleepMs(policy, m - 1), BackoffMs(policy, m - 1), policy.initialDelayMs, Pow2(m - 2));
      LinearStep(SleepMs(policy, m - 1), BackoffMs(policy, m - 1), policy.maxDelayMs, m - 2);
    }
  }

  lemma GeometricStep(slept: nat, next: nat, i: nat, p: nat)
    requires p >= 1 && slept <= i * (p - 1) && next <= i * p
    ensures slept + next <= i * (2 * p - 1)
  {
    assert i * (p - 1) + i * p == i * ((p - 1) + p);
  }

  lemma LinearStep(slept: nat, next: nat, cap: nat, n: nat)
    requires slept <= n * cap && next <= cap
    ensures slept + next <= (n + 1) * cap
  {
  }

  /** An HTTP failure with one of the statuses that are retried. */
  predicate FailedWithStatusIn(end: End, statuses: set<nat>) {
    end.Err? && end.error.Http? && end.error.status in statuses
  }

  /** The log is `p` calls on the primary and `f` on the fallback, as the retry rules ask. */
  ghost predicate AccountedBy(o: Oracle, policy: Policy, primary: Alias, fallback: Option<Alias>, p: nat, f: nat)
    requires policy.maxAttempts >= 1
  {
    var log := ExpectedCalls(o, policy, primary, fallback);
    && 1 <= p <= policy.maxAttempts && f <= policy.maxAttempts
    && |log| == p + f
    && (forall i :: 0 <= i < p ==> log[i] == Call(primary, i + 1))
    && (forall k :: 1 <= k < p ==> FailedWithStatusIn(o(primary, k).end, policy.onStatus))
    && (p < policy.maxAttempts ==> !FailedWithStatusIn(o(primary, p).end, policy.onStatus))
    && (f > 0 <==> (fallback.Some? && o(primary, p).end.Err?))
    && (f > 0 ==>
          && (forall i :: p <= i < p + f ==> log[i] == Call(fallback.value, i + 1 - p))
          && (forall k :: 1 <= k < f ==> FailedWithStatusIn(o(fallback.value, k).end, policy.onStatus))
          && (f < policy.maxAttempts ==> !FailedWithStatusIn(o(fallback.value, f).end, policy.onStatus)))
  }

  /**
    The call log, for every oracle: primary attempts 1..p, then fallback attempts 1..f exactly when
    the primary failed and there is a fallback; neither count passes the limit; every call that was
    not the last on its alias failed with a retryable status; and a success reports the calls made.
  */
  lemma CallLogIsAccounted(o: Oracle, policy: Policy, primary: Alias, fallback: Option<Alias>)
    requires policy.maxAttempts >= 1 && fallback != Some(primary)
    ensures exists p: nat, f: nat :: AccountedBy(o, policy, primary, fallback, p, f)
    ensures var r := ExpectedResult(o, policy, primary, fallback);
            r.Success? ==> r.attempts == |ExpectedCalls(o, policy, primary, fallback)|
  {
    var p := Attempts(o, policy, primary);
    CallsAreNumbered([], primary, p);
    StopsAtFirstFinalAttempt(o, policy, primary, 1);
    if fallback.Some? && o(primary, p).end.Err? {
      var f := Attempts(o, policy, fallback.value);
      CallsAreNumbered(CallsAfter([], primary, p), fallback.value, f);
      StopsAtFirstFinalAttempt(o, policy, fallback.value, 1);
      assert AccountedBy(o, policy, primary, fallback, p, f);
    } else {
      assert AccountedBy(o, policy, primary, fallback, p, 0);
    }
  }

  /**
    The attempts an exhausted error reports are never fewer than the calls made, and equal exactly
    when both aliases were tried to the limit.
  */
  lemma ReportedTotalIsAnUpperBound(o: Oracle, policy: Policy, primary: Alias, fallback: Option<Alias>)
    requires policy.maxAttempts >= 1
    requires var r := ExpectedResult(o, policy, primary, fallback);
             r.Throws? && r.thrown.Exhausted? && r.thrown.totalAttempts.Some?
    ensures fallback.Some?
    ensures var made := |ExpectedCalls(o, policy, primary, fallback)|;
            var reported := ExpectedResult(o, policy, primary, fallback).thrown.totalAttempts.value;
            && made <= reported
            && (made == reported <==>
                  forall k :: 1 <= k < policy.maxAttempts ==>
                    RetryableEnd(policy, o(primary, k).end) && RetryableEnd(policy, o(fallback.value, k).end))
  {
    var p, f := Attempts(o, policy, primary), Attempts(o, policy, fallback.value);
    CallsAreNumbered([], primary, p);
    CallsAreNumbered(CallsAfter([], primary, p), fallback.value, f);
    StopsAtFirstFinalAttempt(o, policy, primary, 1);
    StopsAtFirstFinalAttempt(o, policy, fallback.value, 1);
    assert |ExpectedCalls(o, policy, primary, fallback)| == p + f;
    if p < policy.maxAttempts {
      assert !RetryableEnd(policy, o(primary, p).end);
    } else if f < policy.maxAttempts {
      assert !RetryableEnd(policy, o(fallback.value, f).end);
    }
  }

  /** Every attempt under the same deadline. */
  function Deadlined(raw: (Alias, nat) -> Raw, timeoutMs: nat): Oracle {
    (a: Alias, k: nat) => WithTimeout(Some(timeoutMs), raw(a, k))
  }

  predicate InTimeOrder(chunks: seq<TimedChunk>) {
    forall i, j :: 0 <= i <= j < |chunks| ==> chunks[i].at <= chunks[j].at
  }

  /** How many chunks come before the deadline. */
  lemma {:induction false} ChunksBeforeArePrefix(chunks: seq<TimedChunk>, deadline: nat) returns (n: nat)
    requires InTimeOrder(chunks)
    ensures n <= |chunks| && ChunksBefore(chunks, deadline) == AllChunks(chunks[..n])
    ensures forall i :: 0 <= i < |chunks| ==> (chunks[i].at < deadline <==> i < n)
    decreases |chunks|
  {
    if chunks == [] || chunks[0].at >= deadline {
      n := 0;
      NoChunkBefore(chunks, deadline);
    } else {
      var later := chunks[1..];
      assert forall i :: 0 <= i < |later| ==> later[i] == chunks[i + 1];
      var m := ChunksBeforeArePrefix(later, deadline);
      n := m + 1;
      assert chunks[..n][0] == chunks[0] && chunks[..n][1..] == later[..m];
      forall i | 0 <= i < |chunks| ensures chunks[i].at < deadline <==> i < n {
        if i > 0 { assert chunks[i] == later[i - 1]; }
      }
    }
  }

  lemma {:induction false} NoChunkBefore(chunks: seq<TimedChunk>, deadline: nat)
    requires InTimeOrder(chunks) && (chunks == [] || chunks[0].at >= deadline)
    ensures ChunksBefore(chunks, deadline) == [] && AllChunks(chunks[..0]) == []
    decreases |chunks|
  {
    if chunks != [] {
      var later := chunks[1..];
      assert forall i :: 0 <= i < |later| ==> later[i] == chunks[i + 1];
      assert later != [] ==> chunks[0].at <= chunks[1].at;
      NoChunkBefore(later, deadline);
    }
  }

  lemma {:induction false} AllChunksAre(chunks: seq<TimedChunk>)
    ensures |AllChunks(chunks)| == |chunks|
    ensures forall i :: 0 <= i < |chunks| ==> AllChunks(chunks)[i] == chunks[i].text
    decreases |chunks|
  {
    if chunks != [] {
      AllChunksAre(chunks[1..]);
    }
  }

  /**
    What a deadline does: an attempt that settles before it, or has none, is left as it is; any other
    ends at the deadline as a 504, having sent exactly the chunks that came before it.
  */
  lemma DeadlineCutsTheAttempt(timeoutMs: Option<nat>, raw: Raw)
    requires InTimeOrder(raw.chunks)
    ensures var sc := WithTimeout(timeoutMs, raw);
            if timeoutMs.Some? && timeoutMs.value > 0 && raw.settlesAt >= timeoutMs.value
            then
              && sc.end == Err(Http(504, true)) && sc.ms == timeoutMs.value
              && (sc.opens <==> raw.opensAt.Some? && raw.opensAt.value < timeoutMs.value)
              && |sc.chunks| <= |raw.chunks|
              && (forall i :: 0 <= i < |raw.chunks| ==> (raw.chunks[i].at < timeoutMs.value <==> i < |sc.chunks|))
              && (forall i :: 0 <= i < |sc.chunks| ==> sc.chunks[i] == raw.chunks[i].text)
            else
              && sc.end == raw.end && sc.ms == raw.settlesAt && (sc.opens <==> raw.opensAt.Some?)
              && |sc.chunks| == |raw.chunks|
              && (forall i :: 0 <= i < |sc.chunks| ==> sc.chunks[i] == raw.chunks[i].text)
  {
    if timeoutMs.Some? && timeoutMs.value > 0 && raw.settlesAt >= timeoutMs.value {
      var n := ChunksBeforeArePrefix(raw.chunks, timeoutMs.value);
      AllChunksAre(raw.chunks[..n]);
    } else {
      AllChunksAre(raw.chunks);
    }
  }

  /** A deadline bounds every attempt, so it bounds the time an alias can take. */
  lemma {:induction false} DeadlineBoundsAttempts(raw: (Alias, nat) -> Raw, timeoutMs: nat, alias: Alias, n: nat)
    requires timeoutMs > 0
    ensures AttemptMs(Deadlined(raw, timeoutMs), alias, n) <= n * timeoutMs
    decreases n
  {
    if n > 0 {
      DeadlineBoundsAttempts(raw, timeoutMs, alias, n - 1);
      assert Deadlined(raw, timeoutMs)(alias, n) == WithTimeout(Some(timeoutMs), raw(alias, n));
      assert n * timeoutMs == (n - 1) * timeoutMs + timeoutMs;
    }
  }

  lemma OneChunk(text: string)
    ensures Concat([text]) == text
  {
    var chunks := [text];
    assert chunks[..0] == [];
  }

  /** A retried stream shows why the cached text is only the end of what was sent. */
  lemma RetryReEmitsText()
    ensures var partial: Script := Script(true, ["Hel"], Err(Http(503, true)), 0);
            var whole: Script := Script(true, ["Hello"], Ok(NOTHING), 0);
            && TextOf(EmitTo(EmitTo([], false, "m", partial), true, "m", whole)) == "HelHello"
            && Concat(whole.chunks) == "Hello"
  {
    var partial: Script := Script(true, ["Hel"], Err(Http(503, true)), 0);
    var whole: Script := Script(true, ["Hello"], Ok(NOTHING), 0);
    AttemptText([], false, "m", partial);
    AttemptText(EmitTo([], false, "m", partial), true, "m", whole);
    OneChunk("Hel");
    OneChunk("Hello");
  }
}
