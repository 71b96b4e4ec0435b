/**
  A streamed request from end to end: retries and fallback emit the gateway's events, the Anthropic
  facade maps them, the cache keeps the answer, and a later request replays it. The three models of
  those parts are put together here, and what the client reassembles is compared.
*/
module StreamedAnswer {
  import opened Wrappers
  import opened ChatTypes
  import opened ResilientStream
  import opened StreamReplay
  import Facade = AnthropicStream

  /** What is fixed for one request, and what depends on the alias that answers. */
  datatype Context = Context(
    id: string, primary: Alias, requestId: string, conversationId: string,
    providerOf: Alias -> string, warningsOf: Alias -> seq<Warning>)

  function MetaFor(x: Context, alias: Alias): MetaPayload {
    MetaPayload(x.id, x.providerOf(alias), x.primary, if alias == x.primary then "" else alias,
                x.requestId, x.conversationId, None)
  }

  function DoneFor(x: Context, value: ProviderFinal, effectiveAlias: Option<Alias>): DonePayload {
    match effectiveAlias
    case None => BuildStreamDone(value, "", x.warningsOf(x.primary))
    case Some(alias) => BuildStreamDone(value, alias, x.warningsOf(alias))
  }

  /** The event as it goes out. */
  function Sse(x: Context, e: Event): SseEvent {
    match e
    case Opened(alias) => Meta(MetaFor(x, alias))
    case Chunk(text) => Delta(text)
    case Closed(value, effectiveAlias) => Done(DoneFor(x, value, effectiveAlias))
  }

  function AllSse(x: Context, events: seq<Event>): seq<SseEvent> {
    seq(|events|, i requires 0 <= i < |events| => Sse(x, events[i]))
  }

  /** What a client of the facade makes of a gateway stream. */
  function Reassembled(model: string, events: seq<SseEvent>): Facade.Consumer {
    Facade.ConsumeAll(Facade.Idle, Facade.AllLines(Facade.Fresh(model), events))
  }

  /** The text all attempts together sent. */
  function SentText(o: Oracle, policy: Policy, x: Context, fallback: Option<Alias>): string
    requires policy.maxAttempts >= 1
  {
    TextOf(ExpectedEvents(o, policy, x.primary, fallback))
  }

  function DoneOf(x: Context, r: Result): DonePayload
    requires r.Success?
  {
    DoneFor(x, r.value, if r.didFallback then Some(r.usedAlias) else None)
  }

  /** Everything a successful request emits. */
  function LiveEvents(o: Oracle, policy: Policy, x: Context, fallback: Option<Alias>): seq<SseEvent>
    requires policy.maxAttempts >= 1 && ExpectedResult(o, policy, x.primary, fallback).Success?
  {
    AllSse(x, ExpectedEvents(o, policy, x.primary, fallback))
    + [Done(DoneOf(x, ExpectedResult(o, policy, x.primary, fallback)))]
  }

  function ChunksOf(events: seq<Event>): seq<string>
    requires InProgress(events, true)
  {
    seq(|events| - 1, i requires 0 <= i < |events| - 1 => events[i + 1].text)
  }

  lemma TraceAsMetaAndDeltas(x: Context, events: seq<Event>)
    requires InProgress(events, true)
    ensures AllSse(x, events) == [Meta(MetaFor(x, events[0].alias))] + DeltaEvents(ChunksOf(events))
    ensures Concat(ChunksOf(events)) == TextOf(events)
  {
    var chunks := ChunksOf(events);
    var opening := [events[0]];
    assert events == opening + Deltas(chunks);
    TextOfAppend(opening, Deltas(chunks));
    TextOfDeltas(chunks);
    assert opening[..0] == [];
  }

  /** The live stream of a successful request, read through the facade. */
  lemma LiveStreamIsRead(o: Oracle, policy: Policy, x: Context, fallback: Option<Alias>, model: string)
    returns (meta: MetaPayload, chunks: seq<string>)
    requires policy.maxAttempts >= 1 && StreamOracle(o) && ExpectedResult(o, policy, x.primary, fallback).Success?
    ensures meta.id == x.id && Concat(chunks) == SentText(o, policy, x, fallback)
    ensures var done := DoneOf(x, ExpectedResult(o, policy, x.primary, fallback));
            var live := LiveEvents(o, policy, x, fallback);
            && live == [Meta(meta)] + DeltaEvents(chunks) + [Done(done)]
            && Reassembled(model, live) == Facade.Complete(Facade.StreamedMessage(model, meta, chunks, done))
  {
    var events := ExpectedEvents(o, policy, x.primary, fallback);
    TraceIsWellFormed(o, policy, x.primary, fallback);
    TraceAsMetaAndDeltas(x, events);
    meta, chunks := MetaFor(x, events[0].alias), ChunksOf(events);
    Facade.StreamIsWellFormed(model, meta, chunks, DoneOf(x, ExpectedResult(o, policy, x.primary, fallback)));
  }

  /** The meta event of a live stream, for the alias that opened it. */
  predicate TellsMeta(x: Context, alias: Alias, meta: MetaPayload) {
    && meta.id == x.id && meta.model == x.primary && meta.provider == x.providerOf(alias)
    && (alias == x.primary ==> meta.effectiveModelAlias == "")
    && (alias != x.primary ==> meta.effectiveModelAlias == alias)
    && meta.requestId == x.requestId && meta.conversationId == x.conversationId && meta.cached.None?
  }

  lemma SseOfTrace(x: Context, alias: Alias, chunks: seq<string>)
    ensures AllSse(x, [Opened(alias)] + Deltas(chunks)) == [Meta(MetaFor(x, alias))] + DeltaEvents(chunks)
  {
  }

  lemma EndsOfStream(first: SseEvent, middle: seq<SseEvent>, last: SseEvent)
    ensures var events := [first] + middle + [last];
            events[0] == first && events[|events| - 1] == last && events[1..|events| - 1] == middle
  {
  }

  lemma LiveDoneTellsLastCall(o: Oracle, policy: Policy, x: Context, fallback: Option<Alias>)
    requires policy.maxAttempts >= 1 && ExpectedResult(o, policy, x.primary, fallback).Success?
    ensures var calls := ExpectedCalls(o, policy, x.primary, fallback);
            var d := DoneOf(x, ExpectedResult(o, policy, x.primary, fallback));
            && calls != []
            && var last := calls[|calls| - 1];
               && EndOf(o, last).Ok? && TellsDone(EndOf(o, last).value, d)
               && (last.alias == x.primary ==> d.effectiveModelAlias == "")
               && (last.alias != x.primary ==> d.effectiveModelAlias == last.alias)
               && d.warnings == x.warningsOf(last.alias)
  {
    ResultTellsOutcome(o, policy, x.primary, fallback);
  }

  lemma LiveEventsTellCalls(o: Oracle, policy: Policy, x: Context, fallback: Option<Alias>)
    requires policy.maxAttempts >= 1 && StreamOracle(o) && ExpectedResult(o, policy, x.primary, fallback).Success?
    ensures var calls, events := ExpectedCalls(o, policy, x.primary, fallback), LiveEvents(o, policy, x, fallback);
            && |events| >= 2 && events[0].Meta?
            && Openers(o, calls) != [] && TellsMeta(x, Openers(o, calls)[0], events[0].meta)
            && events[1..|events| - 1] == DeltaEvents(SentChunks(o, calls))
            && events[|events| - 1] == Done(DoneOf(x, ExpectedResult(o, policy, x.primary, fallback)))
  {
    var calls := ExpectedCalls(o, policy, x.primary, fallback);
    var trace := ExpectedEvents(o, policy, x.primary, fallback);
    EventsTellCalls(o, policy, x.primary, fallback);
    TraceIsWellFormed(o, policy, x.primary, fallback);
    if Openers(o, calls) == [] {
      NothingOpenedNothingSent(o, calls);
    }
    var first := Openers(o, calls)[0];
    SseOfTrace(x, first, SentChunks(o, calls));
    EndsOfStream(Meta(MetaFor(x, first)), DeltaEvents(SentChunks(o, calls)),
                 Done(DoneOf(x, ExpectedResult(o, policy, x.primary, fallback))));
  }

  /**
    The whole live stream of a success, read off the calls that were made: a meta event for the first
    that opened, every chunk of every call as a delta, and a done event that tells the last call's
    outcome and, after a fallback, its alias.
  */
  lemma LiveStreamTellsTheCalls(o: Oracle, policy: Policy, x: Context, fallback: Option<Alias>)
    requires policy.maxAttempts >= 1 && StreamOracle(o) && ExpectedResult(o, policy, x.primary, fallback).Success?
    ensures var calls, events := ExpectedCalls(o, policy, x.primary, fallback), LiveEvents(o, policy, x, fallback);
            && calls != [] && |events| >= 2
            && var last, n := calls[|calls| - 1], |events| - 1;
               && EndOf(o, last).Ok? && events[0].Meta? && events[n].Done?
               && Openers(o, calls) != [] && TellsMeta(x, Openers(o, calls)[0], events[0].meta)
               && events[1..n] == DeltaEvents(SentChunks(o, calls))
               && TellsDone(EndOf(o, last).value, events[n].done)
               && (last.alias == x.primary ==> events[n].done.effectiveModelAlias == "")
               && (last.alias != x.primary ==> events[n].done.effectiveModelAlias == last.alias)
               && events[n].done.warnings == x.warningsOf(last.alias)
  {
    LiveEventsTellCalls(o, policy, x, fallback);
    LiveDoneTellsLastCall(o, policy, x, fallback);
  }

  /** The answer with all the text that was sent, as a finished result. */
  function SentResult(x: Context, d: DonePayload, text: string): Facade.ChatResult {
    Facade.ChatResult(x.id, text, d.toolCalls, d.thinkingContent, d.finishReason,
                      Facade.PlainUsage(d.usage), d.usageDetails)
  }

  /**
    Whatever is retried and whichever alias answers, a successful streamed request is one complete
    vendor message: read as JSON it is the non-streaming answer for the text that was sent, and that
    text ends with what the successful attempt assembled.
  */
  lemma SuccessIsOneMessage<J>(
    parse: string -> J, o: Oracle, policy: Policy, x: Context, fallback: Option<Alias>, model: string)
    requires policy.maxAttempts >= 1 && StreamOracle(o) && ExpectedResult(o, policy, x.primary, fallback).Success?
    ensures var r := ExpectedResult(o, policy, x.primary, fallback);
            var c := Reassembled(model, LiveEvents(o, policy, x, fallback));
            var text := SentText(o, policy, x, fallback);
            && c.Complete?
            && Facade.AsJson(parse, c.message) == Facade.MapResponse(parse, SentResult(x, DoneOf(x, r), text), model)
            && EndsWith(text, r.assembledText)
  {
    var r := ExpectedResult(o, policy, x.primary, fallback);
    var meta, chunks := LiveStreamIsRead(o, policy, x, fallback, model);
    TraceIsWellFormed(o, policy, x.primary, fallback);
    Facade.StreamAgreesWithJson(parse, SentResult(x, DoneOf(x, r), Concat(chunks)), model, meta, chunks, DoneOf(x, r));
  }

  // ---------------------------------------------------------------- the same answer from the cache

  /** None of the first `n` attempts sent any text. */
  predicate SilentAttempts(o: Oracle, alias: Alias, n: nat) {
    forall k: nat :: 1 <= k <= n ==> Assembled(o(alias, k)) == ""
  }

  lemma OnlyEmptyPartsAreEmpty(a: string, b: string)
    ensures a + b == "" <==> a == "" && b == ""
  {
    assert |a + b| == |a| + |b|;
  }

  lemma OnlyEmptyPrefixVanishes(a: string, b: string)
    ensures a + b == b <==> a == ""
  {
    assert |a + b| == |a| + |b|;
  }

  lemma {:induction false} TextOfOneMore(o: Oracle, alias: Alias, n: nat)
    requires n >= 1
    ensures TextOf(EventsAfter([], false, o, alias, n))
         == TextOf(EventsAfter([], false, o, alias, n - 1)) + Assembled(o(alias, n))
  {
    AttemptText(EventsAfter([], false, o, alias, n - 1), OpenedBy(o, alias, n - 1), alias, o(alias, n));
  }

  lemma {:induction false} SilentOneMore(o: Oracle, alias: Alias, n: nat)
    requires n >= 1
    ensures SilentAttempts(o, alias, n) <==> SilentAttempts(o, alias, n - 1) && Assembled(o(alias, n)) == ""
  {
  }

  lemma {:induction false} SilentAttemptsSendNothing(o: Oracle, alias: Alias, n: nat)
    ensures TextOf(EventsAfter([], false, o, alias, n)) == "" <==> SilentAttempts(o, alias, n)
    decreases n
  {
    if n > 0 {
      SilentAttemptsSendNothing(o, alias, n - 1);
      TextOfOneMore(o, alias, n);
      OnlyEmptyPartsAreEmpty(TextOf(EventsAfter([], false, o, alias, n - 1)), Assembled(o(alias, n)));
      SilentOneMore(o, alias, n);
    }
  }

  /** On one alias, what was sent is what the last attempt assembled exactly when the earlier ones sent nothing. */
  lemma {:induction false} SentIsAssembled(o: Oracle, alias: Alias, n: nat)
    requires n >= 1
    ensures TextOf(EventsAfter([], false, o, alias, n)) == Assembled(o(alias, n)) <==> SilentAttempts(o, alias, n - 1)
  {
    TextOfOneMore(o, alias, n);
    SilentAttemptsSendNothing(o, alias, n - 1);
    OnlyEmptyPrefixVanishes(TextOf(EventsAfter([], false, o, alias, n - 1)), Assembled(o(alias, n)));
  }

  /** The reply a request leaves in the cache. */
  function StoredReply(x: Context, r: Result, cachedAt: string): CachedReply
    requires r.Success?
  {
    ToCached(StoredResponse(x, r), cachedAt)
  }

  function StoredResponse(x: Context, r: Result): ChatResponse
    requires r.Success?
  {
    BuildChatResponse(r.value, r.assembledText, x.id, x.providerOf(x.primary), x.primary, "", x.warningsOf(x.primary))
  }

  /** The meta event of a replay is that of the live answer but for the asker's ids and the cache mark. */
  lemma ReplayedMetaIsTheLiveOne(
    x: Context, r: Result, cachedAt: string, source: string, requestId: string, conversationId: string)
    requires r.Success? && !r.didFallback
    ensures var meta := ReplayMeta(StoredReply(x, r, cachedAt), source, requestId, conversationId);
            && meta.requestId == requestId && meta.conversationId == conversationId
            && meta.cached == Some(CacheMark(cachedAt, source))
            && var live := meta.(requestId := x.requestId, conversationId := x.conversationId, cached := None);
               TellsMeta(x, x.primary, live)
    ensures StoredReply(x, r, cachedAt).text == r.assembledText
  {
  }

  lemma ReplayIsRead(
    x: Context, r: Result, cachedAt: string, source: string, requestId: string, conversationId: string, model: string)
    requires r.Success? && !r.didFallback && ShouldStore(StoredResponse(x, r))
    ensures var cached := StoredReply(x, r, cachedAt);
            var meta := ReplayMeta(cached, source, requestId, conversationId);
            && meta.id == x.id
            && Reassembled(model, FullReplay(cached, meta))
               == Facade.Complete(Facade.StreamedMessage(model, meta, Chunks(r.assembledText), DoneOf(x, r)))
  {
    var cached := StoredReply(x, r, cachedAt);
    var meta := ReplayMeta(cached, source, requestId, conversationId);
    AssociateReplay(meta, cached);
    ReplayedDoneIsTheOriginal(r.value, r.assembledText, x.id, x.providerOf(x.primary), x.primary,
                              x.warningsOf(x.primary), cachedAt);
    Facade.StreamIsWellFormed(model, meta, Chunks(cached.text), ReplayDone(cached));
  }

  lemma SameMessageMeansSameText(
    model: string, meta1: MetaPayload, chunks1: seq<string>, meta2: MetaPayload, chunks2: seq<string>, d: DonePayload)
    requires meta1.id == meta2.id && chunks1 != [] && chunks2 != []
    ensures Facade.StreamedMessage(model, meta1, chunks1, d) == Facade.StreamedMessage(model, meta2, chunks2, d)
       <==> Concat(chunks1) == Concat(chunks2)
  {
    assert Facade.StreamedBlocks(chunks1, d)[0] == Facade.TextBlock(Concat(chunks1));
    assert Facade.StreamedBlocks(chunks2, d)[0] == Facade.TextBlock(Concat(chunks2));
  }

  /**
    When the cache tells the truth. A stored answer replayed to a later client is the very message the
    first client reassembled exactly when no attempt before the successful one had sent any text.
  */
  lemma ReplayEqualsLiveExactlyWhenNoRetrySpoke(
    o: Oracle, policy: Policy, x: Context, fallback: Option<Alias>,
    cachedAt: string, source: string, requestId: string, conversationId: string, model: string)
    requires policy.maxAttempts >= 1 && StreamOracle(o)
    requires var r := ExpectedResult(o, policy, x.primary, fallback);
             r.Success? && !r.didFallback && ShouldStore(StoredResponse(x, r))
    ensures var r := ExpectedResult(o, policy, x.primary, fallback);
            var cached := StoredReply(x, r, cachedAt);
            var replay := FullReplay(cached, ReplayMeta(cached, source, requestId, conversationId));
            var live := LiveEvents(o, policy, x, fallback);
            Reassembled(model, replay) == Reassembled(model, live) <==> SilentAttempts(o, x.primary, r.attempts - 1)
  {
    var r := ExpectedResult(o, policy, x.primary, fallback);
    var meta, chunks := LiveStreamIsRead(o, policy, x, fallback, model);
    ReplayIsRead(x, r, cachedAt, source, requestId, conversationId, model);
    ChunksSpellTheText(r.assembledText);
    SentIsAssembled(o, x.primary, r.attempts);
    TraceIsWellFormed(o, policy, x.primary, fallback);
    assert r.assembledText != "";
    assert Concat(chunks) != "" && chunks != [] && Chunks(r.assembledText) != [];
    var cached := StoredReply(x, r, cachedAt);
    SameMessageMeansSameText(model, ReplayMeta(cached, source, requestId, conversationId), Chunks(r.assembledText),
                             meta, chunks, DoneOf(x, r));
  }
}
