/**
  Storing a finished answer and replaying it as a stream: the mapping into the cached shape, the
  64-unit chunking, the abort checks between events, and what a client sees the second time.
*/
module StreamReplay {
  import opened Wrappers
  import opened ChatTypes
  import opened LastUserMessage

  const CHUNK_SIZE := 64

  /** A live answer, as the response builder assembles it. */
  datatype ChatResponse = ChatResponse(
    id: string, provider: string, model: string, effectiveModelAlias: string, text: string,
    usage: Option<Usage>, toolCalls: seq<ToolCall>, finishReason: FinishReason,
    usageDetails: Option<UsageDetails>, systemFingerprint: string, thinkingContent: string,
    warnings: seq<Warning>)

  /** The shape both cache layers store. */
  datatype CachedReply = CachedReply(
    id: string, provider: string, model: string, text: string, usage: Option<Usage>, cachedAt: string,
    finishReason: FinishReason, warnings: seq<Warning>, thinkingContent: string,
    effectiveModelAlias: string, usageDetails: Option<UsageDetails>, systemFingerprint: string)

  function BuildChatResponse(
    f: ProviderFinal, text: string, id: string, provider: string, model: string, effectiveModelAlias: string,
    warnings: seq<Warning>): ChatResponse
  {
    ChatResponse(id, provider, model, effectiveModelAlias, text, f.usage, f.toolCalls,
                 MapStopReason(f.stopReason, f.toolCalls), f.usageDetails, f.systemFingerprint,
                 f.thinkingContent, warnings)
  }

  function WithTotal(u: Usage): DoneUsage { DoneUsage(u.inputTokens, u.outputTokens, u.inputTokens + u.outputTokens) }

  /** The done event of a live stream. */
  function BuildStreamDone(f: ProviderFinal, effectiveModelAlias: string, warnings: seq<Warning>): DonePayload {
    DonePayload(if f.usage.Some? then Some(WithTotal(f.usage.value)) else None, f.toolCalls,
                Some(MapStopReason(f.stopReason, f.toolCalls)), f.systemFingerprint, f.thinkingContent,
                f.usageDetails, effectiveModelAlias, warnings)
  }

  predicate ShouldStore(r: ChatResponse) { r.finishReason == Stop && Trim(r.text) != "" && r.toolCalls == [] }

  function ToCached(r: ChatResponse, cachedAt: string): CachedReply {
    CachedReply(r.id, r.provider, r.model, r.text, r.usage, cachedAt, r.finishReason, r.warnings,
                r.thinkingContent, r.effectiveModelAlias, r.usageDetails, r.systemFingerprint)
  }

  // ---------------------------------------------------------------- replay

  function Chunks(text: string): seq<string>
    decreases |text|
  {
    if text == "" then []
    else if |text| <= CHUNK_SIZE then [text]
    else [text[..CHUNK_SIZE]] + Chunks(text[CHUNK_SIZE..])
  }

  function ReplayMeta(c: CachedReply, source: string, requestId: string, conversationId: string): MetaPayload {
    MetaPayload(c.id, c.provider, c.model, c.effectiveModelAlias, requestId, conversationId,
                Some(CacheMark(c.cachedAt, source)))
  }

  function ReplayDone(c: CachedReply): DonePayload {
    DonePayload(if c.usage.Some? then Some(WithTotal(c.usage.value)) else None, [], Some(c.finishReason),
                c.systemFingerprint, c.thinkingContent, c.usageDetails, c.effectiveModelAlias, c.warnings)
  }

  /** What is still to come when `rest` of the text has not been sent. */
  function Remaining(c: CachedReply, rest: string): seq<SseEvent> { DeltaEvents(Chunks(rest)) + [Done(ReplayDone(c))] }

  function FullReplay(c: CachedReply, meta: MetaPayload): seq<SseEvent> { [Meta(meta)] + Remaining(c, c.text) }

  /**
    `aborted(k)` answers the k-th abort check. There is one before every event, so the events sent
    are the full replay cut exactly at the first check that answers true.
  */
  method Replay(c: CachedReply, source: string, requestId: string, conversationId: string, aborted: nat -> bool)
    returns (events: seq<SseEvent>)
    ensures var full := FullReplay(c, ReplayMeta(c, source, requestId, conversationId));
            && events <= full
            && (forall k :: 0 <= k < |events| ==> !aborted(k))
            && (|events| < |full| ==> aborted(|events|))
  {
    events := [];
    if aborted(0) { return; }
    var meta := ReplayMeta(c, source, requestId, conversationId);
    ghost var full, rest := FullReplay(c, meta), c.text;
    events := [Meta(meta)];
    var i := 0;
    while i < |c.text|
      invariant 0 <= i && |events| >= 1
      invariant rest == if i < |c.text| then c.text[i..] else ""
      invariant full == events + Remaining(c, rest)
      invariant forall k :: 0 <= k < |events| ==> !aborted(k)
      decreases |c.text| - i
    {
      if aborted(|events|) { return; }
      var to := if i + CHUNK_SIZE < |c.text| then i + CHUNK_SIZE else |c.text|;
      RemainingTakesOneChunk(c, rest);
      assert rest[..to - i] == c.text[i..to] && rest[to - i..] == c.text[to..];
      SendOne(events, Delta(c.text[i..to]), Remaining(c, c.text[to..]));
      events := events + [Delta(c.text[i..to])];
      rest := c.text[to..];
      i := i + CHUNK_SIZE;
    }
    if aborted(|events|) { return; }
    assert Remaining(c, "") == [Done(ReplayDone(c))];
    events := events + [Done(ReplayDone(c))];
  }

  lemma SendOne(events: seq<SseEvent>, e: SseEvent, after: seq<SseEvent>)
    ensures events + ([e] + after) == events + [e] + after
  {
  }

  lemma RemainingTakesOneChunk(c: CachedReply, rest: string)
    requires rest != ""
    ensures var n := if |rest| <= CHUNK_SIZE then |rest| else CHUNK_SIZE;
            Remaining(c, rest) == [Delta(rest[..n])] + Remaining(c, rest[n..])
  {
    var n := if |rest| <= CHUNK_SIZE then |rest| else CHUNK_SIZE;
    assert rest[..|rest|] == rest;
    assert Chunks(rest) == [rest[..n]] + Chunks(rest[n..]);
    DeltaEventsFirst(rest[..n], Chunks(rest[n..]));
  }

  lemma DeltaEventsFirst(chunk: string, chunks: seq<string>)
    ensures DeltaEvents([chunk] + chunks) == [Delta(chunk)] + DeltaEvents(chunks)
  {
  }

  /** Chunks are 1 to 64 units long, all but the last full, ceil(n / 64) of them, and they spell the text. */
  lemma {:induction false} ChunksSpellTheText(text: string)
    ensures Concat(Chunks(text)) == text
    ensures |Chunks(text)| == (|text| + 63) / 64
    ensures forall i :: 0 <= i < |Chunks(text)| ==> 1 <= |Chunks(text)[i]| <= 64
    ensures forall i :: 0 <= i < |Chunks(text)| - 1 ==> |Chunks(text)[i]| == 64
    decreases |text|
  {
    if |text| > CHUNK_SIZE {
      ChunksSpellTheText(text[CHUNK_SIZE..]);
      ConcatFirst(Chunks(text));
      assert Chunks(text)[1..] == Chunks(text[CHUNK_SIZE..]);
    } else if text != "" {
      assert [text][..0] == [];
    }
  }

  // ---------------------------------------------------------------- the second time

  lemma AssociateReplay(meta: MetaPayload, c: CachedReply)
    ensures FullReplay(c, meta) == [Meta(meta)] + DeltaEvents(Chunks(c.text)) + [Done(ReplayDone(c))]
  {
  }

  /**
    A stored answer, one the primary alias gave, replays with the very done event the live stream
    ended with: finish reason, usage, details, fingerprint, thinking and warnings.
  */
  lemma ReplayedDoneIsTheOriginal(
    f: ProviderFinal, text: string, id: string, provider: string, model: string, warnings: seq<Warning>,
    cachedAt: string)
    requires ShouldStore(BuildChatResponse(f, text, id, provider, model, "", warnings))
    ensures var cached := ToCached(BuildChatResponse(f, text, id, provider, model, "", warnings), cachedAt);
            && ReplayDone(cached) == BuildStreamDone(f, "", warnings)
            && cached.text == text && cached.id == id
  {
  }

  /** Why it stopped, in the gateway's words: length first, then tool calls, then the filter, else stop. */
  predicate TellsFinish(stop: Option<StopReason>, toolCalls: seq<ToolCall>, finish: FinishReason) {
    && (finish == Length <==> stop == Some(MaxTokens) || stop == Some(StopLength))
    && (finish == ToolCalls <==>
          finish != Length && (toolCalls != [] || stop == Some(ToolUse) || stop == Some(StopToolCalls)))
    && (finish == ContentFilter <==>
          finish != Length && finish != ToolCalls && (stop == Some(StopContentFilter) || stop == Some(Refusal)))
  }

  /** A done event says of an outcome: its tokens and their sum, calls, reason, thinking and cache counters. */
  predicate TellsDone(f: ProviderFinal, d: DonePayload) {
    && (d.usage.Some? <==> f.usage.Some?)
    && (f.usage.Some? ==>
          && d.usage.value.inputTokens == f.usage.value.inputTokens
          && d.usage.value.outputTokens == f.usage.value.outputTokens
          && d.usage.value.totalTokens == f.usage.value.inputTokens + f.usage.value.outputTokens)
    && d.toolCalls == f.toolCalls
    && d.finishReason.Some? && TellsFinish(f.stopReason, f.toolCalls, d.finishReason.value)
    && d.systemFingerprint == f.systemFingerprint
    && d.thinkingContent == f.thinkingContent
    && d.usageDetails == f.usageDetails
  }

  /** The live done event tells the outcome it was built from, and so does the replayed one of a stored answer. */
  lemma DoneTellsOutcome(
    f: ProviderFinal, text: string, id: string, provider: string, model: string, alias: string,
    warnings: seq<Warning>, cachedAt: string)
    ensures var live := BuildStreamDone(f, alias, warnings);
            TellsDone(f, live) && live.effectiveModelAlias == alias && live.warnings == warnings
    ensures var response := BuildChatResponse(f, text, id, provider, model, alias, warnings);
            var replayed := ReplayDone(ToCached(response, cachedAt));
            ShouldStore(response) ==>
              TellsDone(f, replayed) && replayed.effectiveModelAlias == alias && replayed.warnings == warnings
  {
  }
}
