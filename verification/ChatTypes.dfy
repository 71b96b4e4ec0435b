/**
  Values that pass between the gateway's components. Optional strings that the source tests for
  truth are plain strings here, with "" for both absent and empty.
*/
module ChatTypes {
  import opened Wrappers

  datatype Usage = Usage(inputTokens: nat, outputTokens: nat)

  datatype UsageDetails = UsageDetails(promptCacheHitTokens: Option<nat>, promptCacheCreationTokens: Option<nat>)

  datatype ToolCall = ToolCall(id: string, name: string, arguments: string)

  /** Why a provider stopped. */
  datatype StopReason =
    | EndTurn | ToolUse | MaxTokens | StopSequence | PauseTurn | Refusal
    | StopToolCalls | StopStop | StopLength | StopContentFilter | InsufficientSystemResource

  /** The gateway's own vocabulary for the same. */
  datatype FinishReason = Stop | ToolCalls | Length | ContentFilter

  function MapStopReason(stop: Option<StopReason>, toolCalls: seq<ToolCall>): FinishReason {
    if stop == Some(MaxTokens) || stop == Some(StopLength) then Length
    else if toolCalls != [] then ToolCalls
    else match stop
      case Some(ToolUse) | Some(StopToolCalls) => ToolCalls
      case Some(StopContentFilter) | Some(Refusal) => ContentFilter
      case _ => Stop
  }

  /** What a provider attempt yields beside its text. */
  datatype ProviderFinal = ProviderFinal(
    usage: Option<Usage>,
    toolCalls: seq<ToolCall>,
    stopReason: Option<StopReason>,
    systemFingerprint: string,
    thinkingContent: string,
    usageDetails: Option<UsageDetails>)

  datatype Warning = Warning(code: string, message: string, field: string)

  datatype CacheMark = CacheMark(cachedAt: string, cacheSource: string)

  datatype MetaPayload = MetaPayload(
    id: string, provider: string, model: string, effectiveModelAlias: string,
    requestId: string, conversationId: string, cached: Option<CacheMark>)

  datatype DoneUsage = DoneUsage(inputTokens: nat, outputTokens: nat, totalTokens: nat)

  datatype DonePayload = DonePayload(
    usage: Option<DoneUsage>,
    toolCalls: seq<ToolCall>,
    finishReason: Option<FinishReason>,
    systemFingerprint: string,
    thinkingContent: string,
    usageDetails: Option<UsageDetails>,
    effectiveModelAlias: string,
    warnings: seq<Warning>)

  /** The events of the gateway's own stream. */
  datatype SseEvent = Meta(meta: MetaPayload) | Delta(text: string) | Done(done: DonePayload)

  /** The text of a list of chunks. */
  function Concat(chunks: seq<string>): string {
    if chunks == [] then "" else Concat(chunks[..|chunks| - 1]) + chunks[|chunks| - 1]
  }

  lemma {:induction false} ConcatFirst(chunks: seq<string>)
    requires chunks != []
    ensures Concat(chunks) == chunks[0] + Concat(chunks[1..])
    decreases |chunks|
  {
    if |chunks| == 1 {
      assert chunks[..0] == [] && chunks[1..] == [];
    } else {
      var front, tail, last := chunks[..|chunks| - 1], chunks[1..], chunks[|chunks| - 1];
      ConcatFirst(front);
      assert front[1..] == tail[..|tail| - 1] && tail[|tail| - 1] == last;
      assert chunks[0] + Concat(front[1..]) + last == chunks[0] + (Concat(front[1..]) + last);
    }
  }

  /** One delta event per chunk. */
  function DeltaEvents(chunks: seq<string>): seq<SseEvent> {
    seq(|chunks|, i requires 0 <= i < |chunks| => Delta(chunks[i]))
  }
}
