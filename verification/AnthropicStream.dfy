/**
  The Anthropic facade's stream mapper: it turns the gateway's meta / delta / done events into
  Anthropic Messages streaming events, keeping a block index as it goes. A consumer that follows
  the documented event flow is the reference, and the facade's JSON answer the yardstick.
*/
module AnthropicStream {
  import opened Wrappers
  import opened ChatTypes

  // ---------------------------------------------------------------- vendor events

  datatype BlockKind = TextKind | ThinkingKind | ToolKind(id: string, name: string)

  datatype Payload = TextDelta(text: string) | ThinkingDelta(thinking: string) | InputJsonDelta(json: string)

  datatype VendorStopReason = EndTurnReason | ToolUseReason | MaxTokensReason | RefusalReason

  datatype VendorUsage = VendorUsage(
    inputTokens: nat, outputTokens: nat, cacheCreation: Option<nat>, cacheRead: Option<nat>)

  datatype Vendor =
    | MessageStart(id: string, model: string)
    | BlockStart(index: int, kind: BlockKind)
    | BlockDelta(index: int, payload: Payload)
    | BlockStop(index: int)
    | MessageDelta(stop: VendorStopReason, usage: VendorUsage)
    | MessageStop

  function MapFinishReason(finish: Option<FinishReason>): VendorStopReason {
    match finish
    case Some(ToolCalls) => ToolUseReason
    case Some(Length) => MaxTokensReason
    case Some(ContentFilter) => RefusalReason
    case _ => EndTurnReason
  }

  function MapUsage(usage: Option<Usage>, details: Option<UsageDetails>): VendorUsage {
    VendorUsage(
      if usage.Some? then usage.value.inputTokens else 0,
      if usage.Some? then usage.value.outputTokens else 0,
      if details.Some? then details.value.promptCacheCreationTokens else None,
      if details.Some? then details.value.promptCacheHitTokens else None)
  }

  function PlainUsage(u: Option<DoneUsage>): Option<Usage> {
    if u.Some? then Some(Usage(u.value.inputTokens, u.value.outputTokens)) else None
  }

  /** The vendor id of a gateway response id. */
  function MessageId(id: string): string { "msg_" + (if "gw_" <= id then id[3..] else id) }

  // ---------------------------------------------------------------- the mapper

  datatype Mapper = Mapper(
    messageId: string, model: string, messageSent: bool, textBlockStarted: bool, blockIndex: int,
    thinkingBlockEmitted: bool)

  function Fresh(model: string): Mapper { Mapper("", model, false, false, 0, false) }

  /** The three events of a block sent whole. */
  function WholeBlock(index: int, kind: BlockKind, payload: Payload): seq<Vendor> {
    [BlockStart(index, kind), BlockDelta(index, payload), BlockStop(index)]
  }

  function ToolBlocks(index: int, tools: seq<ToolCall>): seq<Vendor>
    decreases |tools|
  {
    if tools == [] then []
    else WholeBlock(index, ToolKind(tools[0].id, tools[0].name), InputJsonDelta(tools[0].arguments))
         + ToolBlocks(index + 1, tools[1..])
  }

  function MetaLines(m: Mapper, id: string): seq<Vendor> {
    if m.messageSent then [] else [MessageStart(MessageId(id), m.model)]
  }

  function DeltaLines(m: Mapper, text: string): seq<Vendor> {
    (if m.textBlockStarted then [] else [BlockStart(m.blockIndex, TextKind)])
    + [BlockDelta(m.blockIndex, TextDelta(text))]
  }

  predicate EmitsThinking(m: Mapper, d: DonePayload) { d.thinkingContent != "" && !m.thinkingBlockEmitted }

  /** The index of the block after the ones already sent. */
  function NextIndex(m: Mapper): int { if m.textBlockStarted then m.blockIndex + 1 else m.blockIndex }

  function CloseText(m: Mapper): seq<Vendor> { if m.textBlockStarted then [BlockStop(m.blockIndex)] else [] }

  function ThinkingLines(m: Mapper, d: DonePayload): seq<Vendor> {
    if EmitsThinking(m, d) then WholeBlock(NextIndex(m), ThinkingKind, ThinkingDelta(d.thinkingContent)) else []
  }

  function EndLines(d: DonePayload): seq<Vendor> {
    [MessageDelta(MapFinishReason(d.finishReason), MapUsage(PlainUsage(d.usage), d.usageDetails)), MessageStop]
  }

  function DoneLines(m: Mapper, d: DonePayload): seq<Vendor> {
    CloseText(m) + ThinkingLines(m, d)
    + ToolBlocks(NextIndex(m) + (if EmitsThinking(m, d) then 1 else 0), d.toolCalls)
    + EndLines(d)
  }

  function Lines(m: Mapper, e: SseEvent): seq<Vendor> {
    match e
    case Meta(meta) => MetaLines(m, meta.id)
    case Delta(text) => DeltaLines(m, text)
    case Done(done) => DoneLines(m, done)
  }

  function Next(m: Mapper, e: SseEvent): Mapper {
    match e
    case Meta(meta) => m.(messageId := MessageId(meta.id), messageSent := true)
    case Delta(_) => m.(textBlockStarted := true)
    case Done(done) =>
      m.(blockIndex := m.blockIndex + (if EmitsThinking(m, done) then 1 else 0) + |done.toolCalls|,
         thinkingBlockEmitted := m.thinkingBlockEmitted || EmitsThinking(m, done))
  }

  lemma ToolBlocksTakeOne(lines: seq<Vendor>, index: int, tools: seq<ToolCall>, i: nat)
    requires i < |tools|
    ensures lines + ToolBlocks(index, tools[i..])
         == (lines + WholeBlock(index, ToolKind(tools[i].id, tools[i].name), InputJsonDelta(tools[i].arguments)))
            + ToolBlocks(index + 1, tools[i + 1..])
  {
    var rest := tools[i..];
    assert rest[0] == tools[i] && rest[1..] == tools[i + 1..];
  }

  class AnthropicStreamState {
    var messageId: string
    const model: string
    var messageSent: bool
    var textBlockStarted: bool
    var blockIndex: int
    var thinkingBlockEmitted: bool

    constructor (model: string)
      ensures State() == Fresh(model)
    {
      this.model := model;
      messageId, messageSent, textBlockStarted, blockIndex, thinkingBlockEmitted := "", false, false, 0, false;
    }

    function State(): (m: Mapper)
      reads this
    {
      Mapper(messageId, model, messageSent, textBlockStarted, blockIndex, thinkingBlockEmitted)
    }

    method NextBlockIndex() returns (index: int)
      modifies this`blockIndex
      ensures blockIndex == old(blockIndex) + 1
      ensures index == NextIndex(old(State()))
    {
      if textBlockStarted {
        blockIndex := blockIndex + 1;
        index := blockIndex;
      } else {
        index := blockIndex;
        blockIndex := blockIndex + 1;
      }
    }

    method MapToolCalls(tools: seq<ToolCall>) returns (lines: seq<Vendor>)
      modifies this`blockIndex
      ensures lines == ToolBlocks(NextIndex(old(State())), tools)
      ensures blockIndex == old(blockIndex) + |tools|
    {
      lines := [];
      ghost var first := NextIndex(State());
      var i := 0;
      while i < |tools|
        invariant 0 <= i <= |tools|
        invariant blockIndex == old(blockIndex) + i
        invariant ToolBlocks(first, tools) == lines + ToolBlocks(first + i, tools[i..])
      {
        var index := NextBlockIndex();
        assert index == first + i;
        ToolBlocksTakeOne(lines, index, tools, i);
        lines := lines + WholeBlock(index, ToolKind(tools[i].id, tools[i].name), InputJsonDelta(tools[i].arguments));
        i := i + 1;
      }
    }

    method MapDone(d: DonePayload) returns (lines: seq<Vendor>)
      modifies this
      ensures lines == DoneLines(old(State()), d)
      ensures State() == Next(old(State()), Done(d))
    {
      lines := [];
      if textBlockStarted {
        lines := [BlockStop(blockIndex)];
      }
      if d.thinkingContent != "" && !thinkingBlockEmitted {
        var index := NextBlockIndex();
        thinkingBlockEmitted := true;
        lines := lines + WholeBlock(index, ThinkingKind, ThinkingDelta(d.thinkingContent));
      }
      assert lines == CloseText(old(State())) + ThinkingLines(old(State()), d);
      var tools := MapToolCalls(d.toolCalls);
      lines := lines + tools + EndLines(d);
    }

    method MapSseEvent(e: SseEvent) returns (lines: seq<Vendor>)
      modifies this
      ensures lines == Lines(old(State()), e)
      ensures State() == Next(old(State()), e)
    {
      lines := [];
      match e
      case Meta(meta) =>
        messageId := MessageId(meta.id);
        if !messageSent {
          lines := [MessageStart(messageId, model)];
          messageSent := true;
        }
      case Delta(text) =>
        if !textBlockStarted {
          lines := [BlockStart(blockIndex, TextKind)];
          textBlockStarted := true;
        }
        lines := lines + [BlockDelta(blockIndex, TextDelta(text))];
      case Done(done) =>
        lines := MapDone(done);
    }
  }

  function AllLines(m: Mapper, events: seq<SseEvent>): seq<Vendor>
    decreases |events|
  {
    if events == [] then [] else Lines(m, events[0]) + AllLines(Next(m, events[0]), events[1..])
  }

  function After(m: Mapper, events: seq<SseEvent>): Mapper
    decreases |events|
  {
    if events == [] then m else After(Next(m, events[0]), events[1..])
  }

  // ---------------------------------------------------------------- the consumer

  datatype Block =
    | TextBlock(text: string)
    | ThinkingBlock(thinking: string)
    | ToolBlock(id: string, name: string, json: string)

  datatype Message = Message(id: string, model: string, blocks: seq<Block>, stop: VendorStopReason, usage: VendorUsage)

  /**
    A client of the streaming API, following its event flow: message_start; blocks numbered from 0
    without gaps, each opened, fed at least one delta of its own kind and closed before the next;
    message_delta; message_stop. Anything else is rejected.
  */
  datatype Consumer =
    | Idle
    | Between(id: string, model: string, blocks: seq<Block>)
    | Inside(id: string, model: string, blocks: seq<Block>, open: Block, fed: bool)
    | Ending(message: Message)
    | Complete(message: Message)
    | Rejected

  function EmptyBlock(kind: BlockKind): Block {
    match kind
    case TextKind => TextBlock("")
    case ThinkingKind => ThinkingBlock("")
    case ToolKind(id, name) => ToolBlock(id, name, "")
  }

  function Feed(b: Block, p: Payload): Option<Block> {
    match (b, p)
    case (TextBlock(t), TextDelta(x)) => Some(TextBlock(t + x))
    case (ThinkingBlock(t), ThinkingDelta(x)) => Some(ThinkingBlock(t + x))
    case (ToolBlock(id, name, t), InputJsonDelta(x)) => Some(ToolBlock(id, name, t + x))
    case _ => None
  }

  function Consume(c: Consumer, v: Vendor): Consumer {
    match (c, v)
    case (Idle, MessageStart(id, model)) => Between(id, model, [])
    case (Between(id, model, blocks), BlockStart(i, kind)) =>
      if i == |blocks| then Inside(id, model, blocks, EmptyBlock(kind), false) else Rejected
    case (Inside(id, model, blocks, open, fed), BlockDelta(i, p)) =>
      if i == |blocks| && Feed(open, p).Some? then Inside(id, model, blocks, Feed(open, p).value, true) else Rejected
    case (Inside(id, model, blocks, open, fed), BlockStop(i)) =>
      if i == |blocks| && fed then Between(id, model, blocks + [open]) else Rejected
    case (Between(id, model, blocks), MessageDelta(stop, usage)) => Ending(Message(id, model, blocks, stop, usage))
    case (Ending(message), MessageStop) => Complete(message)
    case _ => Rejected
  }

  function ConsumeAll(c: Consumer, vs: seq<Vendor>): Consumer
    decreases |vs|
  {
    if vs == [] then c else ConsumeAll(Consume(c, vs[0]), vs[1..])
  }

  lemma {:induction false} ConsumeAppend(c: Consumer, xs: seq<Vendor>, ys: seq<Vendor>)
    ensures ConsumeAll(c, xs + ys) == ConsumeAll(ConsumeAll(c, xs), ys)
    decreases |xs|
  {
    if xs == [] {
      assert xs + ys == ys;
    } else {
      assert (xs + ys)[1..] == xs[1..] + ys;
      ConsumeAppend(Consume(c, xs[0]), xs[1..], ys);
    }
  }

  lemma ConsumeOne(c: Consumer, v: Vendor)
    ensures ConsumeAll(c, [v]) == Consume(c, v)
  {
    assert [v][1..] == [];
  }

  /** A rejection is final, so a stream that is accepted in the end was acceptable at every event. */
  lemma {:induction false} RejectionIsFinal(vs: seq<Vendor>)
    ensures ConsumeAll(Rejected, vs) == Rejected
    decreases |vs|
  {
    if vs != [] {
      RejectionIsFinal(vs[1..]);
    }
  }

  lemma WholeBlockIsRead(id: string, model: string, blocks: seq<Block>, kind: BlockKind, payload: Payload)
    requires Feed(EmptyBlock(kind), payload).Some?
    ensures ConsumeAll(Between(id, model, blocks), WholeBlock(|blocks|, kind, payload))
         == Between(id, model, blocks + [Feed(EmptyBlock(kind), payload).value])
  {
    var vs := WholeBlock(|blocks|, kind, payload);
    var c1 := Consume(Between(id, model, blocks), vs[0]);
    var c2 := Consume(c1, vs[1]);
    assert vs == [vs[0]] + ([vs[1]] + [vs[2]]);
    ConsumeAppend(Between(id, model, blocks), [vs[0]], [vs[1]] + [vs[2]]);
    ConsumeAppend(c1, [vs[1]], [vs[2]]);
    ConsumeOne(Between(id, model, blocks), vs[0]);
    ConsumeOne(c1, vs[1]);
    ConsumeOne(c2, vs[2]);
  }

  function ToolBlocksOf(tools: seq<ToolCall>): seq<Block> {
    seq(|tools|, i requires 0 <= i < |tools| => ToolBlock(tools[i].id, tools[i].name, tools[i].arguments))
  }

  lemma {:induction false} ToolBlocksAreRead(id: string, model: string, blocks: seq<Block>, tools: seq<ToolCall>)
    ensures ConsumeAll(Between(id, model, blocks), ToolBlocks(|blocks|, tools))
         == Between(id, model, blocks + ToolBlocksOf(tools))
    decreases |tools|
  {
    if tools == [] {
      assert blocks + ToolBlocksOf(tools) == blocks;
    } else {
      var kind, payload := ToolKind(tools[0].id, tools[0].name), InputJsonDelta(tools[0].arguments);
      var block := Feed(EmptyBlock(kind), payload).value;
      ConsumeAppend(Between(id, model, blocks),
                    WholeBlock(|blocks|, kind, payload), ToolBlocks(|blocks| + 1, tools[1..]));
      WholeBlockIsRead(id, model, blocks, kind, payload);
      ToolBlocksAreRead(id, model, blocks + [block], tools[1..]);
      assert "" + tools[0].arguments == tools[0].arguments;
      assert ToolBlocksOf(tools) == [block] + ToolBlocksOf(tools[1..]);
      assert blocks + ([block] + ToolBlocksOf(tools[1..])) == blocks + [block] + ToolBlocksOf(tools[1..]);
    }
  }

  /** Once the text block is open, deltas extend it. */
  lemma {:induction false} MoreDeltasAreRead(m: Mapper, id: string, text: string, chunks: seq<string>)
    requires m.textBlockStarted && m.blockIndex == 0
    ensures ConsumeAll(Inside(id, m.model, [], TextBlock(text), true), AllLines(m, DeltaEvents(chunks)))
         == Inside(id, m.model, [], TextBlock(text + Concat(chunks)), true)
    ensures After(m, DeltaEvents(chunks)) == m
    decreases |chunks|
  {
    var events := DeltaEvents(chunks);
    if chunks == [] {
      assert text + Concat(chunks) == text;
    } else {
      assert events[1..] == DeltaEvents(chunks[1..]);
      var c := Inside(id, m.model, [], TextBlock(text), true);
      var vs := DeltaLines(m, chunks[0]);
      assert vs == [BlockDelta(0, TextDelta(chunks[0]))];
      ConsumeAppend(c, vs, AllLines(m, events[1..]));
      ConsumeOne(c, vs[0]);
      MoreDeltasAreRead(m, id, text + chunks[0], chunks[1..]);
      ConcatFirst(chunks);
      assert text + (chunks[0] + Concat(chunks[1..])) == text + chunks[0] + Concat(chunks[1..]);
    }
  }

  /** The consumer and mapper after a meta event and some deltas, that is, wherever a stream may break off. */
  lemma {:induction false} OpenStreamIsRead(model: string, meta: MetaPayload, chunks: seq<string>)
    ensures var m := Fresh(model);
            var events := [Meta(meta)] + DeltaEvents(chunks);
            && ConsumeAll(Idle, AllLines(m, events))
               == BeforeDone(MessageId(meta.id), model, chunks)
            && After(m, events) == Mapper(MessageId(meta.id), model, true, chunks != [], 0, false)
  {
    var m := Fresh(model);
    var events := [Meta(meta)] + DeltaEvents(chunks);
    var id := MessageId(meta.id);
    assert events[1..] == DeltaEvents(chunks);
    var m1 := Next(m, events[0]);
    ConsumeAppend(Idle, Lines(m, events[0]), AllLines(m1, events[1..]));
    ConsumeOne(Idle, MessageStart(id, model));
    if chunks != [] {
      var rest := DeltaEvents(chunks[1..]);
      assert events[1..][1..] == rest;
      var m2 := Next(m1, events[1]);
      var vs := DeltaLines(m1, chunks[0]);
      assert vs == [BlockStart(0, TextKind)] + [BlockDelta(0, TextDelta(chunks[0]))];
      var c := Between(id, model, []);
      ConsumeAppend(c, vs, AllLines(m2, rest));
      ConsumeAppend(c, [BlockStart(0, TextKind)], [BlockDelta(0, TextDelta(chunks[0]))]);
      ConsumeOne(c, BlockStart(0, TextKind));
      ConsumeOne(Consume(c, BlockStart(0, TextKind)), BlockDelta(0, TextDelta(chunks[0])));
      assert "" + chunks[0] == chunks[0];
      MoreDeltasAreRead(m2, id, chunks[0], chunks[1..]);
      ConcatFirst(chunks);
    }
  }

  function TextPart(chunks: seq<string>): seq<Block> { if chunks == [] then [] else [TextBlock(Concat(chunks))] }

  function ThinkingPart(d: DonePayload): seq<Block> {
    if d.thinkingContent == "" then [] else [ThinkingBlock(d.thinkingContent)]
  }

  /** What the stream of an answer reassembles to. */
  function StreamedBlocks(chunks: seq<string>, d: DonePayload): seq<Block> {
    TextPart(chunks) + ThinkingPart(d) + ToolBlocksOf(d.toolCalls)
  }

  function StreamedMessage(model: string, meta: MetaPayload, chunks: seq<string>, d: DonePayload): Message {
    Message(MessageId(meta.id), model, StreamedBlocks(chunks, d), MapFinishReason(d.finishReason),
            MapUsage(PlainUsage(d.usage), d.usageDetails))
  }

  lemma LinesAssociate(a: seq<Vendor>, b: seq<Vendor>, c: seq<Vendor>)
    ensures a + (b + c) == a + b + c
  {
  }

  lemma {:induction false} AllLinesAppend(m: Mapper, xs: seq<SseEvent>, ys: seq<SseEvent>)
    ensures AllLines(m, xs + ys) == AllLines(m, xs) + AllLines(After(m, xs), ys)
    decreases |xs|
  {
    if xs == [] {
      assert xs + ys == ys;
    } else {
      var next, both := Next(m, xs[0]), xs + ys;
      assert both[0] == xs[0] && both[1..] == xs[1..] + ys;
      AllLinesAppend(next, xs[1..], ys);
      LinesAssociate(Lines(m, xs[0]), AllLines(next, xs[1..]), AllLines(After(next, xs[1..]), ys));
    }
  }

  /** Where a consumer stands before the done event. */
  function BeforeDone(id: string, model: string, chunks: seq<string>): Consumer {
    if chunks == [] then Between(id, model, []) else Inside(id, model, [], TextBlock(Concat(chunks)), true)
  }

  lemma CloseTextIsRead(m: Mapper, id: string, chunks: seq<string>)
    requires m.textBlockStarted == (chunks != []) && m.blockIndex == 0
    ensures ConsumeAll(BeforeDone(id, m.model, chunks), CloseText(m)) == Between(id, m.model, TextPart(chunks))
  {
    if chunks != [] {
      ConsumeOne(BeforeDone(id, m.model, chunks), BlockStop(0));
    }
  }

  lemma ThinkingIsRead(m: Mapper, id: string, chunks: seq<string>, d: DonePayload)
    requires m.textBlockStarted == (chunks != []) && m.blockIndex == 0 && !m.thinkingBlockEmitted
    ensures ConsumeAll(Between(id, m.model, TextPart(chunks)), ThinkingLines(m, d))
         == Between(id, m.model, TextPart(chunks) + ThinkingPart(d))
  {
    if d.thinkingContent == "" {
      assert TextPart(chunks) + ThinkingPart(d) == TextPart(chunks);
    } else {
      WholeBlockIsRead(id, m.model, TextPart(chunks), ThinkingKind, ThinkingDelta(d.thinkingContent));
      assert "" + d.thinkingContent == d.thinkingContent;
    }
  }

  /** The closing events, read block by block. */
  lemma DoneIsRead(m: Mapper, id: string, chunks: seq<string>, d: DonePayload)
    requires m.textBlockStarted == (chunks != []) && m.blockIndex == 0 && !m.thinkingBlockEmitted
    ensures ConsumeAll(BeforeDone(id, m.model, chunks), DoneLines(m, d))
         == Complete(Message(id, m.model, StreamedBlocks(chunks, d), MapFinishReason(d.finishReason),
                             MapUsage(PlainUsage(d.usage), d.usageDetails)))
  {
    var c0 := BeforeDone(id, m.model, chunks);
    var v1, v2, v4 := CloseText(m), ThinkingLines(m, d), EndLines(d);
    var v3 := ToolBlocks(|TextPart(chunks) + ThinkingPart(d)|, d.toolCalls);
    assert DoneLines(m, d) == v1 + v2 + v3 + v4;
    ConsumeAppend(c0, v1 + v2 + v3, v4);
    ConsumeAppend(c0, v1 + v2, v3);
    ConsumeAppend(c0, v1, v2);
    CloseTextIsRead(m, id, chunks);
    ThinkingIsRead(m, id, chunks, d);
    ToolBlocksAreRead(id, m.model, TextPart(chunks) + ThinkingPart(d), d.toolCalls);
    EndIsRead(Between(id, m.model, StreamedBlocks(chunks, d)), v4[0], v4[1]);
  }

  lemma EndIsRead(c: Consumer, x: Vendor, y: Vendor)
    ensures ConsumeAll(c, [x, y]) == Consume(Consume(c, x), y)
  {
    assert [x, y] == [x] + [y];
    ConsumeAppend(c, [x], [y]);
    ConsumeOne(c, x);
    ConsumeOne(Consume(c, x), y);
  }

  /**
    Every complete gateway stream, meta, any deltas, done, maps to a stream a consumer of the event
    flow accepts, and what the consumer reassembles is the message: id, model, text, thinking, tool
    calls, stop reason and usage.
  */
  lemma StreamIsWellFormed(model: string, meta: MetaPayload, chunks: seq<string>, d: DonePayload)
    ensures ConsumeAll(Idle, AllLines(Fresh(model), [Meta(meta)] + DeltaEvents(chunks) + [Done(d)]))
         == Complete(StreamedMessage(model, meta, chunks, d))
  {
    var m := Fresh(model);
    var open := [Meta(meta)] + DeltaEvents(chunks);
    OpenStreamIsRead(model, meta, chunks);
    AllLinesAppend(m, open, [Done(d)]);
    var m' := After(m, open);
    assert [Done(d)][1..] == [];
    assert AllLines(m', [Done(d)]) == DoneLines(m', d);
    ConsumeAppend(Idle, AllLines(m, open), DoneLines(m', d));
    DoneIsRead(m', MessageId(meta.id), chunks, d);
  }

  // ---------------------------------------------------------------- the JSON answer

  /** A finished gateway answer. */
  datatype ChatResult = ChatResult(
    id: string, text: string, toolCalls: seq<ToolCall>, thinkingContent: string,
    finishReason: Option<FinishReason>, usage: Option<Usage>, usageDetails: Option<UsageDetails>)

  datatype JsonBlock<J> =
    | JsonText(text: string)
    | JsonThinking(thinking: string)
    | JsonTool(id: string, name: string, input: J)

  datatype JsonMessage<J> = JsonMessage(
    id: string, model: string, content: seq<JsonBlock<J>>, stop: VendorStopReason, usage: VendorUsage)

  /** Tool arguments as an object; `parse` falls back to an empty object on anything else. */
  function Input<J>(parse: string -> J, arguments: string): J { parse(if arguments == "" then "{}" else arguments) }

  function JsonTools<J>(parse: string -> J, tools: seq<ToolCall>): seq<JsonBlock<J>> {
    seq(|tools|, i requires 0 <= i < |tools| => JsonTool(tools[i].id, tools[i].name, Input(parse, tools[i].arguments)))
  }

  function JsonThinkingPart<J>(thinking: string): seq<JsonBlock<J>> {
    if thinking == "" then [] else [JsonThinking(thinking)]
  }

  function JsonTextPart<J>(text: string): seq<JsonBlock<J>> { if text == "" then [] else [JsonText(text)] }

  /** The non-streaming answer for the same result. */
  function MapResponse<J>(parse: string -> J, r: ChatResult, model: string): JsonMessage<J> {
    JsonMessage(
      MessageId(r.id), model,
      JsonThinkingPart(r.thinkingContent) + (JsonTextPart(r.text) + JsonTools(parse, r.toolCalls)),
      MapFinishReason(r.finishReason),
      MapUsage(r.usage, r.usageDetails))
  }

  /** Thinking, then text, each only when there is some, then one block per tool call with its parsed arguments. */
  predicate TellsContent<J(==)>(parse: string -> J, r: ChatResult, content: seq<JsonBlock<J>>) {
    var n := (if r.thinkingContent == "" then 0 else 1) + (if r.text == "" then 0 else 1);
    && |content| == n + |r.toolCalls|
    && (r.thinkingContent != "" ==> content[0] == JsonThinking(r.thinkingContent))
    && (r.text != "" ==> content[n - 1] == JsonText(r.text))
    && forall i :: 0 <= i < |r.toolCalls| ==>
         && content[n + i].JsonTool?
         && content[n + i].id == r.toolCalls[i].id && content[n + i].name == r.toolCalls[i].name
         && (r.toolCalls[i].arguments != "" ==> content[n + i].input == parse(r.toolCalls[i].arguments))
         && (r.toolCalls[i].arguments == "" ==> content[n + i].input == parse("{}"))
  }

  /** The four counters, each from its own field; absent ones are zero for tokens and null for the cache. */
  predicate TellsUsage(r: ChatResult, usage: VendorUsage) {
    && (r.usage.Some? ==>
          usage.inputTokens == r.usage.value.inputTokens && usage.outputTokens == r.usage.value.outputTokens)
    && (r.usage.None? ==> usage.inputTokens == 0 && usage.outputTokens == 0)
    && (r.usageDetails.Some? ==>
          && usage.cacheCreation == r.usageDetails.value.promptCacheCreationTokens
          && usage.cacheRead == r.usageDetails.value.promptCacheHitTokens)
    && (r.usageDetails.None? ==> usage.cacheCreation.None? && usage.cacheRead.None?)
  }

  lemma ContentIsTold<J>(parse: string -> J, r: ChatResult)
    ensures TellsContent(parse, r,
              JsonThinkingPart(r.thinkingContent) + (JsonTextPart(r.text) + JsonTools(parse, r.toolCalls)))
  {
  }

  /** The gateway's own prefix is replaced, any other id is kept whole behind the vendor's. */
  lemma MessageIdReplacesPrefix(x: string)
    ensures MessageId("gw_" + x) == "msg_" + x
    ensures !("gw_" <= x) ==> MessageId(x) == "msg_" + x
  {
    var id := "gw_" + x;
    assert id[3..] == x;
  }

  /** The mapper itself, which pushes the blocks it has one after the other. */
  method MapGatewayResponse<J>(parse: string -> J, r: ChatResult, model: string) returns (m: JsonMessage<J>)
    ensures m == MapResponse(parse, r, model)
    ensures m.model == model
    ensures forall x :: r.id == "gw_" + x ==> m.id == "msg_" + x
    ensures !("gw_" <= r.id) ==> m.id == "msg_" + r.id
    ensures TellsContent(parse, r, m.content) && TellsUsage(r, m.usage)
    ensures m.stop == ToolUseReason <==> r.finishReason == Some(ToolCalls)
    ensures m.stop == MaxTokensReason <==> r.finishReason == Some(Length)
    ensures m.stop == RefusalReason <==> r.finishReason == Some(ContentFilter)
  {
    var content: seq<JsonBlock<J>> := [];
    if r.thinkingContent != "" {
      content := content + [JsonThinking(r.thinkingContent)];
    }
    if r.text != "" {
      content := content + [JsonText(r.text)];
    }
    if r.toolCalls != [] {
      content := content + JsonTools(parse, r.toolCalls);
    }
    assert content == JsonThinkingPart(r.thinkingContent) + (JsonTextPart(r.text) + JsonTools(parse, r.toolCalls));
    ContentIsTold(parse, r);
    forall x | r.id == "gw_" + x ensures MessageId(r.id) == "msg_" + x {
      MessageIdReplacesPrefix(x);
    }
    return JsonMessage(MessageId(r.id), model, content,
                       MapFinishReason(r.finishReason), MapUsage(r.usage, r.usageDetails));
  }

  /** A reassembled message read as the JSON answer: thinking moved to the front, empty text dropped. */
  function Thinkings<J>(blocks: seq<Block>): seq<JsonBlock<J>> {
    if blocks == [] then []
    else Thinking(blocks[0]) + Thinkings(blocks[1..])
  }

  function Thinking<J>(block: Block): seq<JsonBlock<J>> {
    if block.ThinkingBlock? then [JsonThinking(block.thinking)] else []
  }

  function Other<J>(parse: string -> J, block: Block): seq<JsonBlock<J>> {
    match block
    case TextBlock(t) => if t == "" then [] else [JsonText(t)]
    case ThinkingBlock(_) => []
    case ToolBlock(id, name, json) => [JsonTool(id, name, if json == "" then parse("{}") else parse(json))]
  }

  function Others<J>(parse: string -> J, blocks: seq<Block>): seq<JsonBlock<J>> {
    if blocks == [] then [] else Other(parse, blocks[0]) + Others(parse, blocks[1..])
  }

  function AsJson<J>(parse: string -> J, m: Message): JsonMessage<J> {
    JsonMessage(m.id, m.model, Thinkings(m.blocks) + Others(parse, m.blocks), m.stop, m.usage)
  }

  lemma {:induction false} ThinkingsAppend<J>(xs: seq<Block>, ys: seq<Block>)
    ensures Thinkings<J>(xs + ys) == Thinkings<J>(xs) + Thinkings<J>(ys)
    decreases |xs|
  {
    if xs == [] {
      assert xs + ys == ys;
    } else {
      var both := xs + ys;
      assert both[0] == xs[0] && both[1..] == xs[1..] + ys;
      ThinkingsAppend<J>(xs[1..], ys);
    }
  }

  lemma {:induction false} OthersAppend<J>(parse: string -> J, xs: seq<Block>, ys: seq<Block>)
    ensures Others(parse, xs + ys) == Others(parse, xs) + Others(parse, ys)
    decreases |xs|
  {
    if xs == [] {
      assert xs + ys == ys;
    } else {
      var both := xs + ys;
      assert both[0] == xs[0] && both[1..] == xs[1..] + ys;
      OthersAppend(parse, xs[1..], ys);
    }
  }

  lemma {:induction false} ToolsHaveNoThinking<J>(tools: seq<ToolCall>)
    ensures Thinkings<J>(ToolBlocksOf(tools)) == []
    decreases |tools|
  {
    if tools != [] {
      assert ToolBlocksOf(tools)[1..] == ToolBlocksOf(tools[1..]);
      ToolsHaveNoThinking<J>(tools[1..]);
    }
  }

  lemma {:induction false} ReadTools<J>(parse: string -> J, tools: seq<ToolCall>)
    ensures Others(parse, ToolBlocksOf(tools)) == JsonTools(parse, tools)
    decreases |tools|
  {
    if tools != [] {
      assert ToolBlocksOf(tools)[1..] == ToolBlocksOf(tools[1..]);
      ReadTools(parse, tools[1..]);
      assert JsonTools(parse, tools)
          == [JsonTool(tools[0].id, tools[0].name, Input(parse, tools[0].arguments))] + JsonTools(parse, tools[1..]);
    }
  }

  lemma OneBlock<J>(parse: string -> J, block: Block)
    ensures Thinkings<J>([block]) == if block.ThinkingBlock? then [JsonThinking(block.thinking)] else []
    ensures Others(parse, [block]) == Other(parse, block)
  {
    var blocks := [block];
    assert blocks[1..] == [];
  }

  lemma {:induction false} StreamedThinkings<J>(parse: string -> J, chunks: seq<string>, d: DonePayload)
    ensures Thinkings<J>(StreamedBlocks(chunks, d)) == JsonThinkingPart<J>(d.thinkingContent)
  {
    ThinkingsAppend<J>(TextPart(chunks) + ThinkingPart(d), ToolBlocksOf(d.toolCalls));
    ThinkingsAppend<J>(TextPart(chunks), ThinkingPart(d));
    ToolsHaveNoThinking<J>(d.toolCalls);
    OneBlock(parse, TextBlock(Concat(chunks)));
    OneBlock(parse, ThinkingBlock(d.thinkingContent));
  }

  lemma {:induction false} StreamedOthers<J>(parse: string -> J, chunks: seq<string>, d: DonePayload)
    ensures Others(parse, StreamedBlocks(chunks, d)) == JsonTextPart<J>(Concat(chunks)) + JsonTools(parse, d.toolCalls)
  {
    OthersAppend(parse, TextPart(chunks) + ThinkingPart(d), ToolBlocksOf(d.toolCalls));
    OthersAppend(parse, TextPart(chunks), ThinkingPart(d));
    ReadTools(parse, d.toolCalls);
    OneBlock(parse, TextBlock(Concat(chunks)));
    OneBlock(parse, ThinkingBlock(d.thinkingContent));
  }

  /** The stream of a result: its text in any chunks, and a done event that carries the rest. */
  predicate StreamOf(r: ChatResult, meta: MetaPayload, chunks: seq<string>, d: DonePayload) {
    && meta.id == r.id
    && Concat(chunks) == r.text
    && d.toolCalls == r.toolCalls
    && d.thinkingContent == r.thinkingContent
    && d.finishReason == r.finishReason
    && PlainUsage(d.usage) == r.usage
    && d.usageDetails == r.usageDetails
  }

  /**
    Parity: however the text was chunked, the streamed answer reassembles to the JSON answer, with
    the thinking block moved to the front and an empty text block dropped.
  */
  lemma StreamAgreesWithJson<J>(
    parse: string -> J, r: ChatResult, model: string, meta: MetaPayload, chunks: seq<string>, d: DonePayload)
    requires StreamOf(r, meta, chunks, d)
    ensures var c := ConsumeAll(Idle, AllLines(Fresh(model), [Meta(meta)] + DeltaEvents(chunks) + [Done(d)]));
            c.Complete? && AsJson(parse, c.message) == MapResponse(parse, r, model)
  {
    StreamIsWellFormed(model, meta, chunks, d);
    StreamedThinkings(parse, chunks, d);
    StreamedOthers(parse, chunks, d);
  }
}
