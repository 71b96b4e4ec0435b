/**
  A conversation on its way from the Anthropic facade to an Anthropic provider: content blocks to
  gateway messages, gateway messages to provider turns, and turns to provider messages with
  consecutive tool turns grouped. `stringify` and `parse` are JSON text and back; J is a JSON object.
*/
module MessageMapping {
  import opened ChatTypes

  datatype Role = User | Assistant

  /** Optional strings are plain strings, "" when absent; an absent input is the empty object. */
  datatype Block<J> =
    | Text(text: string)
    | Use(id: string, name: string, input: J)
    | Result(toolUseId: string, content: string)
    | Image

  datatype FacadeMessage<J> = FacadeMessage(role: Role, blocks: seq<Block<J>>)

  /** A gateway message, and the provider turn made of it. */
  datatype Turn =
    | UserTurn(content: string)
    | AssistantTurn(content: string, toolCalls: seq<ToolCall>)
    | ToolTurn(toolCallId: string, content: string)

  datatype ProviderMessage<J> =
    | Plain(role: Role, content: string)
    | Blocks(role: Role, blocks: seq<Block<J>>)

  datatype Error = ImageNotSupported | NoSupportedBlock | NoMessages | MissingToolCallId

  datatype Outcome<T> = Ok(value: T) | Err(error: Error)

  // ---------------------------------------------------------------- facade blocks to gateway messages

  function TextOf<J>(blocks: seq<Block<J>>): string {
    if blocks == [] then ""
    else
      var b := blocks[|blocks| - 1];
      TextOf(blocks[..|blocks| - 1]) + (if b.Text? then b.text else "")
  }

  predicate ValidUse<J>(b: Block<J>) { b.Use? && b.id != "" && b.name != "" }

  predicate ValidResult<J>(b: Block<J>) { b.Result? && b.toolUseId != "" }

  function CallsOf<J>(stringify: J -> string, blocks: seq<Block<J>>): seq<ToolCall> {
    if blocks == [] then []
    else
      var b := blocks[|blocks| - 1];
      CallsOf(stringify, blocks[..|blocks| - 1])
      + (if ValidUse(b) then [ToolCall(b.id, b.name, stringify(b.input))] else [])
  }

  function ResultsOf<J>(blocks: seq<Block<J>>): seq<Turn> {
    if blocks == [] then []
    else
      var b := blocks[|blocks| - 1];
      ResultsOf(blocks[..|blocks| - 1]) + (if ValidResult(b) then [ToolTurn(b.toolUseId, b.content)] else [])
  }

  function OwnTurns<J>(stringify: J -> string, m: FacadeMessage<J>): seq<Turn> {
    match m.role
    case User => if TextOf(m.blocks) == "" then [] else [UserTurn(TextOf(m.blocks))]
    case Assistant => [AssistantTurn(TextOf(m.blocks), CallsOf(stringify, m.blocks))]
  }

  function MapContent<J>(stringify: J -> string, m: FacadeMessage<J>): Outcome<seq<Turn>> {
    if exists i :: 0 <= i < |m.blocks| && m.blocks[i].Image? then Err(ImageNotSupported)
    else
      var turns := OwnTurns(stringify, m) + ResultsOf(m.blocks);
      if turns == [] then Err(NoSupportedBlock) else Ok(turns)
  }

  /** The loop over the blocks: text is joined, valid tool uses and results are collected, the rest is dropped. */
  method CollectBlocks<J>(stringify: J -> string, blocks: seq<Block<J>>)
    returns (text: string, calls: seq<ToolCall>, results: seq<Turn>)
    ensures text == TextOf(blocks) && calls == CallsOf(stringify, blocks) && results == ResultsOf(blocks)
  {
    text, calls, results := "", [], [];
    for i := 0 to |blocks|
      invariant text == TextOf(blocks[..i]) && calls == CallsOf(stringify, blocks[..i])
      invariant results == ResultsOf(blocks[..i])
    {
      var b, next := blocks[i], blocks[..i + 1];
      assert next[..i] == blocks[..i] && next[i] == b;
      if b.Text? && b.text != "" {
        text := text + b.text;
      } else if b.Use? && b.id != "" && b.name != "" {
        calls := calls + [ToolCall(b.id, b.name, stringify(b.input))];
      } else if b.Result? && b.toolUseId != "" {
        results := results + [ToolTurn(b.toolUseId, b.content)];
      }
    }
    assert blocks[..|blocks|] == blocks;
  }

  method MapContentBlocks<J>(stringify: J -> string, m: FacadeMessage<J>) returns (r: Outcome<seq<Turn>>)
    ensures r == MapContent(stringify, m)
  {
    if exists i :: 0 <= i < |m.blocks| && m.blocks[i].Image? {
      return Err(ImageNotSupported);
    }
    var text, calls, results := CollectBlocks(stringify, m.blocks);
    var messages: seq<Turn> := [];
    if m.role == User && text != "" {
      messages := [UserTurn(text)];
    }
    if m.role == Assistant {
      messages := messages + [AssistantTurn(text, calls)];
    }
    assert messages == OwnTurns(stringify, m);
    messages := messages + results;
    if |messages| == 0 {
      return Err(NoSupportedBlock);
    }
    return Ok(messages);
  }

  /** All messages in order; the first one that cannot be mapped fails the request. */
  function MapAll<J>(stringify: J -> string, conversation: seq<FacadeMessage<J>>): Outcome<seq<Turn>>
    decreases |conversation|
  {
    if conversation == [] then Ok([])
    else
      var first := MapContent(stringify, conversation[0]);
      if first.Err? then first
      else
        var rest := MapAll(stringify, conversation[1..]);
        if rest.Err? then rest else Ok(first.value + rest.value)
  }

  function ToGateway<J>(stringify: J -> string, conversation: seq<FacadeMessage<J>>): Outcome<seq<Turn>> {
    var r := MapAll(stringify, conversation);
    if r == Ok([]) then Err(NoMessages) else r
  }

  // ---------------------------------------------------------------- what becomes of every message

  /** The turns one message turns into, none when it is refused. */
  function TurnsFor<J>(stringify: J -> string, role: Role, blocks: seq<Block<J>>): seq<Turn> {
    match MapContent(stringify, FacadeMessage(role, blocks))
    case Ok(turns) => turns
    case Err(_) => []
  }

  predicate HasOwnTurn(turns: seq<Turn>) { turns != [] && !turns[0].ToolTurn? }

  /** What the message says, what it calls and which results it brings, read off its turns. */
  function Said(turns: seq<Turn>): string { if HasOwnTurn(turns) then turns[0].content else "" }

  function Called(turns: seq<Turn>): seq<ToolCall> {
    if HasOwnTurn(turns) && turns[0].AssistantTurn? then turns[0].toolCalls else []
  }

  function Brought(turns: seq<Turn>): seq<Turn> { if HasOwnTurn(turns) then turns[1..] else turns }

  predicate NoImages<J>(blocks: seq<Block<J>>) { forall i :: 0 <= i < |blocks| ==> !blocks[i].Image? }

  lemma {:induction false} PartsAppend<J>(stringify: J -> string, xs: seq<Block<J>>, ys: seq<Block<J>>)
    ensures TextOf(xs + ys) == TextOf(xs) + TextOf(ys)
    ensures CallsOf(stringify, xs + ys) == CallsOf(stringify, xs) + CallsOf(stringify, ys)
    ensures ResultsOf(xs + ys) == ResultsOf(xs) + ResultsOf(ys)
    decreases |ys|
  {
    if ys == [] {
      assert xs + ys == xs;
    } else {
      var front := ys[..|ys| - 1];
      assert (xs + ys)[..|xs + ys| - 1] == xs + front;
      PartsAppend(stringify, xs, front);
    }
  }

  lemma {:induction false} ResultsAreToolTurns<J>(blocks: seq<Block<J>>)
    ensures forall i :: 0 <= i < |ResultsOf(blocks)| ==> ResultsOf(blocks)[i].ToolTurn?
    decreases |blocks|
  {
    if blocks != [] {
      ResultsAreToolTurns(blocks[..|blocks| - 1]);
    }
  }

  lemma TurnsForParts<J>(stringify: J -> string, role: Role, blocks: seq<Block<J>>)
    requires NoImages(blocks)
    ensures var turns := TurnsFor(stringify, role, blocks);
            && Said(turns) == TextOf(blocks)
            && Called(turns) == (if role == Assistant then CallsOf(stringify, blocks) else [])
            && Brought(turns) == ResultsOf(blocks)
  {
    ResultsAreToolTurns(blocks);
    var m := FacadeMessage(role, blocks);
    var own := OwnTurns(stringify, m);
    assert own == [] || (own + ResultsOf(blocks))[1..] == ResultsOf(blocks);
    assert own == [] ==> own + ResultsOf(blocks) == ResultsOf(blocks);
  }

  /**
    Nothing is lost, doubled or moved: what a message says, calls and brings is the concatenation,
    in order, of what its parts do, however its blocks are cut in two.
  */
  lemma MappingKeepsBlockOrder<J>(stringify: J -> string, role: Role, xs: seq<Block<J>>, ys: seq<Block<J>>)
    requires NoImages(xs) && NoImages(ys)
    ensures var whole := TurnsFor(stringify, role, xs + ys);
            var first, second := TurnsFor(stringify, role, xs), TurnsFor(stringify, role, ys);
            && Said(whole) == Said(first) + Said(second)
            && Called(whole) == Called(first) + Called(second)
            && Brought(whole) == Brought(first) + Brought(second)
  {
    TurnsForParts(stringify, role, xs + ys);
    TurnsForParts(stringify, role, xs);
    TurnsForParts(stringify, role, ys);
    PartsAppend(stringify, xs, ys);
  }

  /** And one block says its text, makes its call or brings its result, if it is a valid one. */
  lemma MappingOfOneBlock<J>(stringify: J -> string, role: Role, b: Block<J>)
    requires !b.Image?
    ensures var turns := TurnsFor(stringify, role, [b]);
            && Said(turns) == (if b.Text? then b.text else "")
            && Called(turns) == (if role == Assistant && b.Use? && b.id != "" && b.name != ""
                                 then [ToolCall(b.id, b.name, stringify(b.input))] else [])
            && Brought(turns) == if b.Result? && b.toolUseId != "" then [ToolTurn(b.toolUseId, b.content)] else []
  {
    TurnsForParts(stringify, role, [b]);
    var blocks := [b];
    assert blocks[..0] == [];
  }

  /**
    The shape of what a message turns into: its own turn, with its own role, comes first and the
    results after it. An image refuses the message, and so does having nothing to send.
  */
  lemma MappedMessageShape<J>(stringify: J -> string, role: Role, blocks: seq<Block<J>>)
    ensures var r := MapContent(stringify, FacadeMessage(role, blocks));
            && (r == Err(ImageNotSupported) <==> exists i :: 0 <= i < |blocks| && blocks[i].Image?)
            && (r == Err(NoSupportedBlock) <==>
                  && role == User
                  && forall i :: 0 <= i < |blocks| ==>
                       !blocks[i].Image? && (blocks[i].Text? ==> blocks[i].text == "")
                       && (blocks[i].Result? ==> blocks[i].toolUseId == ""))
            && (r.Ok? ==>
                  && r.value != []
                  && (forall i :: 1 <= i < |r.value| ==> r.value[i].ToolTurn?)
                  && (role == Assistant ==> r.value[0].AssistantTurn?)
                  && (role == User ==> !r.value[0].AssistantTurn?))
            && (r.Ok? || r == Err(ImageNotSupported) || r == Err(NoSupportedBlock))
  {
    ResultsAreToolTurns(blocks);
    EmptyTextExactly(blocks);
    NoResultsExactly(blocks);
  }

  lemma {:induction false} EmptyTextExactly<J>(blocks: seq<Block<J>>)
    ensures TextOf(blocks) == "" <==> forall i :: 0 <= i < |blocks| ==> blocks[i].Text? ==> blocks[i].text == ""
    decreases |blocks|
  {
    if blocks != [] {
      var n := |blocks| - 1;
      var front, b := blocks[..n], blocks[n];
      EmptyTextExactly(front);
      EmptyPartsOneMore(TextOf(front), if b.Text? then b.text else "");
      assert forall i :: 0 <= i < n ==> front[i] == blocks[i];
    }
  }

  lemma {:induction false} NoResultsExactly<J>(blocks: seq<Block<J>>)
    ensures ResultsOf(blocks) == [] <==> forall i :: 0 <= i < |blocks| ==> !ValidResult(blocks[i])
    decreases |blocks|
  {
    if blocks != [] {
      var n := |blocks| - 1;
      var front := blocks[..n];
      NoResultsExactly(front);
      assert forall i :: 0 <= i < n ==> front[i] == blocks[i];
    }
  }

  lemma EmptyPartsOneMore(a: string, b: string)
    ensures a + b == "" <==> a == "" && b == ""
  {
    assert |a + b| == |a| + |b|;
  }

  /** A conversation is its messages one after the other, and fails with the first of them that does. */
  lemma {:induction false} ConversationIsItsMessages<J>(
    stringify: J -> string, xs: seq<FacadeMessage<J>>, ys: seq<FacadeMessage<J>>)
    ensures var first, second := MapAll(stringify, xs), MapAll(stringify, ys);
            MapAll(stringify, xs + ys) ==
              if first.Err? then first else if second.Err? then second else Ok(first.value + second.value)
    decreases |xs|
  {
    if xs == [] {
      assert xs + ys == ys;
      assert MapAll(stringify, ys).Ok? ==> [] + MapAll(stringify, ys).value == MapAll(stringify, ys).value;
    } else {
      assert (xs + ys)[1..] == xs[1..] + ys;
      ConversationIsItsMessages(stringify, xs[1..], ys);
      TurnsAssociate(MapContent(stringify, xs[0]), MapAll(stringify, xs[1..]), MapAll(stringify, ys));
    }
  }

  lemma TurnsAssociate(a: Outcome<seq<Turn>>, b: Outcome<seq<Turn>>, c: Outcome<seq<Turn>>)
    ensures a.Ok? && b.Ok? && c.Ok? ==> a.value + (b.value + c.value) == a.value + b.value + c.value
  {
  }

  lemma ConversationOfOne<J>(stringify: J -> string, m: FacadeMessage<J>)
    ensures ToGateway(stringify, [m]) == MapContent(stringify, m)
  {
    var one := [m];
    assert one[0] == m && one[1..] == [];
    var r := MapContent(stringify, m);
    if r.Ok? {
      assert r.value + [] == r.value;
      assert MapAll(stringify, one) == r;
    } else {
      assert MapAll(stringify, one) == r;
    }
  }

  lemma {:induction false} MessagesNeverFailAsNone<J>(stringify: J -> string, conversation: seq<FacadeMessage<J>>)
    ensures MapAll(stringify, conversation) != Err(NoMessages)
    ensures conversation != [] ==> MapAll(stringify, conversation) != Ok([])
    decreases |conversation|
  {
    if conversation != [] {
      MessagesNeverFailAsNone(stringify, conversation[1..]);
      var first := MapContent(stringify, conversation[0]);
      assert first.Ok? ==> first.value != [];
    }
  }

  /** A conversation is refused as having no messages exactly when it has none. */
  lemma OnlyNoMessagesIsNoMessages<J>(stringify: J -> string, conversation: seq<FacadeMessage<J>>)
    ensures ToGateway(stringify, conversation) == Err(NoMessages) <==> conversation == []
  {
    MessagesNeverFailAsNone(stringify, conversation);
  }

  // ---------------------------------------------------------------- gateway messages to provider turns

  predicate HasToolCallId(t: Turn) { t.ToolTurn? ==> t.toolCallId != "" }

  method ToProviderTurns(messages: seq<Turn>) returns (r: Outcome<seq<Turn>>)
    ensures r == if forall i :: 0 <= i < |messages| ==> HasToolCallId(messages[i]) then Ok(messages)
                 else Err(MissingToolCallId)
  {
    var turns: seq<Turn> := [];
    for i := 0 to |messages|
      invariant turns == messages[..i]
      invariant forall j :: 0 <= j < i ==> HasToolCallId(messages[j])
    {
      if messages[i].ToolTurn? && messages[i].toolCallId == "" {
        return Err(MissingToolCallId);
      }
      turns := turns + [messages[i]];
    }
    assert turns == messages;
    return Ok(turns);
  }

  // ---------------------------------------------------------------- provider turns to provider messages

  function Uses<J>(parse: string -> J, calls: seq<ToolCall>): seq<Block<J>> {
    seq(|calls|, i requires 0 <= i < |calls| => Use(calls[i].id, calls[i].name, parse(calls[i].arguments)))
  }

  function MapAssistant<J>(parse: string -> J, t: Turn): ProviderMessage<J>
    requires t.AssistantTurn?
  {
    if t.toolCalls == [] then Plain(Assistant, t.content)
    else Blocks(Assistant, (if t.content == "" then [] else [Text(t.content)]) + Uses(parse, t.toolCalls))
  }

  /** How many tool turns the list starts with. */
  function ToolRun(turns: seq<Turn>): (n: nat)
    ensures n <= |turns|
  {
    if turns == [] || !turns[0].ToolTurn? then 0 else 1 + ToolRun(turns[1..])
  }

  function ResultBlocks<J>(turns: seq<Turn>): seq<Block<J>>
    requires forall i :: 0 <= i < |turns| ==> turns[i].ToolTurn?
  {
    seq(|turns|, i requires 0 <= i < |turns| => Result(turns[i].toolCallId, turns[i].content))
  }

  lemma {:induction false} ToolRunIsTools(turns: seq<Turn>)
    ensures forall i :: 0 <= i < ToolRun(turns) ==> turns[i].ToolTurn?
    ensures ToolRun(turns) < |turns| ==> !turns[ToolRun(turns)].ToolTurn?
    decreases |turns|
  {
    if turns != [] && turns[0].ToolTurn? {
      ToolRunIsTools(turns[1..]);
    }
  }

  /** How many turns the first message takes. */
  function Taken(turns: seq<Turn>): (n: nat)
    requires turns != []
    ensures 1 <= n <= |turns|
  {
    if turns[0].ToolTurn? then ToolRun(turns) else 1
  }

  function FirstMessage<J>(parse: string -> J, turns: seq<Turn>): ProviderMessage<J>
    requires turns != []
  {
    match turns[0]
    case UserTurn(content) => Plain(User, content)
    case AssistantTurn(_, _) => MapAssistant(parse, turns[0])
    case ToolTurn(_, _) =>
      ToolRunIsTools(turns);
      Blocks(User, ResultBlocks(turns[..ToolRun(turns)]))
  }

  /** One message per turn, except that a run of tool turns becomes one user message. */
  function Group<J>(parse: string -> J, turns: seq<Turn>): seq<ProviderMessage<J>>
    decreases |turns|
  {
    if turns == [] then [] else [FirstMessage(parse, turns)] + Group(parse, turns[Taken(turns)..])
  }

  /** The inner loop: the tool turns from `start` on, as the blocks of one message. */
  method TakeToolResults<J>(turns: seq<Turn>, start: nat) returns (results: seq<Block<J>>, next: nat)
    requires start < |turns| && turns[start].ToolTurn?
    ensures start < next <= |turns| && next == start + ToolRun(turns[start..])
    ensures forall j :: start <= j < next ==> turns[j].ToolTurn?
    ensures results == ResultBlocks(turns[start..next])
  {
    results := [Result(turns[start].toolCallId, turns[start].content)];
    next := start + 1;
    while next < |turns| && turns[next].ToolTurn?
      invariant start < next <= |turns|
      invariant forall j :: start <= j < next ==> turns[j].ToolTurn?
      invariant results == ResultBlocks(turns[start..next])
    {
      assert ResultBlocks<J>(turns[start..next + 1])
          == ResultBlocks(turns[start..next]) + [Result(turns[next].toolCallId, turns[next].content)];
      results := results + [Result(turns[next].toolCallId, turns[next].content)];
      next := next + 1;
    }
    ToolRunEndsAt(turns[start..], next - start);
  }

  method NextMessage<J>(parse: string -> J, turns: seq<Turn>, i: nat) returns (message: ProviderMessage<J>, next: nat)
    requires i < |turns|
    ensures message == FirstMessage(parse, turns[i..])
    ensures next == i + Taken(turns[i..])
  {
    match turns[i]
    case UserTurn(content) =>
      return Plain(User, content), i + 1;
    case AssistantTurn(_, _) =>
      return MapAssistant(parse, turns[i]), i + 1;
    case ToolTurn(_, _) =>
      var results;
      results, next := TakeToolResults(turns, i);
      assert turns[i..][..next - i] == turns[i..next];
      return Blocks(User, results), next;
  }

  method MapTurns<J>(parse: string -> J, turns: seq<Turn>) returns (messages: seq<ProviderMessage<J>>)
    ensures messages == Group(parse, turns)
  {
    messages := [];
    var i := 0;
    assert turns[0..] == turns;
    while i < |turns|
      invariant 0 <= i <= |turns|
      invariant Group(parse, turns) == messages + Group(parse, turns[i..])
    {
      var message, next := NextMessage(parse, turns, i);
      assert turns[i..][next - i..] == turns[next..];
      assert Group(parse, turns[i..]) == [message] + Group(parse, turns[next..]);
      messages := messages + [message];
      i := next;
    }
  }

  lemma {:induction false} ToolRunEndsAt(turns: seq<Turn>, n: nat)
    requires n <= |turns|
    requires forall i :: 0 <= i < n ==> turns[i].ToolTurn?
    requires n < |turns| ==> !turns[n].ToolTurn?
    ensures ToolRun(turns) == n
    decreases n
  {
    if n > 0 {
      ToolRunEndsAt(turns[1..], n - 1);
    }
  }

  // ---------------------------------------------------------------- grouping loses nothing

  /** A message that only carries tool results. */
  predicate OnlyResults<J>(blocks: seq<Block<J>>) {
    blocks != [] && forall i :: 0 <= i < |blocks| ==> blocks[i].Result?
  }

  predicate IsResults<J>(m: ProviderMessage<J>) { m.Blocks? && m.role == User && OnlyResults(m.blocks) }

  /** The provider's view of one turn alone. */
  function Alone<J>(parse: string -> J, t: Turn): ProviderMessage<J> {
    match t
    case UserTurn(content) => Plain(User, content)
    case AssistantTurn(_, _) => MapAssistant(parse, t)
    case ToolTurn(id, content) => Blocks(User, [Result(id, content)])
  }

  /** Every grouped message taken apart again, one message per tool result. */
  function Ungroup<J>(messages: seq<ProviderMessage<J>>): seq<ProviderMessage<J>> {
    if messages == [] then []
    else
      Parts(messages[0]) + Ungroup(messages[1..])
  }

  function Parts<J>(m: ProviderMessage<J>): seq<ProviderMessage<J>> {
    if IsResults(m) then seq(|m.blocks|, i requires 0 <= i < |m.blocks| => Blocks(User, [m.blocks[i]])) else [m]
  }

  function AllAlone<J>(parse: string -> J, turns: seq<Turn>): seq<ProviderMessage<J>> {
    seq(|turns|, i requires 0 <= i < |turns| => Alone(parse, turns[i]))
  }

  lemma AllAloneSplits<J>(parse: string -> J, turns: seq<Turn>, n: nat)
    requires n <= |turns|
    ensures AllAlone(parse, turns) == AllAlone(parse, turns[..n]) + AllAlone(parse, turns[n..])
  {
  }

  lemma FirstGroupIsLossless<J>(parse: string -> J, turns: seq<Turn>)
    requires turns != []
    ensures Parts(FirstMessage(parse, turns)) == AllAlone(parse, turns[..Taken(turns)])
  {
    ToolRunIsTools(turns);
    if turns[0].ToolTurn? {
      var run := turns[..Taken(turns)];
      assert FirstMessage(parse, turns) == Blocks(User, ResultBlocks(run));
      assert IsResults(FirstMessage(parse, turns));
    } else {
      assert !IsResults(FirstMessage(parse, turns));
    }
  }

  /** Grouping is lossless and keeps the order: taken apart, it is the turns one by one. */
  lemma {:induction false} GroupingIsLossless<J>(parse: string -> J, turns: seq<Turn>)
    ensures Ungroup(Group(parse, turns)) == AllAlone(parse, turns)
    decreases |turns|
  {
    if turns != [] {
      ToolRunIsTools(turns);
      var n := Taken(turns);
      var grouped := Group(parse, turns);
      GroupingIsLossless(parse, turns[n..]);
      assert grouped[0] == FirstMessage(parse, turns) && grouped[1..] == Group(parse, turns[n..]);
      FirstGroupIsLossless(parse, turns);
      AllAloneSplits(parse, turns, n);
    }
  }

  predicate NoAdjacentResults<J>(messages: seq<ProviderMessage<J>>) {
    forall i :: 0 <= i < |messages| - 1 ==> !(IsResults(messages[i]) && IsResults(messages[i + 1]))
  }

  /** Grouping is maximal: the provider never sees two tool-result messages in a row. */
  lemma {:induction false} GroupingIsMaximal<J>(parse: string -> J, turns: seq<Turn>)
    ensures NoAdjacentResults(Group(parse, turns))
    ensures turns != [] && !turns[0].ToolTurn? ==> Group(parse, turns) != [] && !IsResults(Group(parse, turns)[0])
    decreases |turns|
  {
    if turns != [] {
      ToolRunIsTools(turns);
      var n := Taken(turns);
      GroupingIsMaximal(parse, turns[n..]);
      assert Group(parse, turns)[1..] == Group(parse, turns[n..]);
      assert turns[0].AssistantTurn? ==> !IsResults(MapAssistant(parse, turns[0]));
    }
  }

  // ---------------------------------------------------------------- facade to provider and back

  /** A provider message as the facade would spell it: string content is one text block. */
  function AsFacade<J>(m: ProviderMessage<J>): FacadeMessage<J> {
    match m
    case Plain(role, content) => FacadeMessage(role, [Text(content)])
    case Blocks(role, blocks) => FacadeMessage(role, blocks)
  }

  function AllAsFacade<J>(messages: seq<ProviderMessage<J>>): seq<FacadeMessage<J>> {
    seq(|messages|, i requires 0 <= i < |messages| => AsFacade(messages[i]))
  }

  /** The whole way: what the provider is sent for a facade conversation. */
  function Deliver<J>(stringify: J -> string, parse: string -> J, conversation: seq<FacadeMessage<J>>)
    : Outcome<seq<FacadeMessage<J>>>
  {
    var turns := ToGateway(stringify, conversation);
    if turns.Err? then Err(turns.error)
    else if exists i :: 0 <= i < |turns.value| && !HasToolCallId(turns.value[i]) then Err(MissingToolCallId)
    else Ok(AllAsFacade(Group(parse, turns.value)))
  }

  predicate OneText<J>(blocks: seq<Block<J>>) { |blocks| == 1 && blocks[0].Text? }

  predicate AllUses<J>(blocks: seq<Block<J>>) {
    blocks != [] && forall i :: 0 <= i < |blocks| ==> ValidUse(blocks[i])
  }

  predicate AllResults<J>(blocks: seq<Block<J>>) {
    blocks != [] && forall i :: 0 <= i < |blocks| ==> ValidResult(blocks[i])
  }

  /** One non-empty text or only tool results from the user; text, or text and then tool uses, from the assistant. */
  predicate NormalMessage<J>(m: FacadeMessage<J>) {
    match m.role
    case User => (OneText(m.blocks) && m.blocks[0].text != "") || AllResults(m.blocks)
    case Assistant =>
      || OneText(m.blocks)
      || AllUses(m.blocks)
      || (|m.blocks| > 1 && m.blocks[0].Text? && m.blocks[0].text != "" && AllUses(m.blocks[1..]))
  }

  predicate NormalForm<J>(conversation: seq<FacadeMessage<J>>) {
    && conversation != []
    && (forall i :: 0 <= i < |conversation| ==> NormalMessage(conversation[i]))
    && (forall i :: 0 <= i < |conversation| - 1 ==>
          !(IsResultMessage(conversation[i]) && IsResultMessage(conversation[i + 1])))
  }

  predicate IsResultMessage<J>(m: FacadeMessage<J>) { m.role == User && AllResults(m.blocks) }

  /** Stringifying an object and parsing the text gives the object back. */
  ghost predicate JsonRoundTrips<J(!new)>(stringify: J -> string, parse: string -> J) {
    forall j :: parse(stringify(j)) == j
  }

  lemma {:induction false} UsesMap<J(!new)>(stringify: J -> string, parse: string -> J, blocks: seq<Block<J>>)
    requires JsonRoundTrips(stringify, parse)
    requires forall i :: 0 <= i < |blocks| ==> ValidUse(blocks[i])
    ensures TextOf(blocks) == "" && ResultsOf(blocks) == []
    ensures |CallsOf(stringify, blocks)| == |blocks|
    ensures Uses(parse, CallsOf(stringify, blocks)) == blocks
    decreases |blocks|
  {
    if blocks != [] {
      var front, b := blocks[..|blocks| - 1], blocks[|blocks| - 1];
      UsesMap(stringify, parse, front);
      assert CallsOf(stringify, blocks) == CallsOf(stringify, front) + [ToolCall(b.id, b.name, stringify(b.input))];
      assert Uses(parse, CallsOf(stringify, blocks)) == Uses(parse, CallsOf(stringify, front)) + [b];
    }
  }

  lemma {:induction false} ResultsMap<J>(stringify: J -> string, blocks: seq<Block<J>>)
    requires forall i :: 0 <= i < |blocks| ==> ValidResult(blocks[i])
    ensures TextOf(blocks) == "" && CallsOf(stringify, blocks) == []
    ensures |ResultsOf(blocks)| == |blocks|
    ensures forall i :: 0 <= i < |blocks| ==>
              blocks[i].Result? && ResultsOf(blocks)[i] == ToolTurn(blocks[i].toolUseId, blocks[i].content)
    decreases |blocks|
  {
    if blocks != [] {
      var front, b := blocks[..|blocks| - 1], blocks[|blocks| - 1];
      ResultsMap(stringify, front);
      assert ValidResult(b) && blocks == front + [b];
      assert ResultsOf(blocks) == ResultsOf(front) + [ToolTurn(b.toolUseId, b.content)];
    }
  }

  lemma {:induction false} TextThenUsesMap<J>(stringify: J -> string, text: string, uses: seq<Block<J>>)
    requires forall i :: 0 <= i < |uses| ==> ValidUse(uses[i])
    ensures TextOf([Text(text)] + uses) == text
    ensures ResultsOf([Text(text)] + uses) == []
    ensures CallsOf(stringify, [Text(text)] + uses) == CallsOf(stringify, uses)
    decreases |uses|
  {
    var blocks := [Text(text)] + uses;
    if uses == [] {
      assert blocks[..0] == [];
    } else {
      assert blocks[..|blocks| - 1] == [Text(text)] + uses[..|uses| - 1];
      TextThenUsesMap(stringify, text, uses[..|uses| - 1]);
    }
  }

  /** A normal message maps to turns that, delivered with nothing of their kind behind them, are the message again. */
  lemma NormalMessageIsDelivered<J(!new)>(
    stringify: J -> string, parse: string -> J, m: FacadeMessage<J>, rest: seq<Turn>)
    requires JsonRoundTrips(stringify, parse) && NormalMessage(m)
    requires IsResultMessage(m) && rest != [] ==> !rest[0].ToolTurn?
    ensures MapContent(stringify, m).Ok?
    ensures var turns := MapContent(stringify, m).value;
            && turns != []
            && (forall i :: 0 <= i < |turns| ==> HasToolCallId(turns[i]))
            && (turns[0].ToolTurn? <==> IsResultMessage(m))
            && Taken(turns + rest) == |turns|
            && AsFacade(FirstMessage(parse, turns + rest)) == m
  {
    if IsResultMessage(m) {
      ResultMessageIsDelivered(stringify, parse, m, rest);
    } else if m.role == User {
      UserTextIsDelivered(stringify, parse, m, rest);
    } else {
      AssistantIsDelivered(stringify, parse, m, rest);
    }
  }

  lemma ResultMessageIsDelivered<J>(stringify: J -> string, parse: string -> J, m: FacadeMessage<J>, rest: seq<Turn>)
    requires IsResultMessage(m)
    requires rest != [] ==> !rest[0].ToolTurn?
    ensures MapContent(stringify, m) == Ok(ResultsOf(m.blocks))
    ensures var turns := ResultsOf(m.blocks);
            && turns != []
            && (forall i :: 0 <= i < |turns| ==> turns[i].ToolTurn? && HasToolCallId(turns[i]))
            && Taken(turns + rest) == |turns|
            && FirstMessage(parse, turns + rest) == Blocks(User, m.blocks)
  {
    ResultMessageMaps(stringify, m);
    ToolTurnsAreOneMessage(parse, ResultsOf(m.blocks), rest);
  }

  lemma ResultMessageMaps<J>(stringify: J -> string, m: FacadeMessage<J>)
    requires IsResultMessage(m)
    ensures MapContent(stringify, m) == Ok(ResultsOf(m.blocks))
    ensures var turns := ResultsOf(m.blocks);
            && turns != []
            && (forall i :: 0 <= i < |turns| ==> turns[i].ToolTurn? && HasToolCallId(turns[i]))
            && ResultBlocks<J>(turns) == m.blocks
  {
    ResultsMap(stringify, m.blocks);
    var turns := ResultsOf(m.blocks);
    assert OwnTurns(stringify, m) == [];
    assert OwnTurns(stringify, m) + turns == turns;
  }

  /** A run of tool turns with none behind it is one message. */
  lemma ToolTurnsAreOneMessage<J>(parse: string -> J, turns: seq<Turn>, rest: seq<Turn>)
    requires turns != [] && forall i :: 0 <= i < |turns| ==> turns[i].ToolTurn?
    requires rest != [] ==> !rest[0].ToolTurn?
    ensures Taken(turns + rest) == |turns|
    ensures FirstMessage(parse, turns + rest) == Blocks(User, ResultBlocks(turns))
  {
    var all := turns + rest;
    assert forall i :: 0 <= i < |turns| ==> all[i] == turns[i];
    ToolRunEndsAt(all, |turns|);
    assert all[..|turns|] == turns;
  }

  lemma UserTextIsDelivered<J>(stringify: J -> string, parse: string -> J, m: FacadeMessage<J>, rest: seq<Turn>)
    requires m.role == User && OneText(m.blocks) && m.blocks[0].text != ""
    ensures MapContent(stringify, m) == Ok([UserTurn(m.blocks[0].text)])
    ensures AsFacade(FirstMessage(parse, [UserTurn(m.blocks[0].text)] + rest)) == m
  {
    var text := m.blocks[0].text;
    assert m.blocks == [Text(text)] + [];
    TextThenUsesMap(stringify, text, []);
    assert [UserTurn(text)] + [] == [UserTurn(text)];
  }

  lemma {:induction false} AssistantIsDelivered<J(!new)>(
    stringify: J -> string, parse: string -> J, m: FacadeMessage<J>, rest: seq<Turn>)
    requires JsonRoundTrips(stringify, parse) && m.role == Assistant && NormalMessage(m)
    ensures var turn := AssistantTurn(TextOf(m.blocks), CallsOf(stringify, m.blocks));
            && MapContent(stringify, m) == Ok([turn])
            && AsFacade(FirstMessage(parse, [turn] + rest)) == m
  {
    var turn := AssistantTurn(TextOf(m.blocks), CallsOf(stringify, m.blocks));
    if AllUses(m.blocks) {
      UsesMap(stringify, parse, m.blocks);
      assert [] + Uses(parse, turn.toolCalls) == m.blocks;
    } else {
      var text, uses := m.blocks[0].text, m.blocks[1..];
      assert m.blocks == [Text(text)] + uses;
      TextThenUsesMap(stringify, text, uses);
      UsesMap(stringify, parse, uses);
    }
    assert [turn] + [] == [turn];
  }

  lemma GroupSplits<J>(parse: string -> J, own: seq<Turn>, rest: seq<Turn>)
    requires own != [] && Taken(own + rest) == |own|
    ensures AllAsFacade(Group(parse, own + rest))
         == [AsFacade(FirstMessage(parse, own + rest))] + AllAsFacade(Group(parse, rest))
  {
    assert (own + rest)[|own|..] == rest;
    var grouped := Group(parse, own + rest);
    assert grouped == [FirstMessage(parse, own + rest)] + Group(parse, rest);
  }

  lemma NormalTail<J>(conversation: seq<FacadeMessage<J>>)
    requires NormalForm(conversation)
    ensures NormalMessage(conversation[0])
    ensures conversation[1..] == [] || NormalForm(conversation[1..])
    ensures conversation[1..] != [] && IsResultMessage(conversation[0]) ==> !IsResultMessage(conversation[1..][0])
  {
    var later := conversation[1..];
    assert forall i :: 0 <= i < |later| ==> later[i] == conversation[i + 1];
  }

  /** The turns of a normal conversation, and their grouping. */
  lemma {:induction false} NormalIsDelivered<J(!new)>(
    stringify: J -> string, parse: string -> J, conversation: seq<FacadeMessage<J>>)
    requires JsonRoundTrips(stringify, parse)
    requires conversation == [] || NormalForm(conversation)
    ensures MapAll(stringify, conversation).Ok?
    ensures var turns := MapAll(stringify, conversation).value;
            && (conversation != [] ==> turns != [] && (turns[0].ToolTurn? <==> IsResultMessage(conversation[0])))
            && (forall i :: 0 <= i < |turns| ==> HasToolCallId(turns[i]))
            && AllAsFacade(Group(parse, turns)) == conversation
    decreases |conversation|
  {
    if conversation != [] {
      var m, later := conversation[0], conversation[1..];
      NormalTail(conversation);
      NormalIsDelivered(stringify, parse, later);
      var rest := MapAll(stringify, later).value;
      NormalMessageIsDelivered(stringify, parse, m, rest);
      var own := MapContent(stringify, m).value;
      GroupSplits(parse, own, rest);
      assert forall i :: 0 <= i < |own + rest| ==> HasToolCallId((own + rest)[i]);
      assert [m] + later == conversation;
    }
  }

  // ---------------------------------------------------------------- everything delivered is in normal form

  /** What the facade mapper guarantees of every turn it makes. */
  predicate CleanTurn(t: Turn) {
    match t
    case UserTurn(content) => content != ""
    case AssistantTurn(_, calls) => forall i :: 0 <= i < |calls| ==> calls[i].id != "" && calls[i].name != ""
    case ToolTurn(id, _) => id != ""
  }

  predicate CleanTurns(turns: seq<Turn>) { forall i :: 0 <= i < |turns| ==> CleanTurn(turns[i]) }

  lemma {:induction false} MappedBlocksAreClean<J>(stringify: J -> string, blocks: seq<Block<J>>)
    ensures CleanTurn(AssistantTurn("", CallsOf(stringify, blocks)))
    ensures CleanTurns(ResultsOf(blocks))
    decreases |blocks|
  {
    if blocks != [] {
      MappedBlocksAreClean(stringify, blocks[..|blocks| - 1]);
    }
  }

  lemma {:induction false} MappedTurnsAreClean<J>(stringify: J -> string, conversation: seq<FacadeMessage<J>>)
    requires MapAll(stringify, conversation).Ok?
    ensures CleanTurns(MapAll(stringify, conversation).value)
    decreases |conversation|
  {
    if conversation != [] {
      MappedTurnsAreClean(stringify, conversation[1..]);
      MappedBlocksAreClean(stringify, conversation[0].blocks);
      assert CleanTurns(OwnTurns(stringify, conversation[0]));
    }
  }

  lemma FirstMessageIsNormal<J>(parse: string -> J, turns: seq<Turn>)
    requires turns != [] && CleanTurns(turns)
    ensures NormalMessage(AsFacade(FirstMessage(parse, turns)))
    ensures IsResultMessage(AsFacade(FirstMessage(parse, turns))) <==> turns[0].ToolTurn?
  {
    match turns[0]
    case UserTurn(_) =>
    case AssistantTurn(content, calls) =>
      if calls != [] {
        var uses := Uses(parse, calls);
        assert AllUses(uses);
        if content == "" {
          assert [] + uses == uses;
        } else {
          assert ([Text(content)] + uses)[1..] == uses;
        }
      }
    case ToolTurn(_, _) =>
      ToolRunIsTools(turns);
  }

  /** A normal message in front of a conversation in normal form, not both with tool results. */
  lemma NormalInFront<J>(m: FacadeMessage<J>, later: seq<FacadeMessage<J>>)
    requires NormalMessage(m) && (later == [] || NormalForm(later))
    requires later != [] && IsResultMessage(m) ==> !IsResultMessage(later[0])
    ensures NormalForm([m] + later)
  {
    var all := [m] + later;
    forall i | 0 <= i < |all| - 1 ensures !(IsResultMessage(all[i]) && IsResultMessage(all[i + 1])) {
      if i > 0 { assert all[i] == later[i - 1] && all[i + 1] == later[i]; }
    }
  }

  lemma GroupHead<J>(parse: string -> J, turns: seq<Turn>)
    requires turns != []
    ensures AllAsFacade(Group(parse, turns))
         == [AsFacade(FirstMessage(parse, turns))] + AllAsFacade(Group(parse, turns[Taken(turns)..]))
  {
  }

  lemma {:induction false} GroupIsNormal<J>(parse: string -> J, turns: seq<Turn>)
    requires CleanTurns(turns) && turns != []
    ensures NormalForm(AllAsFacade(Group(parse, turns)))
    ensures IsResultMessage(AllAsFacade(Group(parse, turns))[0]) <==> turns[0].ToolTurn?
    decreases |turns|
  {
    ToolRunIsTools(turns);
    FirstMessageIsNormal(parse, turns);
    GroupHead(parse, turns);
    var rest := turns[Taken(turns)..];
    if rest != [] {
      GroupIsNormal(parse, rest);
    }
    NormalInFront(AsFacade(FirstMessage(parse, turns)), AllAsFacade(Group(parse, rest)));
  }

  /**
    Delivery preserves exactly the conversations in normal form: the provider is sent the
    conversation unchanged if and only if it is in normal form.
  */
  lemma DeliveredUnchangedExactlyWhenNormal<J(!new)>(
    stringify: J -> string, parse: string -> J, conversation: seq<FacadeMessage<J>>)
    requires JsonRoundTrips(stringify, parse)
    ensures Deliver(stringify, parse, conversation) == Ok(conversation) <==> NormalForm(conversation)
  {
    if NormalForm(conversation) {
      NormalIsDelivered(stringify, parse, conversation);
    } else if Deliver(stringify, parse, conversation).Ok? {
      DeliveryNormalises(stringify, parse, conversation);
    }
  }

  /** Whatever can be delivered at all is delivered in normal form. */
  lemma DeliveryNormalises<J(!new)>(stringify: J -> string, parse: string -> J, conversation: seq<FacadeMessage<J>>)
    requires Deliver(stringify, parse, conversation).Ok?
    ensures NormalForm(Deliver(stringify, parse, conversation).value)
  {
    MappedTurnsAreClean(stringify, conversation);
    GroupIsNormal(parse, MapAll(stringify, conversation).value);
  }

  /** So delivering twice is delivering once. */
  lemma DeliveryIsIdempotent<J(!new)>(stringify: J -> string, parse: string -> J, conversation: seq<FacadeMessage<J>>)
    requires JsonRoundTrips(stringify, parse) && Deliver(stringify, parse, conversation).Ok?
    ensures var once := Deliver(stringify, parse, conversation);
            Deliver(stringify, parse, once.value) == once
  {
    DeliveryNormalises(stringify, parse, conversation);
    DeliveredUnchangedExactlyWhenNormal(stringify, parse, Deliver(stringify, parse, conversation).value);
  }

  /** A conversation from the facade never fails for a missing tool call id, only for images and empty messages. */
  lemma RefusalsAreTheFacades<J>(stringify: J -> string, parse: string -> J, conversation: seq<FacadeMessage<J>>)
    ensures Deliver(stringify, parse, conversation).Err? <==> ToGateway(stringify, conversation).Err?
  {
    if ToGateway(stringify, conversation).Ok? {
      MappedTurnsAreClean(stringify, conversation);
    }
  }
}
