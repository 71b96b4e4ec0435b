/**
  Server-sent events as text: the serializer, and a parser written from section 9.2.6 of the
  WHATWG HTML standard ("Interpreting an event stream").
*/
module SseText {
  import opened Wrappers

  datatype SseMessage = SseMessage(name: string, data: string)

  function Serialize(m: SseMessage): string { "event: " + m.name + "\n" + "data: " + m.data + "\n\n" }

  /** A response body: the events written one after another. */
  function Body(messages: seq<SseMessage>): string {
    if messages == [] then "" else Serialize(messages[0]) + Body(messages[1..])
  }

  // ---------------------------------------------------------------- the standard's parser

  datatype Line = Line(text: string, rest: string)

  /** The next line, ended by LF, CR or CRLF; an unfinished line at the end of the stream is not a line. */
  function ReadLine(s: string): (r: Option<Line>)
    ensures r.Some? ==> |r.value.rest| < |s|
  {
    if s == "" then None
    else if s[0] == '\n' then Some(Line("", s[1..]))
    else if s[0] == '\r' then Some(Line("", if |s| > 1 && s[1] == '\n' then s[2..] else s[1..]))
    else
      var r := ReadLine(s[1..]);
      if r.None? then None else Some(Line([s[0]] + r.value.text, r.value.rest))
  }

  datatype Field = Field(name: string, value: string)

  function SplitField(line: string): Field {
    if line == "" then Field("", "")
    else if line[0] == ':' then Field("", if |line| > 1 && line[1] == ' ' then line[2..] else line[1..])
    else var f := SplitField(line[1..]); Field([line[0]] + f.name, f.value)
  }

  /** The buffers of the standard, and the events dispatched so far. */
  datatype Parser = Parser(eventType: string, data: string, dispatched: seq<SseMessage>)

  function Dispatch(p: Parser): Parser {
    if p.data == "" then Parser("", "", p.dispatched)
    else
      var data := if p.data[|p.data| - 1] == '\n' then p.data[..|p.data| - 1] else p.data;
      Parser("", "", p.dispatched + [SseMessage(if p.eventType == "" then "message" else p.eventType, data)])
  }

  function ProcessLine(p: Parser, line: string): Parser {
    if line == "" then Dispatch(p)
    else if line[0] == ':' then p
    else
      var f := SplitField(line);
      if f.name == "event" then p.(eventType := f.value)
      else if f.name == "data" then p.(data := p.data + f.value + "\n")
      else p
  }

  function Parse(p: Parser, s: string): Parser
    decreases |s|
  {
    var line := ReadLine(s);
    if line.None? then p else Parse(ProcessLine(p, line.value.text), line.value.rest)
  }

  const FRESH := Parser("", "", [])

  // ---------------------------------------------------------------- round trip

  predicate OneLine(s: string) { '\n' !in s && '\r' !in s }

  lemma {:induction false} ReadsOneLine(line: string, rest: string)
    requires OneLine(line)
    ensures ReadLine(line + ("\n" + rest)) == Some(Line(line, rest))
    decreases |line|
  {
    var s := line + ("\n" + rest);
    if line == "" {
      assert s == "\n" + rest && s[1..] == rest;
    } else {
      assert s[0] == line[0] && line[0] in line;
      assert s[1..] == line[1..] + ("\n" + rest);
      ReadsOneLine(line[1..], rest);
      assert [line[0]] + line[1..] == line;
    }
  }

  lemma {:induction false} SplitsField(name: string, value: string)
    requires ':' !in name
    ensures SplitField(name + (": " + value)) == Field(name, value)
    decreases |name|
  {
    var line := name + (": " + value);
    if name == "" {
      assert line == ": " + value && line[2..] == value;
    } else {
      assert line[0] == name[0] && name[0] in name;
      assert line[1..] == name[1..] + (": " + value);
      SplitsField(name[1..], value);
      assert [name[0]] + name[1..] == name;
    }
  }

  lemma ParsesFieldLine(p: Parser, name: string, value: string, rest: string)
    requires name == "event" || name == "data"
    requires OneLine(value)
    ensures Parse(p, (name + (": " + value)) + ("\n" + rest))
         == Parse(if name == "event" then p.(eventType := value) else p.(data := p.data + value + "\n"), rest)
  {
    var line := name + (": " + value);
    ReadsOneLine(line, rest);
    SplitsField(name, value);
  }

  lemma ParsesOneEvent(m: SseMessage, rest: string, done: seq<SseMessage>)
    requires m.name != "" && OneLine(m.name) && OneLine(m.data)
    ensures Parse(Parser("", "", done), Serialize(m) + rest) == Parse(Parser("", "", done + [m]), rest)
  {
    var p0 := Parser("", "", done);
    var afterData := "\n" + rest;
    var afterName := ("data" + (": " + m.data)) + ("\n" + afterData);
    assert Serialize(m) + rest == ("event" + (": " + m.name)) + ("\n" + afterName);
    ParsesFieldLine(p0, "event", m.name, afterName);
    var p1 := p0.(eventType := m.name);
    ParsesFieldLine(p1, "data", m.data, afterData);
    var p2 := p1.(data := p1.data + m.data + "\n");
    assert "" + afterData == afterData;
    ReadsOneLine("", rest);
    assert p2.data[..|p2.data| - 1] == m.data;
    assert Dispatch(p2) == Parser("", "", done + [m]);
  }

  /** Any list of events, written one after another, parses back to that list. */
  lemma {:induction false} BodyParsesBack(messages: seq<SseMessage>, done: seq<SseMessage>)
    requires forall i :: 0 <= i < |messages| ==>
               messages[i].name != "" && OneLine(messages[i].name) && OneLine(messages[i].data)
    ensures Parse(Parser("", "", done), Body(messages)) == Parser("", "", done + messages)
    decreases |messages|
  {
    if messages == [] {
      assert done + messages == done;
    } else {
      ParsesOneEvent(messages[0], Body(messages[1..]), done);
      BodyParsesBack(messages[1..], done + [messages[0]]);
      assert done + [messages[0]] + messages[1..] == done + messages;
    }
  }

  /** A connection cut anywhere inside an event loses that event and nothing before it. */
  lemma CutInsideEventDropsOnlyIt(messages: seq<SseMessage>, m: SseMessage, partial: string)
    requires forall i :: 0 <= i < |messages| ==>
               messages[i].name != "" && OneLine(messages[i].name) && OneLine(messages[i].data)
    requires OneLine(m.name) && OneLine(m.data) && partial < Serialize(m)
    ensures Parse(FRESH, Body(messages) + partial).dispatched == messages
  {
    ParsesBodyThen(messages, partial, []);
    assert [] + messages == messages;
    PartialEventDispatchesNothing(Parser("", "", messages), m, partial);
  }

  /** A prefix of a line and what follows it either stops within the line or passes its end. */
  lemma CutAtLine(line: string, after: string, partial: string)
    requires OneLine(line) && partial <= line + ("\n" + after)
    ensures |partial| <= |line| ==> OneLine(partial)
    ensures |partial| > |line| ==>
              var rest := partial[|line| + 1..];
              partial == line + ("\n" + rest) && rest <= after && |partial| == |line| + 1 + |rest|
  {
    var whole := line + ("\n" + after);
    assert partial == whole[..|partial|];
    if |partial| <= |line| {
      assert partial == line[..|partial|];
    } else {
      var rest := partial[|line| + 1..];
      assert rest == after[..|rest|];
    }
  }

  lemma SerializedLines(m: SseMessage)
    ensures Serialize(m) == ("event" + (": " + m.name)) + ("\n" + (("data" + (": " + m.data)) + ("\n" + "\n")))
  {
  }

  lemma PartialEventDispatchesNothing(p: Parser, m: SseMessage, partial: string)
    requires OneLine(m.name) && OneLine(m.data) && partial < Serialize(m)
    ensures Parse(p, partial).dispatched == p.dispatched
  {
    var first, second := "event" + (": " + m.name), "data" + (": " + m.data);
    SerializedLines(m);
    CutAtLine(first, second + ("\n" + "\n"), partial);
    if |partial| <= |first| {
      NoLineInPartial(partial);
    } else {
      var rest := partial[|first| + 1..];
      ParsesFieldLine(p, "event", m.name, rest);
      CutAtLine(second, "\n", rest);
      if |rest| <= |second| {
        NoLineInPartial(rest);
      } else {
        assert rest[|second| + 1..] == "";
        ParsesFieldLine(p.(eventType := m.name), "data", m.data, "");
      }
    }
  }

  lemma AppendAssoc(a: string, b: string, c: string)
    ensures (a + b) + c == a + (b + c)
  {
  }

  lemma {:induction false} ParsesBodyThen(messages: seq<SseMessage>, rest: string, done: seq<SseMessage>)
    requires forall i :: 0 <= i < |messages| ==>
               messages[i].name != "" && OneLine(messages[i].name) && OneLine(messages[i].data)
    ensures Parse(Parser("", "", done), Body(messages) + rest) == Parse(Parser("", "", done + messages), rest)
    decreases |messages|
  {
    if messages == [] {
      assert Body(messages) + rest == rest && done + messages == done;
    } else {
      var m, later := messages[0], messages[1..];
      ParsesBodyThen(later, rest, done + [m]);
      assert done + [m] + later == done + messages;
      AppendAssoc(Serialize(m), Body(later), rest);
      ParsesOneEvent(m, Body(later) + rest, done);
    }
  }

  lemma {:induction false} NoLineInPartial(partial: string)
    requires OneLine(partial)
    ensures ReadLine(partial) == None
    decreases |partial|
  {
    if partial != "" {
      assert partial[0] in partial;
      NoLineInPartial(partial[1..]);
    }
  }
}
