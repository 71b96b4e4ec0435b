/** The text a chat request is cached under semantically: the last user message, trimmed. */
module LastUserMessage {
  import opened Wrappers
  import opened Trimming

  datatype Role = User | Assistant | Tool

  datatype Message = Message(role: Role, content: string)

  /** What `String.prototype.trim` cuts off: the white space and line terminators of ECMAScript. */
  predicate IsSpace(c: char) {
    || c in {' ', '\t', '\n', '\r'} || 0x0b as char <= c <= 0x0c as char
    || c == 0xa0 as char || c == 0x1680 as char || 0x2000 as char <= c <= 0x200a as char
    || 0x2028 as char <= c <= 0x2029 as char || c == 0x202f as char || c == 0x205f as char
    || c == 0x3000 as char || c == 0xfeff as char
  }

  function Trim(s: string): string { TrimBy(IsSpace, s) }

  /** The last user message whose trimmed content is not empty. */
  function LastUserText(messages: seq<Message>): Option<string> {
    if messages == [] then None
    else
      var m := messages[|messages| - 1];
      if m.role == User && Trim(m.content) != "" then Some(Trim(m.content))
      else LastUserText(messages[..|messages| - 1])
  }

  predicate IsSingleTurn(messages: seq<Message>) { |messages| == 1 && messages[0].role == User }

  method LastUserMessageText(messages: seq<Message>) returns (text: Option<string>)
    ensures text == LastUserText(messages)
  {
    var i := |messages|;
    assert messages[..i] == messages;
    while i > 0
      invariant 0 <= i <= |messages|
      invariant LastUserText(messages) == LastUserText(messages[..i])
    {
      i := i - 1;
      var m := messages[i];
      assert messages[..i + 1][..i] == messages[..i];
      if m.role == User {
        var t := Trim(m.content);
        if |t| > 0 {
          return Some(t);
        }
      }
    }
    return None;
  }

  /** With the three roles there are, the counting loop accepts exactly the one-message user requests. */
  method IsSingleTurnUserRequest(messages: seq<Message>) returns (single: bool)
    ensures single <==> |messages| == 1 && messages[0].role == User
  {
    var userCount := 0;
    for i := 0 to |messages|
      invariant userCount == i
      invariant forall j :: 0 <= j < i ==> messages[j].role == User
    {
      if messages[i].role == Assistant || messages[i].role == Tool {
        return false;
      }
      if messages[i].role == User {
        userCount := userCount + 1;
      }
    }
    return userCount == 1;
  }

  /** A single-turn request is looked up under its trimmed message, and skipped when that is blank. */
  lemma SingleTurnText(messages: seq<Message>)
    requires IsSingleTurn(messages)
    ensures LastUserText(messages)
         == if Trim(messages[0].content) == "" then None else Some(Trim(messages[0].content))
  {
    assert messages[..0] == [];
  }

  /** The text is that of the last user message that is not blank, wherever it stands. */
  lemma {:induction false} LastUserTextIsTheLast(messages: seq<Message>)
    ensures LastUserText(messages).None? <==>
              forall i :: 0 <= i < |messages| ==> messages[i].role == User ==> Trim(messages[i].content) == ""
    ensures LastUserText(messages).Some? ==>
              exists i :: 0 <= i < |messages| && IsLastSpeaking(messages, i) &&
                          LastUserText(messages).value == Trim(messages[i].content)
    decreases |messages|
  {
    if messages != [] {
      var n := |messages| - 1;
      LastUserTextIsTheLast(messages[..n]);
      if messages[n].role == User && Trim(messages[n].content) != "" {
        assert IsLastSpeaking(messages, n);
      } else if LastUserText(messages[..n]).Some? {
        var i :| 0 <= i < n && IsLastSpeaking(messages[..n], i) &&
                 LastUserText(messages[..n]).value == Trim(messages[..n][i].content);
        StillLastSpeaking(messages, n, i);
      }
    }
  }

  lemma StillLastSpeaking(messages: seq<Message>, n: nat, i: nat)
    requires |messages| == n + 1 && i < n && IsLastSpeaking(messages[..n], i)
    requires messages[n].role == User ==> Trim(messages[n].content) == ""
    ensures IsLastSpeaking(messages, i) && messages[..n][i] == messages[i]
  {
    var front := messages[..n];
    assert forall j :: 0 <= j < n ==> front[j] == messages[j];
  }

  predicate IsLastSpeaking(messages: seq<Message>, i: nat)
    requires i < |messages|
  {
    && messages[i].role == User && Trim(messages[i].content) != ""
    && forall j :: i < j < |messages| ==> messages[j].role == User ==> Trim(messages[j].content) == ""
  }
}
