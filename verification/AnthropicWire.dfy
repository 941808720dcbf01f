/** The Anthropic message translation: grouping tool results into user messages, and its inverse. */
module AnthropicWire {
  import opened Types
  import opened Wrappers

  datatype Block =
    | TextBlock(text: string)
    | ToolUse(id: string, name: string, input: string)
    | ToolResult(toolUseId: Option<string>, content: string)

  datatype WireRole = UserRole | AssistantRole

  datatype WireMessage = WireMessage(role: WireRole, content: seq<Block>)

  // ------------------------------------------------------------------ encoding

  function UseBlocks(calls: seq<ToolCall>): seq<Block> {
    if calls == [] then [] else [ToolUse(calls[0].id, calls[0].name, calls[0].arguments)] + UseBlocks(calls[1..])
  }

  function AssistantBlocks(m: Message): seq<Block> {
    var text := m.content.GetOr("");
    var content := (if text != "" then [TextBlock(text)] else []) + UseBlocks(m.toolCalls);
    if content == [] then [TextBlock("")] else content
  }

  function ResultBlock(m: Message): Block { ToolResult(m.toolCallId, m.content.GetOr("")) }

  function Flushed(wire: seq<WireMessage>, pending: seq<Block>): seq<WireMessage> {
    if pending == [] then wire else wire + [WireMessage(UserRole, pending)]
  }

  function Spoken(m: Message): WireMessage {
    if m.role == Assistant then WireMessage(AssistantRole, AssistantBlocks(m))
    else WireMessage(UserRole, [TextBlock(m.content.GetOr(""))])
  }

  /** The loop of `_split_system` from a wire so far and the results still pending. */
  function Encode(messages: seq<Message>, wire: seq<WireMessage>, pending: seq<Block>): seq<WireMessage> {
    if messages == [] then Flushed(wire, pending)
    else
      var (m, rest) := (messages[0], messages[1..]);
      match m.role
      case System => Encode(rest, wire, pending)
      case Tool => Encode(rest, wire, pending + [ResultBlock(m)])
      case _ => Encode(rest, Flushed(wire, pending) + [Spoken(m)], [])
  }

  function SystemParts(messages: seq<Message>): seq<string> {
    if messages == [] then []
    else
      var (m, n) := (messages[|messages| - 1], |messages| - 1);
      SystemParts(messages[..n]) + (if m.role == System && m.content.GetOr("") != "" then [m.content.value] else [])
  }

  /** `_split_system`, with the system texts before they are joined. */
  method SplitSystem(messages: seq<Message>) returns (system: seq<string>, wire: seq<WireMessage>)
    ensures system == SystemParts(messages) && wire == Encode(messages, [], [])
  {
    system, wire := [], [];
    var pending: seq<Block> := [];
    assert messages[0..] == messages;
    for i := 0 to |messages|
      invariant system == SystemParts(messages[..i])
      invariant Encode(messages[i..], wire, pending) == Encode(messages, [], [])
    {
      var m := messages[i];
      assert messages[i..][1..] == messages[i + 1..] && messages[..i + 1][..i] == messages[..i];
      match m.role {
        case System =>
          if m.content.GetOr("") != "" { system := system + [m.content.value]; }
        case Tool =>
          pending := pending + [ResultBlock(m)];
        case _ =>
          if pending != [] { wire, pending := wire + [WireMessage(UserRole, pending)], []; }
          wire := wire + [Spoken(m)];
      }
    }
    assert messages[..|messages|] == messages;
    if pending != [] { wire := wire + [WireMessage(UserRole, pending)]; }
  }

  /** The system texts of two halves one after the other; of one message its text, if it is a system message with a
      text that is not empty. */
  lemma {:induction false} SystemInOrder(a: seq<Message>, b: seq<Message>, m: Message)
    ensures SystemParts(a + b) == SystemParts(a) + SystemParts(b)
    ensures SystemParts([m]) ==
      if m.role == System && m.content.Some? && m.content.value != "" then [m.content.value] else []
    decreases |b|
  {
    assert [m][..0] == [];
    if b == [] {
      assert a + b == a;
    } else {
      var n := |b| - 1;
      SystemInOrder(a, b[..n], m);
      assert (a + b)[..|a + b| - 1] == a + b[..n];
    }
  }

  // ------------------------------------------------------------------ decoding

  function CallsOf(blocks: seq<Block>): seq<ToolCall> {
    if blocks == [] then []
    else if blocks[0].ToolUse? then [ToolCall(blocks[0].id, blocks[0].name, blocks[0].input)] + CallsOf(blocks[1..])
    else CallsOf(blocks[1..])
  }

  function TextOf(blocks: seq<Block>): string { if blocks != [] && blocks[0].TextBlock? then blocks[0].text else "" }

  function ResultMessage(b: Block): Message
    requires b.ToolResult?
  {
    Message(Tool, Some(b.content), [], b.toolUseId, None)
  }

  function ResultsOf(blocks: seq<Block>): seq<Message> {
    if blocks == [] then []
    else if blocks[0].ToolResult? then [ResultMessage(blocks[0])] + ResultsOf(blocks[1..])
    else ResultsOf(blocks[1..])
  }

  function DecodeOne(w: WireMessage): seq<Message> {
    if w.role == AssistantRole then [Message(Assistant, Some(TextOf(w.content)), CallsOf(w.content), None, None)]
    else if w.content != [] && w.content[0].TextBlock? then [Message(User, Some(TextOf(w.content)), [], None, None)]
    else ResultsOf(w.content)
  }

  function Decode(wire: seq<WireMessage>): seq<Message> {
    if wire == [] then [] else DecodeOne(wire[0]) + Decode(wire[1..])
  }

  /** What the wire format carries of a message: no null content, calls only from assistants, ids only
      on tool results, no names. */
  function Carried(m: Message): Message {
    Message(m.role, Some(m.content.GetOr("")), if m.role == Assistant then m.toolCalls else [],
            if m.role == Tool then m.toolCallId else None, None)
  }

  function Conversation(messages: seq<Message>): seq<Message> {
    if messages == [] then []
    else if messages[0].role == System then Conversation(messages[1..])
    else [Carried(messages[0])] + Conversation(messages[1..])
  }

  // ------------------------------------------------------------------ the round trip

  lemma {:induction false} DecodeAppend(a: seq<WireMessage>, b: seq<WireMessage>)
    ensures Decode(a + b) == Decode(a) + Decode(b)
  {
    if a == [] {
      assert a + b == b;
    } else {
      assert (a + b)[1..] == a[1..] + b;
      DecodeAppend(a[1..], b);
    }
  }

  lemma {:induction false} CallsRoundTrip(calls: seq<ToolCall>)
    ensures CallsOf(UseBlocks(calls)) == calls
    ensures forall i :: 0 <= i < |UseBlocks(calls)| ==> UseBlocks(calls)[i].ToolUse?
    ensures UseBlocks(calls) == [] <==> calls == []
  {
    if calls != [] { CallsRoundTrip(calls[1..]); }
  }

  lemma SpokenRoundTrip(m: Message)
    requires m.role == User || m.role == Assistant
    ensures Decode([Spoken(m)]) == [Carried(m)]
  {
    var w := Spoken(m);
    assert Decode([w]) == DecodeOne(w) + Decode([w][1..]) == DecodeOne(w);
    if m.role == Assistant { AssistantRoundTrip(m); }
  }

  lemma AssistantRoundTrip(m: Message)
    ensures TextOf(AssistantBlocks(m)) == m.content.GetOr("") && CallsOf(AssistantBlocks(m)) == m.toolCalls
  {
    var uses, text := UseBlocks(m.toolCalls), m.content.GetOr("");
    CallsRoundTrip(m.toolCalls);
    if text != "" {
      assert AssistantBlocks(m) == [TextBlock(text)] + uses;
      assert ([TextBlock(text)] + uses)[1..] == uses;
    } else if uses == [] {
      assert AssistantBlocks(m) == [TextBlock("")] && [TextBlock("")][1..] == [];
    } else {
      assert AssistantBlocks(m) == uses;
    }
  }

  predicate AllResults(blocks: seq<Block>) { forall i :: 0 <= i < |blocks| ==> blocks[i].ToolResult? }

  lemma {:induction false} ResultsAppend(blocks: seq<Block>, b: Block)
    requires b.ToolResult?
    ensures ResultsOf(blocks + [b]) == ResultsOf(blocks) + [ResultMessage(b)]
  {
    if blocks == [] {
      assert [b][1..] == [] && blocks + [b] == [b];
    } else {
      assert (blocks + [b])[1..] == blocks[1..] + [b];
      ResultsAppend(blocks[1..], b);
    }
  }

  lemma FlushDecodes(wire: seq<WireMessage>, pending: seq<Block>)
    requires AllResults(pending)
    ensures Decode(Flushed(wire, pending)) == Decode(wire) + ResultsOf(pending)
  {
    if pending != [] {
      var w := WireMessage(UserRole, pending);
      DecodeAppend(wire, [w]);
      assert Decode([w]) == DecodeOne(w) + Decode([w][1..]) == ResultsOf(pending);
    }
  }

  /** Whatever is already on the wire and pending, decoding gives that back and then the conversation. */
  lemma {:induction false} EncodeDecodes(messages: seq<Message>, wire: seq<WireMessage>, pending: seq<Block>)
    requires AllResults(pending)
    ensures Decode(Encode(messages, wire, pending)) == Decode(wire) + ResultsOf(pending) + Conversation(messages)
    decreases |messages|
  {
    if messages == [] {
      FlushDecodes(wire, pending);
    } else {
      var (m, rest) := (messages[0], messages[1..]);
      match m.role
      case System => EncodeDecodes(rest, wire, pending);
      case Tool =>
        EncodeDecodes(rest, wire, pending + [ResultBlock(m)]);
        ResultsAppend(pending, ResultBlock(m));
        Regroup(Decode(wire), ResultsOf(pending), [Carried(m)], Conversation(rest));
      case _ =>
        EncodeDecodes(rest, Flushed(wire, pending) + [Spoken(m)], []);
        SpeakDecodes(wire, pending, m);
        Regroup(Decode(wire), ResultsOf(pending), [Carried(m)], Conversation(rest));
    }
  }

  lemma SpeakDecodes(wire: seq<WireMessage>, pending: seq<Block>, m: Message)
    requires AllResults(pending) && (m.role == User || m.role == Assistant)
    ensures Decode(Flushed(wire, pending) + [Spoken(m)]) == Decode(wire) + ResultsOf(pending) + [Carried(m)]
  {
    DecodeAppend(Flushed(wire, pending), [Spoken(m)]);
    SpokenRoundTrip(m);
    FlushDecodes(wire, pending);
  }

  lemma Regroup<T>(a: seq<T>, b: seq<T>, c: seq<T>, d: seq<T>)
    ensures a + (b + c) + d == a + b + (c + d) == a + b + c + d
  {
  }

  /** Decoding the wire gives back every non-system message, in order: role, text, tool calls and
      result ids, wherever system messages and runs of tool results stand. */
  lemma RoundTrip(messages: seq<Message>)
    ensures Decode(Encode(messages, [], [])) == Conversation(messages)
  {
    EncodeDecodes(messages, [], []);
  }

  /** No wire message is empty, and no two result groups are adjacent. */
  predicate Grouped(wire: seq<WireMessage>) {
    && (forall i :: 0 <= i < |wire| ==> wire[i].content != [])
    && (forall i :: 0 <= i < |wire| - 1 ==> !(IsResults(wire[i]) && IsResults(wire[i + 1])))
  }

  predicate IsResults(w: WireMessage) { w.role == UserRole && w.content != [] && w.content[0].ToolResult? }

  /** Consecutive tool results always share one wire message, system messages between them or not. */
  lemma {:induction false} EncodeGroups(messages: seq<Message>, wire: seq<WireMessage>, pending: seq<Block>)
    requires Grouped(wire) && AllResults(pending)
    requires wire != [] ==> !IsResults(wire[|wire| - 1])
    ensures Grouped(Encode(messages, wire, pending))
    decreases |messages|
  {
    if messages != [] {
      var (m, rest) := (messages[0], messages[1..]);
      match m.role
      case System => EncodeGroups(rest, wire, pending);
      case Tool => EncodeGroups(rest, wire, pending + [ResultBlock(m)]);
      case _ => EncodeGroups(rest, Flushed(wire, pending) + [Spoken(m)], []);
    }
  }
}
