/** Translating whole requests between the OpenAI and Claude formats: the walk over the messages in
    `openai_to_claude_request` and `claude_to_openai_request`. */
module Requests {
  import opened Wire
  import opened Folds

  // ---- OpenAI messages ----

  datatype Part = TextPart(text: string) | OtherPart(json: Json)

  /** A `content` field: missing, null, a string, an array of parts, or something else. */
  datatype Content = Missing | Null | Str(s: string) | Parts(parts: seq<Part>) | Other(json: Json)

  datatype Message = Message(role: string, content: Content, toolCalls: seq<ToolCall>, toolCallId: string)

  // ---- Claude turns ----

  datatype Block =
    | TextBlock(text: string)
    | ToolUseBlock(id: string, name: string, input: Json)
    | ToolResultBlock(toolUseId: string, content: Content)
    | PassedOn(json: Json)

  /** `content` as an array of blocks; a plain string stands for one text block. */
  datatype Turn = Turn(role: string, blocks: seq<Block>)

  /** `system` as the list of its text blocks; a plain string stands for one of them. */
  datatype ClaudeRequest = ClaudeRequest(system: seq<string>, turns: seq<Turn>)

  // ---- OpenAI to Claude ----

  function TextsOf(p: Part): seq<string> { if p.TextPart? then [p.text] else [] }

  function SystemTexts(m: Message): seq<string> {
    if m.role != "system" then []
    else match m.content
         case Str(s) => if s == "" then [] else [s]
         case Parts(parts) => Gather(TextsOf, parts)
         case _ => []
  }

  function PartBlock(p: Part): seq<Block> { [if p.TextPart? then TextBlock(p.text) else PassedOn(p.json)] }

  function ContentBlocks(c: Content): seq<Block> {
    match c
    case Str(s) => if s == "" then [] else [TextBlock(s)]
    case Parts(parts) => Gather(PartBlock, parts)
    case _ => []
  }

  function ToolUses(parse: string -> Option<Json>, calls: seq<ToolCall>): seq<Block> {
    seq(|calls|, i requires 0 <= i < |calls| =>
      ToolUseBlock(calls[i].id, calls[i].name, parse(calls[i].arguments).GetOr("{}")))
  }

  /** The Claude turn a message asks for; system messages ask for none. */
  function Pending(parse: string -> Option<Json>, m: Message): seq<Turn> {
    if m.role == "system" then []
    else if m.role == "tool" then
      var content := if m.content.Missing? || m.content.Null? then Str("") else m.content;
      [Turn("user", [ToolResultBlock(m.toolCallId, content)])]
    else [Turn(m.role, ContentBlocks(m.content) + ToolUses(parse, m.toolCalls))]
  }

  /** A turn joins the previous one when the roles are equal. */
  function Merge(merged: seq<Turn>, t: Turn): seq<Turn> {
    var n := |merged| - 1;
    if merged != [] && merged[n].role == t.role then merged[..n] + [Turn(t.role, merged[n].blocks + t.blocks)]
    else merged + [t]
  }

  const PLACEHOLDER := Turn("user", [TextBlock(".")])

  function UserFirst(turns: seq<Turn>): seq<Turn> {
    if turns != [] && turns[0].role == "user" then turns else [PLACEHOLDER] + turns
  }

  function AllPending(parse: string -> Option<Json>, messages: seq<Message>): seq<Turn> {
    if messages == [] then []
    else AllPending(parse, messages[..|messages| - 1]) + Pending(parse, messages[|messages| - 1])
  }

  function ToClaude(parse: string -> Option<Json>, messages: seq<Message>): ClaudeRequest {
    ClaudeRequest(Gather(SystemTexts, messages), UserFirst(Fold(Merge, [], AllPending(parse, messages))))
  }

  method OpenaiToClaudeRequest(parse: string -> Option<Json>, messages: seq<Message>) returns (r: ClaudeRequest)
    ensures r == ToClaude(parse, messages)
  {
    hide ContentBlocks, ToolUses;
    var systemTexts: seq<string> := [];
    var pending: seq<Turn> := [];
    for i := 0 to |messages|
      invariant systemTexts == Gather(SystemTexts, messages[..i])
      invariant pending == AllPending(parse, messages[..i])
    {
      assert messages[..i + 1][..i] == messages[..i];
      var m := messages[i];
      if m.role == "system" {
        match m.content {
          case Str(s) => if s != "" { systemTexts := systemTexts + [s]; }
          case Parts(parts) =>
            var texts := CollectTexts(parts);
            systemTexts := systemTexts + texts;
          case _ =>
        }
      } else if m.role == "tool" {
        var content := if m.content.Missing? || m.content.Null? then Str("") else m.content;
        pending := pending + [Turn("user", [ToolResultBlock(m.toolCallId, content)])];
      } else {
        var blocks := BuildBlocks(parse, m);
        pending := pending + [Turn(m.role, blocks)];
      }
    }
    assert messages[..|messages|] == messages;
    var merged: seq<Turn> := [];
    for i := 0 to |pending|
      invariant merged == Fold(Merge, [], pending[..i])
    {
      assert pending[..i + 1][..i] == pending[..i];
      var n := |merged| - 1;
      if merged != [] && merged[n].role == pending[i].role {
        merged := merged[..n] + [Turn(merged[n].role, merged[n].blocks + pending[i].blocks)];
      } else {
        merged := merged + [pending[i]];
      }
    }
    assert pending[..|pending|] == pending;
    if merged == [] || merged[0].role != "user" {
      merged := [Turn("user", [TextBlock(".")])] + merged;
    }
    r := ClaudeRequest(systemTexts, merged);
  }

  method CollectTexts(parts: seq<Part>) returns (texts: seq<string>)
    ensures texts == Gather(TextsOf, parts)
  {
    texts := [];
    for i := 0 to |parts|
      invariant texts == Gather(TextsOf, parts[..i])
    {
      assert parts[..i + 1][..i] == parts[..i];
      if parts[i].TextPart? { texts := texts + [parts[i].text]; }
    }
    assert parts[..|parts|] == parts;
  }

  method BuildBlocks(parse: string -> Option<Json>, m: Message) returns (blocks: seq<Block>)
    ensures blocks == ContentBlocks(m.content) + ToolUses(parse, m.toolCalls)
  {
    blocks := [];
    match m.content {
      case Str(s) => if s != "" { blocks := [TextBlock(s)]; }
      case Parts(parts) =>
        for i := 0 to |parts|
          invariant blocks == Gather(PartBlock, parts[..i])
        {
          assert parts[..i + 1][..i] == parts[..i];
          blocks := blocks + [if parts[i].TextPart? then TextBlock(parts[i].text) else PassedOn(parts[i].json)];
        }
        assert parts[..|parts|] == parts;
      case _ =>
    }
    var calls := m.toolCalls;
    for i := 0 to |calls|
      invariant blocks == ContentBlocks(m.content) + ToolUses(parse, calls[..i])
    {
      assert ToolUses(parse, calls[..i + 1])
          == ToolUses(parse, calls[..i])
             + [ToolUseBlock(calls[i].id, calls[i].name, parse(calls[i].arguments).GetOr("{}"))];
      blocks := blocks + [ToolUseBlock(calls[i].id, calls[i].name, parse(calls[i].arguments).GetOr("{}"))];
    }
    assert calls[..|calls|] == calls;
  }

  // ---- Claude to OpenAI ----

  function BlockTexts(b: Block): seq<string> { if b.TextBlock? then [b.text] else [] }

  function CallsIn(b: Block): seq<ToolCall> {
    if b.ToolUseBlock? then [ToolCall(b.id, b.name, b.input)] else []
  }

  /** The string a tool result is told in. */
  function ResultText(c: Content): string {
    match c
    case Missing => ""
    case Null => "null"
    case Str(s) => s
    case Parts(parts) => Joined(Gather(TextsOf, parts))
    case Other(json) => json
  }

  function ToolMessages(b: Block): seq<Message> {
    if b.ToolResultBlock? then [Message("tool", Str(ResultText(b.content)), [], b.toolUseId)] else []
  }

  predicate HasToolResult(blocks: seq<Block>) { exists b :: b in blocks && b.ToolResultBlock? }

  function FromTurn(t: Turn): seq<Message> {
    var texts := Gather(BlockTexts, t.blocks);
    if HasToolResult(t.blocks) then
      Gather(ToolMessages, t.blocks) + if texts == [] then [] else [Message(t.role, Str(Joined(texts)), [], "")]
    else
      var calls, text := Gather(CallsIn, t.blocks), Joined(texts);
      [Message(t.role, if calls != [] && text == "" then Null else Str(text), calls, "")]
  }

  function FromSystem(system: seq<string>): seq<Message> {
    if Joined(system) == "" then [] else [Message("system", Str(Joined(system)), [], "")]
  }

  function ToOpenai(r: ClaudeRequest): seq<Message> { FromSystem(r.system) + Gather(FromTurn, r.turns) }

  method ClaudeToOpenaiRequest(r: ClaudeRequest) returns (messages: seq<Message>)
    ensures messages == ToOpenai(r)
  {
    hide FromTurn;
    messages := [];
    var systemText := Joined(r.system);
    if systemText != "" {
      messages := messages + [Message("system", Str(systemText), [], "")];
    }
    for i := 0 to |r.turns|
      invariant messages == FromSystem(r.system) + Gather(FromTurn, r.turns[..i])
    {
      assert r.turns[..i + 1][..i] == r.turns[..i];
      var out := ConvertTurn(r.turns[i]);
      messages := messages + out;
    }
    assert r.turns[..|r.turns|] == r.turns;
  }

  method ConvertTurn(t: Turn) returns (out: seq<Message>)
    ensures out == FromTurn(t)
  {
    var hasToolResult := exists b :: b in t.blocks && b.ToolResultBlock?;
    if hasToolResult {
      out := ConvertResults(t);
    } else {
      out := ConvertPlain(t);
    }
  }

  /** One tool message per result, then the texts, if any. */
  method ConvertResults(t: Turn) returns (out: seq<Message>)
    requires HasToolResult(t.blocks)
    ensures out == FromTurn(t)
  {
    hide ResultText, Joined, HasToolResult;
    out := [];
    var textParts: seq<string> := [];
    for i := 0 to |t.blocks|
      invariant textParts == Gather(BlockTexts, t.blocks[..i])
      invariant out == Gather(ToolMessages, t.blocks[..i])
    {
      assert t.blocks[..i + 1][..i] == t.blocks[..i];
      match t.blocks[i] {
        case ToolResultBlock(id, content) => out := out + [Message("tool", Str(ResultText(content)), [], id)];
        case TextBlock(text) => textParts := textParts + [text];
        case _ =>
      }
    }
    assert t.blocks[..|t.blocks|] == t.blocks;
    if textParts != [] {
      out := out + [Message(t.role, Str(Joined(textParts)), [], "")];
    }
  }

  /** One message: the texts joined, null when there are only tool calls. */
  method ConvertPlain(t: Turn) returns (out: seq<Message>)
    requires !HasToolResult(t.blocks)
    ensures out == FromTurn(t)
  {
    hide Joined, HasToolResult;
    var textParts: seq<string>, toolCalls: seq<ToolCall> := [], [];
    for i := 0 to |t.blocks|
      invariant textParts == Gather(BlockTexts, t.blocks[..i])
      invariant toolCalls == Gather(CallsIn, t.blocks[..i])
    {
      assert t.blocks[..i + 1][..i] == t.blocks[..i];
      match t.blocks[i] {
        case TextBlock(text) => textParts := textParts + [text];
        case ToolUseBlock(id, name, input) => toolCalls := toolCalls + [ToolCall(id, name, input)];
        case _ =>
      }
    }
    assert t.blocks[..|t.blocks|] == t.blocks;
    var text := Joined(textParts);
    out := [Message(t.role, if toolCalls != [] && text == "" then Null else Str(text), toolCalls, "")];
  }
}
