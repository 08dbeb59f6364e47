/** What every single message contributes to a translated request, whatever comes before and after it. */
module RequestParts {
  import opened Wire
  import opened Folds
  import opened Requests
  import opened ClaudeRequestTrip

  // ---- the system text ----

  /** The texts among content parts, in order. */
  function PartTexts(parts: seq<Part>): seq<string> {
    if parts == [] then []
    else
      match parts[0]
      case TextPart(text) => [text] + PartTexts(parts[1..])
      case OtherPart(_) => PartTexts(parts[1..])
  }

  lemma {:induction false} PartTextsGathered(parts: seq<Part>)
    ensures Gather(TextsOf, parts) == PartTexts(parts)
  {
    if parts != [] {
      GatherFirst(TextsOf, parts);
      PartTextsGathered(parts[1..]);
    }
  }

  /** The system texts of all messages, wherever they stand, in order. */
  function Instructions(messages: seq<Message>): seq<string> {
    if messages == [] then []
    else
      (match (messages[0].role, messages[0].content)
       case ("system", Str(s)) => if s == "" then [] else [s]
       case ("system", Parts(parts)) => PartTexts(parts)
       case _ => []) + Instructions(messages[1..])
  }

  lemma {:induction false} AllInstructions(messages: seq<Message>)
    ensures Gather(SystemTexts, messages) == Instructions(messages)
  {
    if messages != [] {
      GatherFirst(SystemTexts, messages);
      AllInstructions(messages[1..]);
      if messages[0].content.Parts? {
        PartTextsGathered(messages[0].content.parts);
      }
    }
  }

  /** No system message is lost, the second and later ones included. */
  lemma SystemIsAllInstructions(parse: string -> Option<Json>, messages: seq<Message>)
    ensures ToClaude(parse, messages).system == Instructions(messages)
  {
    AllInstructions(messages);
  }

  lemma SystemAppends(parse: string -> Option<Json>, a: seq<Message>, b: seq<Message>)
    ensures ToClaude(parse, a + b).system == ToClaude(parse, a).system + ToClaude(parse, b).system
  {
    GatherAppend(SystemTexts, a, b);
  }

  predicate NoSystem(messages: seq<Message>) { forall m <- messages :: m.role != "system" }

  predicate NoSystemTurn(turns: seq<Turn>) { forall t <- turns :: t.role != "system" }

  lemma TurnSaysNoSystem(t: Turn)
    requires t.role != "system"
    ensures NoSystem(FromTurn(t))
  {
    forall m <- Gather(ToolMessages, t.blocks) ensures m.role != "system" {
      ToolMessagesOnly(t.blocks, m);
    }
  }

  lemma {:induction false} TurnsSayNoSystem(turns: seq<Turn>)
    requires NoSystemTurn(turns)
    ensures NoSystem(Gather(FromTurn, turns))
  {
    if turns != [] {
      var n := |turns| - 1;
      TurnsSayNoSystem(turns[..n]);
      TurnSaysNoSystem(turns[n]);
      hide FromTurn;
    }
  }

  lemma {:induction false} PendingHasNoSystem(parse: string -> Option<Json>, messages: seq<Message>)
    ensures NoSystemTurn(AllPending(parse, messages))
  {
    if messages != [] {
      PendingHasNoSystem(parse, messages[..|messages| - 1]);
      assert "user" != "system" by { assert "user"[0] != "system"[0]; }
      hide ContentBlocks, ToolUses;
    }
  }

  lemma {:induction false} MergedHasNoSystem(pending: seq<Turn>)
    requires NoSystemTurn(pending)
    ensures NoSystemTurn(Fold(Merge, [], pending))
  {
    if pending != [] {
      MergedHasNoSystem(pending[..|pending| - 1]);
    }
  }

  /** The first message back holds all system texts joined in order, and no other message back is a system message;
      there is none when no text was given. */
  lemma SystemComesBack(parse: string -> Option<Json>, messages: seq<Message>) returns (rest: seq<Message>)
    ensures var text := Joined(Instructions(messages));
            ToOpenai(ToClaude(parse, messages))
            == (if text == "" then [] else [Message("system", Str(text), [], "")]) + rest
    ensures NoSystem(rest)
  {
    var pending := AllPending(parse, messages);
    var turns := ToClaude(parse, messages).turns;
    PendingHasNoSystem(parse, messages);
    MergedHasNoSystem(pending);
    AllInstructions(messages);
    assert PLACEHOLDER.role != "system" by { assert "user"[0] != "system"[0]; }
    assert NoSystemTurn(turns) by { hide Fold, AllPending; }
    TurnsSayNoSystem(turns);
    rest := Gather(FromTurn, turns);
    hide Gather, Fold, AllPending, Instructions, NoSystem;
  }

  // ---- the turns ----

  /** Content as parts: a string that is not empty is one text part. */
  function PartsOf(c: Content): seq<Part> {
    match c
    case Str(s) => if s == "" then [] else [TextPart(s)]
    case Parts(parts) => parts
    case _ => []
  }

  lemma {:induction false} PartBlocks(parts: seq<Part>)
    ensures |Gather(PartBlock, parts)| == |parts|
    ensures forall i :: 0 <= i < |parts| ==> [Gather(PartBlock, parts)[i]] == PartBlock(parts[i])
  {
    if parts != [] {
      PartBlocks(parts[..|parts| - 1]);
    }
  }

  /** A user or assistant message, or one of any other role but system and tool: a turn of that role with a block for
      each part and then one for each tool call. */
  ghost predicate TurnOf(parse: string -> Option<Json>, m: Message, t: Turn) {
    var parts, calls := PartsOf(m.content), m.toolCalls;
    && t.role == m.role && |t.blocks| == |parts| + |calls|
    && (forall i :: 0 <= i < |parts| ==>
          t.blocks[i] == match parts[i] case TextPart(text) => TextBlock(text) case OtherPart(json) => PassedOn(json))
    && (forall i :: 0 <= i < |calls| ==>
          t.blocks[|parts| + i] ==
          ToolUseBlock(calls[i].id, calls[i].name,
                       match parse(calls[i].arguments) case Some(input) => input case None => "{}"))
  }

  /** What a message becomes before neighbours merge: nothing for a system message, a user turn with one tool result for
      a tool message, a turn of its own for any other. */
  lemma MessageBecomes(parse: string -> Option<Json>, m: Message)
    ensures var turns := AllPending(parse, [m]);
            match m.role
            case "system" => turns == []
            case "tool" =>
              turns == [Turn("user", [ToolResultBlock(m.toolCallId,
                                                      match m.content
                                                      case Missing => Str("")
                                                      case Null => Str("")
                                                      case _ => m.content)])]
            case _ => |turns| == 1 && TurnOf(parse, m, turns[0])
  {
    PendingOne(parse, m);
    if m.content.Parts? {
      PartBlocks(m.content.parts);
    }
    hide AllPending, Gather;
  }

  // ---- the way back ----

  function TextsAmong(blocks: seq<Block>): seq<string> {
    if blocks == [] then []
    else
      match blocks[0]
      case TextBlock(text) => [text] + TextsAmong(blocks[1..])
      case _ => TextsAmong(blocks[1..])
  }

  function CallsAmong(blocks: seq<Block>): seq<ToolCall> {
    if blocks == [] then []
    else
      match blocks[0]
      case ToolUseBlock(id, name, input) => [ToolCall(id, name, input)] + CallsAmong(blocks[1..])
      case _ => CallsAmong(blocks[1..])
  }

  /** A tool result as a string: as it is, its parts' texts joined, or its JSON. */
  function Told(content: Content): string {
    match content
    case Missing => ""
    case Null => "null"
    case Str(s) => s
    case Parts(parts) => Joined(PartTexts(parts))
    case Other(json) => json
  }

  function ResultsAmong(blocks: seq<Block>): seq<Message> {
    if blocks == [] then []
    else
      match blocks[0]
      case ToolResultBlock(id, content) => [Message("tool", Str(Told(content)), [], id)] + ResultsAmong(blocks[1..])
      case _ => ResultsAmong(blocks[1..])
  }

  lemma {:induction false} AmongAreGathered(blocks: seq<Block>)
    ensures TextsAmong(blocks) == Gather(BlockTexts, blocks)
    ensures CallsAmong(blocks) == Gather(CallsIn, blocks)
    ensures ResultsAmong(blocks) == Gather(ToolMessages, blocks)
    ensures HasToolResult(blocks) <==> ResultsAmong(blocks) != []
  {
    if blocks != [] {
      GatherFirst(BlockTexts, blocks);
      GatherFirst(CallsIn, blocks);
      GatherFirst(ToolMessages, blocks);
      AmongAreGathered(blocks[1..]);
      if blocks[0].ToolResultBlock? && blocks[0].content.Parts? {
        PartTextsGathered(blocks[0].content.parts);
      }
      assert blocks == [blocks[0]] + blocks[1..];
      hide Gather, PartTexts, Joined;
    }
  }

  /** A turn with tool results: one tool message each, then its texts as one message, if it has any; any other turn: one
      message with its texts and calls, its content null when there are only calls. */
  function TurnTold(t: Turn): seq<Message> {
    var texts, calls, results := TextsAmong(t.blocks), CallsAmong(t.blocks), ResultsAmong(t.blocks);
    if results != [] then results + if texts == [] then [] else [Message(t.role, Str(Joined(texts)), [], "")]
    else [Message(t.role, if calls != [] && Joined(texts) == "" then Null else Str(Joined(texts)), calls, "")]
  }

  function TurnsTold(turns: seq<Turn>): seq<Message> {
    if turns == [] then [] else TurnTold(turns[0]) + TurnsTold(turns[1..])
  }

  lemma {:induction false} TurnsAreTold(turns: seq<Turn>)
    ensures Gather(FromTurn, turns) == TurnsTold(turns)
  {
    if turns != [] {
      GatherFirst(FromTurn, turns);
      AmongAreGathered(turns[0].blocks);
      TurnsAreTold(turns[1..]);
      hide Gather, HasToolResult, TextsAmong, CallsAmong, ResultsAmong;
    }
  }

  /** Every Claude request told to OpenAI, message by message: the joined system text unless it is empty, then each
      turn. */
  lemma RequestIsTold(r: ClaudeRequest)
    ensures var text := Joined(r.system);
            ToOpenai(r) == (if text == "" then [] else [Message("system", Str(text), [], "")]) + TurnsTold(r.turns)
  {
    TurnsAreTold(r.turns);
  }

  lemma JoinedPieces(a: seq<string>, b: seq<string>, s: string)
    ensures Joined([]) == "" && Joined([s]) == s && Joined(a + b) == Joined(a) + Joined(b)
  {
    JoinedOne(s);
    GatherAppend(Folds.Itself, a, b);
  }
}
