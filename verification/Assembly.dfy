/** Assembling a whole Claude message from its stream, as a Claude client does; strict about the grammar, and held
    against the lenient reader of `Meaning`. */
module Assembly {
  import opened Wire
  import opened Folds
  import opened Meaning

  /** A content block while it is collected; tool input is still raw text. */
  datatype Raw = RawText(text: string) | RawThinking(thinking: string) | RawTool(id: string, name: string, json: string)

  datatype Phase = Awaiting | Building | Complete | Rejected

  datatype Draft = Draft(phase: Phase, closed: seq<Raw>, open: Option<Raw>,
                         stop: Option<string>, input: nat, output: nat)
  {
    function Blocks(): seq<Raw> { if open.Some? then closed + [open.value] else closed }
    function Reject(): Draft { this.(phase := Rejected) }
  }

  const BLANK := Draft(Awaiting, [], None, None, 0, 0)

  function RawOf(head: BlockHead): Option<Raw> {
    match head
    case TextHead(t) => Some(RawText(t))
    case ThinkingHead(t) => Some(RawThinking(t))
    case ToolHead(id, name) => Some(RawTool(id, name, ""))
    case OtherHead => None
  }

  /** A block extended by a piece of its own kind; signatures and unknown pieces add nothing here. */
  function Grown(raw: Raw, piece: Piece): Option<Raw> {
    match (raw, piece)
    case (RawText(t), TextPiece(p)) => Some(RawText(t + p))
    case (RawThinking(t), ThinkingPiece(p)) => Some(RawThinking(t + p))
    case (RawTool(id, name, j), InputPiece(p)) => Some(RawTool(id, name, j + p))
    case (_, SignaturePiece) => Some(raw)
    case (_, OtherPiece) => Some(raw)
    case _ => None
  }

  function Assemble(d: Draft, e: ClaudeEvent): Draft {
    if e.Ping? || e.UnknownEvent? || d.phase.Rejected? then d
    else if d.phase.Awaiting? && e.MessageStart? then d.(phase := Building, input := e.inputTokens.GetOr(0))
    else if !d.phase.Building? then d.Reject()
    else
      match e
      case BlockStart(i, head) =>
        if i == |d.closed| && d.open.None? && RawOf(head).Some? then d.(open := RawOf(head)) else d.Reject()
      case BlockDelta(i, piece) =>
        if i == |d.closed| && d.open.Some? && Grown(d.open.value, piece).Some?
        then d.(open := Grown(d.open.value, piece)) else d.Reject()
      case BlockStop(i) =>
        if i == |d.closed| && d.open.Some? then d.(closed := d.Blocks(), open := None) else d.Reject()
      case MessageDelta(stop, tokens) =>
        if d.open.Some? then d.Reject()
        else d.(stop := if stop.Some? then stop else d.stop, output := tokens.GetOr(d.output))
      case MessageStop => if d.open.None? then d.(phase := Complete) else d.Reject()
      case _ => d.Reject()
  }

  function Drafted(events: seq<ClaudeEvent>): Draft { Fold(Assemble, BLANK, events) }

  // ---- finishing the blocks ----

  /** Parsing JSON text to the compact text of its value, as far as the translators rely on it. */
  ghost predicate ParsesJson(parse: string -> Option<Json>) {
    && parse("") == None && parse("{}") == Some("{}")
    && forall s :: parse(s).Some? ==> parse(parse(s).value) == parse(s)
  }

  /** A tool input: an empty object when no text came, else the parsed text. */
  function InputOf(parse: string -> Option<Json>, json: string): Option<Json> {
    if json == "" then Some("{}") else parse(json)
  }

  predicate Parseable(parse: string -> Option<Json>, blocks: seq<Raw>) {
    forall i :: 0 <= i < |blocks| && blocks[i].RawTool? ==> InputOf(parse, blocks[i].json).Some?
  }

  function Block(parse: string -> Option<Json>, raw: Raw): ContentBlock {
    match raw
    case RawText(t) => Text(t)
    case RawThinking(t) => Thinking(t)
    case RawTool(id, name, j) => ToolUse(id, name, InputOf(parse, j).GetOr("{}"))
  }

  function Content(parse: string -> Option<Json>, blocks: seq<Raw>): seq<ContentBlock> {
    seq(|blocks|, i requires 0 <= i < |blocks| => Block(parse, blocks[i]))
  }

  /** The message a client ends up with, if the stream is complete and well formed. */
  function MessageOf(parse: string -> Option<Json>, events: seq<ClaudeEvent>): Option<ClaudeMessage> {
    var d := Drafted(events);
    if d.phase.Complete? && Parseable(parse, d.closed)
    then Some(ClaudeMessage(Content(parse, d.closed), d.stop, d.input, d.output)) else None
  }

  // ---- what the blocks say ----

  function TextPart(raw: Raw): string { if raw.RawText? then raw.text else "" }

  function ThinkingPart(raw: Raw): string { if raw.RawThinking? then raw.thinking else "" }

  function CallPart(raw: Raw): seq<ToolCall> {
    if raw.RawTool? then [ToolCall(raw.id, raw.name, raw.json)] else []
  }

  function TextIn(blocks: seq<Raw>): string { Gather(TextPart, blocks) }

  function ThinkingIn(blocks: seq<Raw>): string { Gather(ThinkingPart, blocks) }

  function CallsIn(blocks: seq<Raw>): seq<ToolCall> { Gather(CallPart, blocks) }

  function HeadTextOf(e: ClaudeEvent): nat { match e { case BlockStart(_, TextHead(t)) => |t| case _ => 0 } }

  function HeadThinkingOf(e: ClaudeEvent): nat { match e { case BlockStart(_, ThinkingHead(t)) => |t| case _ => 0 } }

  /** How much text, or thinking, block starts bring along before any delta. */
  function HeadText(events: seq<ClaudeEvent>): nat {
    if events == [] then 0 else
      var n := |events| - 1;
      HeadText(events[..n]) + HeadTextOf(events[n])
  }

  function HeadThinking(events: seq<ClaudeEvent>): nat {
    if events == [] then 0 else
      var n := |events| - 1;
      HeadThinking(events[..n]) + HeadThinkingOf(events[n])
  }

  /** `whole` is `part` except for text that came with block starts. */
  ghost predicate Covers(whole: string, part: string, extra: nat) {
    |whole| == |part| + extra && (extra == 0 ==> whole == part)
  }

  ghost predicate Agrees(d: Draft, g: Gist, headText: nat, headThinking: nat) {
    && Covers(TextIn(d.Blocks()), g.text, headText)
    && Covers(ThinkingIn(d.Blocks()), g.reasoning, headThinking)
    && CallsIn(d.Blocks()) == g.calls
    && d.stop == g.stop && d.input == g.input && d.output == g.output
    && (d.phase.Awaiting? ==> d == BLANK)
    && (d.phase.Complete? ==> && d.open.None? && g.finish == Some(FinishReasonOf(g.stop.GetOr("end_turn")))
                              && g.usage == (if g.input > 0 || g.output > 0
                                             then Some(Usage(g.input, g.output)) else None))
    && (!d.phase.Complete? ==> g.usage.None?)
  }

  /** The effect of the last block on what a list of blocks says. */
  lemma LastBlock(blocks: seq<Raw>, raw: Raw)
    ensures TextIn(blocks + [raw]) == TextIn(blocks) + TextPart(raw)
    ensures ThinkingIn(blocks + [raw]) == ThinkingIn(blocks) + ThinkingPart(raw)
    ensures CallsIn(blocks + [raw]) == CallsIn(blocks) + CallPart(raw)
  {
    GatherSnoc(TextPart, blocks, raw);
    GatherSnoc(ThinkingPart, blocks, raw);
    GatherSnoc(CallPart, blocks, raw);
  }

  lemma PieceAgrees(d: Draft, g: Gist, headText: nat, headThinking: nat, i: int, piece: Piece)
    requires Agrees(d, g, headText, headThinking) && !Assemble(d, BlockDelta(i, piece)).phase.Rejected?
    ensures Agrees(Assemble(d, BlockDelta(i, piece)), ReadPiece(g, piece), headText, headThinking)
  {
    if d.phase.Building? {
      LastBlock(d.closed, d.open.value);
      LastBlock(d.closed, Grown(d.open.value, piece).value);
    }
  }

  lemma StartAgrees(d: Draft, g: Gist, headText: nat, headThinking: nat, i: int, head: BlockHead)
    requires Agrees(d, g, headText, headThinking) && !Assemble(d, BlockStart(i, head)).phase.Rejected?
    ensures Agrees(Assemble(d, BlockStart(i, head)), ReadEvent(g, BlockStart(i, head)),
                   headText + HeadTextOf(BlockStart(i, head)), headThinking + HeadThinkingOf(BlockStart(i, head)))
  {
    if d.phase.Building? {
      LastBlock(d.closed, RawOf(head).value);
    }
  }

  lemma AgreesStep(d: Draft, g: Gist, headText: nat, headThinking: nat, e: ClaudeEvent)
    requires Agrees(d, g, headText, headThinking) && !Assemble(d, e).phase.Rejected?
    ensures Agrees(Assemble(d, e), ReadEvent(g, e), headText + HeadTextOf(e), headThinking + HeadThinkingOf(e))
  {
    hide ReadPiece, Grown, RawOf, TextIn, ThinkingIn, CallsIn;
    if e.BlockDelta? {
      PieceAgrees(d, g, headText, headThinking, e.index, e.piece);
    } else if e.BlockStart? {
      StartAgrees(d, g, headText, headThinking, e.index, e.head);
    } else {
      assert ReadEvent(g, e).calls == g.calls;
    }
  }

  lemma {:induction false} DraftAgrees(events: seq<ClaudeEvent>)
    requires !Drafted(events).phase.Rejected?
    ensures Agrees(Drafted(events), ReadEvents(events), HeadText(events), HeadThinking(events))
  {
    if events != [] {
      var n := |events| - 1;
      assert !Drafted(events[..n]).phase.Rejected?;
      DraftAgrees(events[..n]);
      AgreesStep(Drafted(events[..n]), ReadEvents(events[..n]), HeadText(events[..n]), HeadThinking(events[..n]),
                 events[n]);
    }
  }
}
