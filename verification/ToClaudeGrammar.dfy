/** The blocks emitted by the OpenAI-to-Claude machine obey the Claude event grammar on every run.  Where the terminal
    events come is the subject of `ToClaudeEnding`. */
module ToClaudeGrammar {
  import opened Wire
  import opened Folds
  import opened Meaning
  import opened ToClaude

  /** A reader that only checks the order and indices of blocks (and that message_start carries no usage yet); it lets
      terminal events pass anywhere.  `stray` records whether a tool-input delta was ever read outside an open
      tool_use block. */
  datatype Reader = Fresh | Reading(index: nat, open: Option<BlockKind>, stray: bool) | Broken

  /** The kind of block a well-formed, empty head opens. */
  function OpenedKind(head: BlockHead): Option<BlockKind> {
    match head
    case TextHead(t) => if t == "" then Some(TextKind) else None
    case ThinkingHead(t) => if t == "" then Some(ThinkingKind) else None
    case ToolHead(_, _) => Some(ToolKind)
    case OtherHead => None
  }

  function Check(r: Reader, e: ClaudeEvent): Reader {
    match r
    case Fresh => if e.MessageStart? && e.inputTokens == Some(0) then Reading(0, None, false) else Broken
    case Broken => Broken
    case Reading(index, open, stray) =>
      match e
      case BlockStart(i, head) =>
        if i == index && open.None? && OpenedKind(head).Some? then Reading(index, OpenedKind(head), stray) else Broken
      case BlockDelta(i, TextPiece(_)) => if i == index && open == Some(TextKind) then r else Broken
      case BlockDelta(i, ThinkingPiece(_)) => if i == index && open == Some(ThinkingKind) then r else Broken
      case BlockDelta(i, InputPiece(_)) =>
        if i == index then Reading(index, open, stray || open != Some(ToolKind)) else Broken
      case BlockStop(i) => if i == index && open.Some? then Reading(index + 1, None, stray) else Broken
      case MessageDelta(_, _) => r
      case MessageStop => r
      case _ => Broken
  }

  function CheckAll(events: seq<ClaudeEvent>): Reader { Fold(Check, Fresh, events) }

  /** A look at the input alone: the index of the latest tool call (-1 at first), whether nothing but
      its own deltas has come since, and whether non-empty arguments ever came for it later than that. */
  datatype Cursor = Cursor(tool: int, live: bool, resumed: bool) {
    function Interrupted(): Cursor { this.(live := false) }
  }

  const AT_START := Cursor(-1, false, false)

  function PassTool(c: Cursor, td: ToolDelta): Cursor {
    var c := if ToolIndex(td) == c.tool then c else c.(tool := ToolIndex(td), live := true);
    if td.arguments != "" && !c.live then c.(resumed := true) else c
  }

  function PassDelta(c: Cursor, d: Delta): Cursor {
    var c := Fold(PassTool, if ReasoningIn(d) == "" then c else c.Interrupted(), d.toolCalls);
    if d.content == "" then c else c.Interrupted()
  }

  function PassLine(c: Cursor, line: Line): Cursor {
    if line.Done? || line.chunk.choice.None? then c
    else
      var choice := line.chunk.choice.value;
      var p := PassDelta(c, choice.delta);
      if choice.finishReason.None? then p else p.Interrupted()
  }

  function Pass(lines: seq<Line>): Cursor { Fold(PassLine, AT_START, lines) }

  /** What the reader has reached where the machine stands. */
  ghost function Reached(o: Out, stray: bool): Reader {
    if !o.state.started then Fresh
    else if o.state.blockIndex < 0 then Broken
    else Reading(o.state.blockIndex, o.state.block, stray)
  }

  ghost predicate InGrammar(o: Out, c: Cursor) {
    && c == Cursor(o.state.oaiTool, o.state.block == Some(ToolKind), c.resumed)
    && CheckAll(o.events) == Reached(o, c.resumed) != Broken
    && (!o.state.started ==> (o, c) == (Unsaid(o.state), AT_START))
  }

  /** Nothing has happened but that identity and usage may have been noted. */
  function Unsaid(s: State): Out {
    Out(INITIAL.(messageId := s.messageId, model := s.model, usage := s.usage), [])
  }

  ghost predicate Started(o: Out, c: Cursor) { InGrammar(o, c) && o.state.started }

  lemma Emitted(o: Out, e: ClaudeEvent)
    ensures CheckAll(o.Emit(e).events) == Check(CheckAll(o.events), e)
  {
    FoldSnoc(Check, Fresh, o.events, e);
  }

  lemma ClosedInGrammar(o: Out, c: Cursor)
    requires Started(o, c)
    ensures Started(Closed(o), c.Interrupted()) && Closed(o).state.block.None?
  {
    hide CheckAll;
    Emitted(o, BlockStop(o.state.blockIndex));
  }

  lemma OpenedInGrammar(o: Out, c: Cursor, kind: BlockKind, head: BlockHead)
    requires Started(o, c) && OpenedKind(head) == Some(kind)
    ensures Started(Opened(o, kind, head), c.(live := kind.ToolKind?))
  {
    hide CheckAll;
    ClosedInGrammar(o, c);
    Emitted(Closed(o), BlockStart(Closed(o).state.blockIndex, head));
  }

  lemma ReasoningInGrammar(o: Out, c: Cursor, text: string)
    requires Started(o, c)
    ensures Started(OnReasoning(o, text), if text == "" then c else c.Interrupted())
  {
    hide CheckAll;
    OpenedInGrammar(o, c, ThinkingKind, ThinkingHead(""));
    var b := if o.state.block == Some(ThinkingKind) then o else Opened(o, ThinkingKind, ThinkingHead(""));
    Emitted(b, BlockDelta(b.state.blockIndex, ThinkingPiece(text)));
  }

  lemma TextInGrammar(o: Out, c: Cursor, text: string)
    requires Started(o, c)
    ensures Started(OnText(o, text), if text == "" then c else c.Interrupted())
  {
    hide CheckAll;
    OpenedInGrammar(o, c, TextKind, TextHead(""));
    var b := if o.state.block == Some(TextKind) then o else Opened(o, TextKind, TextHead(""));
    Emitted(b, BlockDelta(b.state.blockIndex, TextPiece(text)));
  }

  lemma ToolInGrammar(o: Out, c: Cursor, td: ToolDelta)
    requires Started(o, c)
    ensures Started(OnTool(o, td), PassTool(c, td))
  {
    hide CheckAll;
    OpenedInGrammar(o, c, ToolKind, ToolHead(td.id, td.name));
    var b := if ToolIndex(td) == o.state.oaiTool then o else ToolOpened(o, td);
    Emitted(b, BlockDelta(b.state.blockIndex, InputPiece(td.arguments)));
  }

  lemma {:induction false} ToolsInGrammar(o: Out, c: Cursor, tds: seq<ToolDelta>)
    requires Started(o, c)
    ensures Started(OnTools(o, tds), Fold(PassTool, c, tds))
  {
    if tds != [] {
      var n := |tds| - 1;
      ToolsInGrammar(o, c, tds[..n]);
      ToolInGrammar(OnTools(o, tds[..n]), Fold(PassTool, c, tds[..n]), tds[n]);
    }
  }

  lemma DeltaInGrammar(o: Out, c: Cursor, d: Delta)
    requires Started(o, c)
    ensures Started(OnDelta(o, d), PassDelta(c, d))
  {
    hide OnReasoning, OnText, Started;
    ReasoningInGrammar(o, c, ReasoningIn(d));
    var c1 := if ReasoningIn(d) == "" then c else c.Interrupted();
    var o1 := OnReasoning(o, ReasoningIn(d));
    ToolsInGrammar(o1, c1, d.toolCalls);
    TextInGrammar(OnTools(o1, d.toolCalls), Fold(PassTool, c1, d.toolCalls), d.content);
  }

  lemma StoppingInGrammar(o: Out, c: Cursor)
    requires Started(o, c)
    ensures Started(Stopping(o), c)
  {
    hide CheckAll;
    var tokens := if o.state.usage.Some? then o.state.usage.value.completion else 0;
    var stop := MessageDelta(Some(o.state.stopReason.GetOr("end_turn")), Some(tokens));
    Emitted(o, stop);
    Emitted(o.Emit(stop), MessageStop);
  }

  lemma FinishInGrammar(o: Out, c: Cursor, fr: Option<string>)
    requires Started(o, c)
    ensures Started(OnFinish(o, fr), if fr.None? then c else c.Interrupted())
  {
    hide CheckAll;
    if fr.Some? {
      ClosedInGrammar(o, c);
      var d := Closed(o);
      StoppingInGrammar(d.(state := d.state.(finished := true, stopReason := Some(StopReasonOf(fr.value)))),
                        c.Interrupted());
    }
  }

  lemma BegunInGrammar(o: Out, c: Cursor)
    requires InGrammar(o, c)
    ensures Started(Begun(o), c)
  {
    Emitted(o, MessageStart(Some(o.state.messageId), Some(o.state.model), Some(0)));
  }

  lemma NotedInGrammar(o: Out, c: Cursor, chunk: Chunk)
    requires InGrammar(o, c)
    ensures InGrammar(o.(state := Noted(o.state, chunk)), c)
  {
  }

  lemma LineInGrammar(o: Out, c: Cursor, line: Line)
    requires InGrammar(o, c)
    ensures InGrammar(OnLine(o, line), PassLine(c, line))
  {
    hide OnDelta, OnFinish, Begun, Stopping, PassDelta, CheckAll;
    var n := if line.Done? then o else o.(state := Noted(o.state, line.chunk));
    assert InGrammar(n, c);
    if n.state.finished {
      StoppingInGrammar(n, c);
    }
    if line.Data? && line.chunk.choice.Some? {
      var choice := line.chunk.choice.value;
      BegunInGrammar(n, c);
      DeltaInGrammar(Begun(n), c, choice.delta);
      FinishInGrammar(OnDelta(Begun(n), choice.delta), PassDelta(c, choice.delta), choice.finishReason);
    }
  }

  lemma {:induction false} RunInGrammar(lines: seq<Line>)
    ensures InGrammar(Run(lines), Pass(lines))
  {
    if lines != [] {
      hide InGrammar, OnLine, PassLine;
      var n := |lines| - 1;
      RunInGrammar(lines[..n]);
      LineInGrammar(Run(lines[..n]), Pass(lines[..n]), lines[n]);
    } else {
      assert Run(lines) == START && Pass(lines) == AT_START;
    }
  }

  /** On every run, whatever the chunks: message_start comes once and first, with zero usage, block starts (of
      empty blocks) and stops alternate with indices 0, 1, 2, …, and text and thinking deltas lie in an open
      block of their own kind, under its index.  Tool-input deltas do too exactly when no arguments came for
      a tool call that other content had already interrupted. */
  lemma EveryRunIsGrammatical(lines: seq<Line>)
    ensures var r := CheckAll(Run(lines).events);
            && !r.Broken?
            && (r.Fresh? <==> Run(lines).events == [])
            && (r.Reading? ==> (r.stray <==> Pass(lines).resumed))
  {
    RunInGrammar(lines);
  }

  function Saying(d: Delta): Line { Data(Chunk(None, None, None, Some(Choice(d, None)))) }

  lemma PassSaying(c: Cursor, d: Delta)
    requires |d.toolCalls| <= 1
    ensures d.toolCalls == [] ==> Fold(PassTool, c, d.toolCalls) == c
    ensures |d.toolCalls| == 1 ==> Fold(PassTool, c, d.toolCalls) == PassTool(c, d.toolCalls[0])
  {
    if |d.toolCalls| == 1 {
      FoldSnoc(PassTool, c, [], d.toolCalls[0]);
      assert [] + d.toolCalls == d.toolCalls;
    }
  }

  /** The exception is real: arguments for a tool call that text has interrupted land in the text block. */
  lemma ResumedToolIsStray(td: ToolDelta, text: string)
    requires td.index.Some? && 0 <= td.index.value < 0x8000_0000 && td.arguments != "" && text != ""
    ensures var tool, words := Saying(NO_DELTA.(toolCalls := [td])), Saying(NO_DELTA.(content := text));
            var r := CheckAll(Run([tool] + [words] + [tool]).events);
            r.Reading? && r.stray
  {
    var tool, words := NO_DELTA.(toolCalls := [td]), NO_DELTA.(content := text);
    FoldSnoc(PassLine, AT_START, [], Saying(tool));
    FoldSnoc(PassLine, AT_START, [Saying(tool)], Saying(words));
    FoldSnoc(PassLine, AT_START, [Saying(tool)] + [Saying(words)], Saying(tool));
    assert [] + [Saying(tool)] == [Saying(tool)];
    PassSaying(AT_START, tool);
    var c := Cursor(ToolIndex(td), true, false);
    assert Pass([Saying(tool)]) == c;
    PassSaying(c, words);
    assert Pass([Saying(tool)] + [Saying(words)]) == c.Interrupted();
    PassSaying(c.Interrupted(), tool);
    EveryRunIsGrammatical([Saying(tool)] + [Saying(words)] + [Saying(tool)]);
  }
}
