/** Who speaks in a translated stream, id, model and role, and that both machines say everything once and no more. */
module StreamIdentity {
  import opened Wire
  import opened Folds
  import opened ToClaude
  import opened Meaning
  import ToOpenai
  import ToOpenaiMeaning

  // ---- OpenAI to Claude ----

  predicate HasChoice(line: Line) { line.Data? && line.chunk.choice.Some? }

  /** Some line has brought a choice. */
  predicate Opening(lines: seq<Line>) { exists line <- lines :: HasChoice(line) }

  /** The last id read before the first choice, or with it. */
  function IdRead(lines: seq<Line>): string {
    if lines == [] then ""
    else
      var before, line := lines[..|lines| - 1], lines[|lines| - 1];
      if !Opening(before) && line.Data? && line.chunk.id.Some? then line.chunk.id.value else IdRead(before)
  }

  function ModelRead(lines: seq<Line>): string {
    if lines == [] then ""
    else
      var before, line := lines[..|lines| - 1], lines[|lines| - 1];
      if !Opening(before) && line.Data? && line.chunk.model.Some? then line.chunk.model.value else ModelRead(before)
  }

  /** What is known of the message when it starts, told once and first. */
  ghost predicate Introduced(o: Out, lines: seq<Line>) {
    && (o.state.started <==> Opening(lines))
    && o.state.messageId == IdRead(lines) && o.state.model == ModelRead(lines)
    && (if Opening(lines)
        then [MessageStart(Some(IdRead(lines)), Some(ModelRead(lines)), Some(0))] <= o.events
        else o.events == [] && o.state.block.None? && !o.state.finished)
  }

  /** Nothing but more events, blocks and terminal state. */
  ghost predicate SameIdentity(o: Out, o': Out) {
    && o.events <= o'.events && o'.state.messageId == o.state.messageId && o'.state.model == o.state.model
    && (o.state.started <==> o'.state.started)
  }

  lemma ToolSame(o: Out, td: ToolDelta)
    ensures SameIdentity(o, OnTool(o, td))
  {
  }

  lemma {:induction false} ToolsSame(o: Out, tds: seq<ToolDelta>)
    ensures SameIdentity(o, OnTools(o, tds))
  {
    if tds != [] {
      hide OnTool;
      var n := |tds| - 1;
      ToolsSame(o, tds[..n]);
      ToolSame(OnTools(o, tds[..n]), tds[n]);
    }
  }

  lemma ProseSame(o: Out, text: string)
    ensures SameIdentity(o, OnReasoning(o, text)) && SameIdentity(o, OnText(o, text))
  {
  }

  lemma DeltaSame(o: Out, d: Delta)
    ensures SameIdentity(o, OnDelta(o, d))
  {
    hide OnReasoning, OnText, OnTools;
    var r := OnReasoning(o, d.Reasoning());
    ProseSame(o, d.Reasoning());
    ToolsSame(r, d.toolCalls);
    ProseSame(OnTools(r, d.toolCalls), d.content);
  }

  lemma FinishSame(o: Out, fr: Option<string>)
    ensures SameIdentity(o, OnFinish(o, fr)) && SameIdentity(o, Flushed(o))
  {
  }

  lemma OpeningSnoc(before: seq<Line>, line: Line)
    ensures Opening(before + [line]) <==> Opening(before) || HasChoice(line)
    ensures var counts := !Opening(before) && line.Data?;
            && IdRead(before + [line]) == (if counts then line.chunk.id.GetOr(IdRead(before)) else IdRead(before))
            && ModelRead(before + [line])
               == (if counts then line.chunk.model.GetOr(ModelRead(before)) else ModelRead(before))
  {
    var all := before + [line];
    assert all[..|before|] == before && all[|before|] == line;
    if Opening(before) {
      var l :| l in before && HasChoice(l);
      assert l in all;
    }
    assert line in all;
  }

  lemma LineIntroduces(o: Out, before: seq<Line>, line: Line)
    requires Introduced(o, before)
    ensures Introduced(OnLine(o, line), before + [line])
  {
    OpeningSnoc(before, line);
    hide OnDelta, OnFinish, Opening, IdRead, ModelRead, Stopping;
    var n := if line.Done? then o else o.(state := Noted(o.state, line.chunk));
    FinishSame(n, None);
    if HasChoice(line) {
      var choice := line.chunk.choice.value;
      DeltaSame(Begun(n), choice.delta);
      FinishSame(OnDelta(Begun(n), choice.delta), choice.finishReason);
    }
  }

  /** In every run message_start comes exactly when the first choice has, first, and with the latest id and model read
      by then. */
  lemma {:induction false} RunIntroduced(lines: seq<Line>)
    ensures Introduced(Run(lines), lines)
  {
    if lines == [] {
      assert Run(lines) == START;
    } else {
      var n := |lines| - 1;
      assert lines == lines[..n] + [lines[n]];
      RunIntroduced(lines[..n]);
      hide Introduced, OnLine;
      LineIntroduces(Run(lines[..n]), lines[..n], lines[n]);
    }
  }

  // ---- every piece once ----

  function IsDelta(): ClaudeEvent -> int { (e: ClaudeEvent) => if e.BlockDelta? then 1 else 0 }

  function Sent(o: Out): int { Total(IsDelta(), o.events) }

  function Arguments(): ToolDelta -> int { (td: ToolDelta) => if td.arguments == "" then 0 else 1 }

  /** The pieces of a line that are not empty: reasoning, the arguments of each tool delta, text. */
  function Pieces(): Line -> int {
    (line: Line) =>
      if !HasChoice(line) then 0
      else
        var d := line.chunk.choice.value.delta;
        (if ReasoningIn(d) == "" then 0 else 1) + Total(Arguments(), d.toolCalls) + (if d.content == "" then 0 else 1)
  }

  lemma Emits(o: Out, e: ClaudeEvent)
    ensures Sent(o.Emit(e)) == Sent(o) + IsDelta()(e)
  {
    TotalSnoc(IsDelta(), o.events, e);
  }

  lemma OpenedSends(o: Out, kind: BlockKind, head: BlockHead)
    ensures Sent(Closed(o)) == Sent(o) && Sent(Opened(o, kind, head)) == Sent(o)
  {
    hide Sent;
    SentIsRead(o, Closed(o));
    Emits(o, BlockStop(o.state.blockIndex));
    SentIsRead(Closed(o), Opened(o, kind, head));
    Emits(Closed(o), BlockStart(Closed(o).state.blockIndex, head));
    SentIsRead(o.Emit(BlockStop(o.state.blockIndex)), Closed(o));
    SentIsRead(Closed(o).Emit(BlockStart(Closed(o).state.blockIndex, head)), Opened(o, kind, head));
  }

  lemma SentIsRead(o: Out, o': Out)
    ensures o.events == o'.events ==> Sent(o) == Sent(o')
  {
  }

  lemma PieceSends(o: Out, p: Piece)
    ensures Sent(Piecewise(o, p)) == Sent(o) + 1
  {
    Emits(o, BlockDelta(o.state.blockIndex, p));
  }

  lemma ProseSends(o: Out, text: string)
    ensures Sent(OnReasoning(o, text)) == Sent(o) + (if text == "" then 0 else 1)
    ensures Sent(OnText(o, text)) == Sent(o) + (if text == "" then 0 else 1)
  {
    hide Sent, Opened, Piecewise;
    OpenedSends(o, ThinkingKind, ThinkingHead(""));
    OpenedSends(o, TextKind, TextHead(""));
    PieceSends(if o.state.block == Some(ThinkingKind) then o else Opened(o, ThinkingKind, ThinkingHead("")),
               ThinkingPiece(text));
    PieceSends(if o.state.block == Some(TextKind) then o else Opened(o, TextKind, TextHead("")), TextPiece(text));
  }

  lemma ToolSends(o: Out, td: ToolDelta)
    ensures Sent(OnTool(o, td)) == Sent(o) + Arguments()(td)
  {
    hide Sent, Opened, Piecewise;
    OpenedSends(o, ToolKind, ToolHead(td.id, td.name));
    SentIsRead(Opened(o, ToolKind, ToolHead(td.id, td.name)), ToolOpened(o, td));
    PieceSends(if ToolIndex(td) == o.state.oaiTool then o else ToolOpened(o, td), InputPiece(td.arguments));
  }

  lemma {:induction false} ToolsSend(o: Out, tds: seq<ToolDelta>)
    ensures Sent(OnTools(o, tds)) == Sent(o) + Total(Arguments(), tds)
  {
    if tds != [] {
      hide OnTool, Sent;
      var n := |tds| - 1;
      ToolsSend(o, tds[..n]);
      ToolSends(OnTools(o, tds[..n]), tds[n]);
    }
  }

  lemma FinishSends(o: Out, fr: Option<string>)
    ensures Sent(OnFinish(o, fr)) == Sent(o) && Sent(Flushed(o)) == Sent(o)
  {
    hide Sent;
    StoppingSends(o);
    if fr.Some? {
      OpenedSends(o, TextKind, TextHead(""));
      var c := Closed(o);
      var d := c.(state := c.state.(finished := true, stopReason := Some(StopReasonOf(fr.value))));
      SentIsRead(c, d);
      StoppingSends(d);
    }
  }

  lemma StoppingSends(o: Out)
    ensures Sent(Stopping(o)) == Sent(o)
  {
    var tokens := if o.state.usage.Some? then o.state.usage.value.completion else 0;
    var stop := MessageDelta(Some(o.state.stopReason.GetOr("end_turn")), Some(tokens));
    Emits(o, stop);
    Emits(o.Emit(stop), MessageStop);
    hide Total;
  }

  lemma LineSends(o: Out, line: Line)
    ensures Sent(OnLine(o, line)) == Sent(o) + Pieces()(line)
  {
    hide OnReasoning, OnTools, OnText, OnFinish, Sent;
    var n := if line.Done? then o else o.(state := Noted(o.state, line.chunk));
    SentIsRead(o, n);
    FinishSends(n, None);
    if HasChoice(line) {
      var d := line.chunk.choice.value.delta;
      var b := Begun(n);
      Emits(n, MessageStart(Some(n.state.messageId), Some(n.state.model), Some(0)));
      SentIsRead(n.Emit(MessageStart(Some(n.state.messageId), Some(n.state.model), Some(0))), b);
      var r := OnReasoning(b, d.Reasoning());
      ProseSends(b, d.Reasoning());
      ToolsSend(r, d.toolCalls);
      ProseSends(OnTools(r, d.toolCalls), d.content);
      FinishSends(OnDelta(b, d), line.chunk.choice.value.finishReason);
    }
  }

  /** In every run as many deltas are sent as there were pieces that are not empty: none twice and none empty. */
  lemma {:induction false} PiecesSentOnce(lines: seq<Line>)
    ensures Total(IsDelta(), Run(lines).events) == Total(Pieces(), lines)
  {
    if lines == [] {
      assert Run(lines) == START;
    } else {
      hide OnLine, Pieces;
      var n := |lines| - 1;
      PiecesSentOnce(lines[..n]);
      LineSends(Run(lines[..n]), lines[n]);
    }
  }

  // ---- Claude to OpenAI ----

  function LatestId(events: seq<ClaudeEvent>): string {
    if events == [] then ""
    else
      match events[|events| - 1]
      case MessageStart(Some(id), _, _) => id
      case _ => LatestId(events[..|events| - 1])
  }

  function LatestModel(events: seq<ClaudeEvent>): string {
    if events == [] then ""
    else
      match events[|events| - 1]
      case MessageStart(_, Some(model), _) => model
      case _ => LatestModel(events[..|events| - 1])
  }

  /** The line, unless it is [DONE], carries this identity. */
  predicate Signed(line: Line, id: string, model: string) {
    line.Data? ==> line.chunk.id == Some(id) && line.chunk.model == Some(model)
  }

  predicate IsRole(line: Line) { HasChoice(line) && line.chunk.choice.value.delta.role }

  /** Text, reasoning or tool calls in a line. */
  predicate Says(line: Line) {
    HasChoice(line) &&
    var d := line.chunk.choice.value.delta;
    d.content != "" || d.reasoningContent.Some? || d.reasoning.Some? || d.toolCalls != []
  }

  /** The event begins to speak for the assistant. */
  predicate Speaks(e: ClaudeEvent) {
    match e
    case BlockStart(_, head) => head.TextHead? || head.ToolHead?
    case BlockDelta(_, piece) => piece.TextPiece? || piece.ThinkingPiece?
    case _ => false
  }

  /** A listener that waits for the role before anything is said, and for only one. */
  datatype Cue = Silent | Announced | Muddled

  function Hear(c: Cue, line: Line): Cue {
    if IsRole(line) then if c.Silent? then Announced else Muddled
    else if Says(line) && c.Silent? then Muddled
    else c
  }

  function HearAll(lines: seq<Line>): Cue { Fold(Hear, Silent, lines) }

  lemma Heard(o: ToOpenai.Out, d: Delta)
    ensures HearAll(o.EmitDelta(d).lines)
         == Hear(HearAll(o.lines), Data(Chunk(None, None, None, Some(Choice(d, None)))))
  {
    FoldSnoc(Hear, Silent, o.lines, o.EmitDelta(d).lines[|o.lines|]);
  }

  ghost predicate Cued(o: ToOpenai.Out) {
    HearAll(o.lines) == (if o.state.started then Announced else Silent) && (o.state.oaiTool.Some? ==> o.state.started)
  }

  lemma BegunCued(o: ToOpenai.Out)
    requires Cued(o)
    ensures Cued(ToOpenai.Begun(o)) && ToOpenai.Begun(o).state == o.state.(started := true)
  {
    hide HearAll;
    Heard(o, NO_DELTA.(role := true));
  }

  lemma EventCued(o: ToOpenai.Out, e: ClaudeEvent)
    requires Cued(o)
    ensures var next := ToOpenai.OnEvent(o, e);
            Cued(next) && (next.state.started <==> o.state.started || Speaks(e))
  {
    hide HearAll, ToOpenai.OnMessageStop;
    match e {
      case BlockStart(index, head) =>
        var n := o.(state := o.state.(blockIndex := AsI32(index)));
        BegunCued(n);
        if head.ToolHead? {
          var b := ToOpenai.Begun(n);
          Heard(b, NO_DELTA.(toolCalls := [ToolDelta(Some(b.state.toolCallIndex), head.id, head.name, "")]));
        }
      case BlockDelta(_, TextPiece(t)) =>
        BegunCued(o);
        Heard(ToOpenai.Begun(o), NO_DELTA.(content := t));
      case BlockDelta(_, ThinkingPiece(t)) =>
        BegunCued(o);
        Heard(ToOpenai.Begun(o), NO_DELTA.(reasoningContent := Some(t)));
      case BlockDelta(_, InputPiece(p)) =>
        Heard(o, NO_DELTA.(toolCalls := [ToolDelta(o.state.oaiTool, "", "", p)]));
      case MessageStop => StopCued(o);
      case _ =>
    }
  }

  lemma StopCued(o: ToOpenai.Out)
    ensures HearAll(ToOpenai.OnMessageStop(o).lines) == HearAll(o.lines)
    ensures ToOpenai.OnMessageStop(o).state == o.state
  {
    var s := o.state;
    var f := o.Emit(Chunk(Some(s.messageId), Some(s.model), None,
                          Some(Choice(NO_DELTA, Some(FinishReasonOf(s.stopReason.GetOr("end_turn")))))));
    var u := f.Emit(Chunk(Some(s.messageId), Some(s.model), Some(Usage(s.inputTokens, s.outputTokens)), None));
    FoldSnoc(Hear, Silent, o.lines, f.lines[|o.lines|]);
    FoldSnoc(Hear, Silent, f.lines, u.lines[|f.lines|]);
    FoldSnoc(Hear, Silent, f.lines, Done);
    FoldSnoc(Hear, Silent, u.lines, Done);
  }

  predicate Spoken(events: seq<ClaudeEvent>) { exists e <- events :: Speaks(e) }

  lemma {:induction false} RunCued(events: seq<ClaudeEvent>)
    ensures Cued(ToOpenai.Run(events)) && (ToOpenai.Run(events).state.started <==> Spoken(events))
  {
    if events != [] {
      hide ToOpenai.OnEvent, HearAll, Speaks;
      var n := |events| - 1;
      RunCued(events[..n]);
      EventCued(ToOpenai.Run(events[..n]), events[n]);
      assert events == events[..n] + [events[n]];
    }
  }

  /** In every run the role is announced exactly once if any event speaks for the assistant, otherwise never, and
      nothing is said before it. */
  lemma RoleComesOnce(events: seq<ClaudeEvent>)
    ensures HearAll(ToOpenai.Run(events).lines) == if Spoken(events) then Announced else Silent
  {
    RunCued(events);
  }

  /** What an event adds carries the identity known by then. */
  lemma EventSigned(o: ToOpenai.Out, e: ClaudeEvent)
    ensures var next := ToOpenai.OnEvent(o, e);
            && o.lines <= next.lines
            && forall line <- next.lines[|o.lines|..] :: Signed(line, next.state.messageId, next.state.model)
  {
  }

  lemma {:induction false} RunIdentified(events: seq<ClaudeEvent>)
    ensures var s := ToOpenai.Run(events).state;
            s.messageId == LatestId(events) && s.model == LatestModel(events)
  {
    if events != [] {
      RunIdentified(events[..|events| - 1]);
    }
  }

  /** In every run each line is signed with the latest id and model its event, or any before it, brought. */
  lemma LinesSigned(events: seq<ClaudeEvent>, e: ClaudeEvent)
    ensures var before, after := ToOpenai.Run(events).lines, ToOpenai.Run(events + [e]).lines;
            && before <= after
            && forall line <- after[|before|..] :: Signed(line, LatestId(events + [e]), LatestModel(events + [e]))
  {
    FoldSnoc(ToOpenai.OnEvent, ToOpenai.START, events, e);
    EventSigned(ToOpenai.Run(events), e);
    RunIdentified(events + [e]);
    hide ToOpenai.OnEvent, LatestId, LatestModel, Signed;
  }

  // ---- nothing else ----

  predicate Called(events: seq<ClaudeEvent>) { exists e <- events :: e.BlockStart? && e.head.ToolHead? }

  /** How many lines an event is worth beside the role, after these. */
  function Worth(events: seq<ClaudeEvent>, e: ClaudeEvent): nat {
    match e
    case BlockStart(_, ToolHead(_, _)) => 1
    case BlockDelta(_, TextPiece(_)) => 1
    case BlockDelta(_, ThinkingPiece(t)) => if t == "" then 0 else 1
    case BlockDelta(_, InputPiece(_)) => if Called(events) then 1 else 0
    case MessageStop => if ReadEvents(events).input > 0 || ReadEvents(events).output > 0 then 3 else 2
    case _ => 0
  }

  lemma EventWorth(o: ToOpenai.Out, events: seq<ClaudeEvent>, e: ClaudeEvent)
    requires o.state.started <==> Spoken(events)
    requires o.state.oaiTool.Some? <==> Called(events)
    requires o.state.inputTokens == ReadEvents(events).input && o.state.outputTokens == ReadEvents(events).output
    ensures |ToOpenai.OnEvent(o, e).lines|
         == |o.lines| + Worth(events, e) + if Speaks(e) && !Spoken(events) then 1 else 0
  {
    hide ReadEvents, Spoken, Called;
  }

  lemma {:induction false} RunCalled(events: seq<ClaudeEvent>)
    ensures ReadEvents(events).calls == [] <==> !Called(events)
  {
    if events != [] {
      var n := |events| - 1;
      RunCalled(events[..n]);
      assert events == events[..n] + [events[n]];
    }
  }

  /** In every run each event adds exactly the lines it is worth, and the role where it is due: pings, signatures, block
      ends and unknown events send nothing. */
  lemma NothingElseIsSent(events: seq<ClaudeEvent>, e: ClaudeEvent)
    ensures |ToOpenai.Run(events + [e]).lines|
         == |ToOpenai.Run(events).lines| + Worth(events, e) + if Speaks(e) && !Spoken(events) then 1 else 0
  {
    FoldSnoc(ToOpenai.OnEvent, ToOpenai.START, events, e);
    RunCued(events);
    RunCalled(events);
    ToOpenaiMeaning.StreamKeepsMeaning(events);
    EventWorth(ToOpenai.Run(events), events, e);
    hide ToOpenai.OnEvent, ReadEvents, Spoken, Called, Worth, Speaks;
  }
}
