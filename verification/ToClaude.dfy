/** The streaming machine that turns OpenAI chunks into Claude events
    (`OpenaiToClaudeStreamState`): a specification on values, and the class that
    updates its fields in place. */
module ToClaude {
  import opened Wire
  import opened Folds

  datatype State = State(
    blockIndex: int,
    toolCallIndex: int,
    started: bool,
    usage: Option<Usage>,
    toolId: Option<string>,
    block: Option<BlockKind>,
    oaiTool: int,
    messageId: string,
    model: string,
    finished: bool,
    stopReason: Option<string>,
    stopped: bool)

  const INITIAL := State(0, 0, false, None, None, None, -1, "", "", false, None, false)

  /** The machine together with everything it has emitted so far. */
  datatype Out = Out(state: State, events: seq<ClaudeEvent>) {
    function Emit(e: ClaudeEvent): Out { this.(events := events + [e]) }
  }

  const START := Out(INITIAL, [])

  function Closed(o: Out): Out {
    if o.state.block.None? then o
    else o.Emit(BlockStop(o.state.blockIndex)).(state := o.state.(blockIndex := o.state.blockIndex + 1, block := None))
  }

  function Opened(o: Out, kind: BlockKind, head: BlockHead): Out {
    var c := Closed(o);
    c.Emit(BlockStart(c.state.blockIndex, head)).(state := c.state.(block := Some(kind)))
  }

  function Piecewise(o: Out, p: Piece): Out {
    o.Emit(BlockDelta(o.state.blockIndex, p))
  }

  function OnReasoning(o: Out, text: string): Out {
    if text == "" then o
    else Piecewise(if o.state.block == Some(ThinkingKind) then o else Opened(o, ThinkingKind, ThinkingHead("")),
                   ThinkingPiece(text))
  }

  function OnText(o: Out, text: string): Out {
    if text == "" then o
    else Piecewise(if o.state.block == Some(TextKind) then o else Opened(o, TextKind, TextHead("")),
                   TextPiece(text))
  }

  function ToolIndex(td: ToolDelta): int { AsI32(td.index.GetOr(0)) }

  function ToolOpened(o: Out, td: ToolDelta): Out {
    var c := Opened(o, ToolKind, ToolHead(td.id, td.name));
    c.(state := c.state.(oaiTool := ToolIndex(td), toolId := Some(td.id), toolCallIndex := c.state.toolCallIndex + 1))
  }

  function OnTool(o: Out, td: ToolDelta): Out {
    var c := if ToolIndex(td) == o.state.oaiTool then o else ToolOpened(o, td);
    if td.arguments == "" then c else Piecewise(c, InputPiece(td.arguments))
  }

  function OnTools(o: Out, tds: seq<ToolDelta>): Out { Fold(OnTool, o, tds) }

  /** `message_delta` with what is known by now, then `message_stop`. */
  function Stopping(o: Out): Out {
    var tokens := if o.state.usage.Some? then o.state.usage.value.completion else 0;
    o.Emit(MessageDelta(Some(o.state.stopReason.GetOr("end_turn")), Some(tokens))).Emit(MessageStop)
     .(state := o.state.(stopped := true))
  }

  /** The pending terminal events, if a finish reason was seen and they are still owed. */
  function Flushed(o: Out): Out {
    if o.state.finished && !o.state.stopped then Stopping(o) else o
  }

  function OnFinish(o: Out, fr: Option<string>): Out {
    if fr.None? then o
    else
      var c := Closed(o);
      var d := c.(state := c.state.(finished := true, stopReason := Some(StopReasonOf(fr.value))));
      if d.state.usage.Some? then Stopping(d) else d
  }

  /** Identity and usage fields, read before anything else in a chunk. */
  function Noted(s: State, c: Chunk): State {
    var s := if s.started then s
             else s.(messageId := c.id.GetOr(s.messageId), model := c.model.GetOr(s.model));
    if c.usage.Some? then s.(usage := c.usage) else s
  }

  function Begun(o: Out): Out {
    if o.state.started then o
    else o.Emit(MessageStart(Some(o.state.messageId), Some(o.state.model), Some(0)))
          .(state := o.state.(started := true, blockIndex := 0))
  }

  function OnDelta(o: Out, d: Delta): Out {
    OnText(OnTools(OnReasoning(o, d.Reasoning()), d.toolCalls), d.content)
  }

  function OnChunk(o: Out, c: Chunk): Out {
    var n := o.(state := Noted(o.state, c));
    if c.choice.None? then Flushed(n)
    else OnFinish(OnDelta(Begun(n), c.choice.value.delta), c.choice.value.finishReason)
  }

  function OnLine(o: Out, line: Line): Out {
    match line
    case Done => Flushed(o)
    case Data(c) => OnChunk(o, c)
  }

  /** A whole stream from the start. */
  function Run(lines: seq<Line>): Out { Fold(OnLine, START, lines) }

  class OpenaiToClaudeStream {
    var contentBlockIndex: int
    var toolCallIndex: int
    var started: bool
    var deferredUsage: Option<Usage>
    var currentToolId: Option<string>
    var currentBlockType: Option<BlockKind>
    var currentOaiToolIndex: int
    var messageId: string
    var model: string
    var finished: bool
    var deferredStopReason: Option<string>
    var messageStopped: bool
    /** Every line fed and every event returned so far. */
    ghost var fed: seq<Line>
    ghost var sent: seq<ClaudeEvent>

    ghost function View(): Out
      reads this
    {
      Out(State(contentBlockIndex, toolCallIndex, started, deferredUsage, currentToolId, currentBlockType,
                currentOaiToolIndex, messageId, model, finished, deferredStopReason, messageStopped), sent)
    }

    /** The fields, and all output so far, are those of the specification's run over all input so far. */
    ghost predicate Valid()
      reads this
    {
      View() == Run(fed)
    }

    constructor ()
      ensures Valid() && fed == [] && sent == []
    {
      contentBlockIndex, toolCallIndex, started, deferredUsage := 0, 0, false, None;
      currentToolId, currentBlockType, currentOaiToolIndex := None, None, -1;
      messageId, model, finished, deferredStopReason, messageStopped := "", "", false, None, false;
      fed, sent := [], [];
    }

    method ProcessChunk(lines: seq<Line>) returns (outputs: seq<ClaudeEvent>)
      requires Valid()
      modifies this
      ensures Valid()
      ensures fed == old(fed) + lines && sent == old(sent) + outputs
    {
      hide OnLine;
      outputs := [];
      for i := 0 to |lines|
        invariant Valid()
        invariant fed == old(fed) + lines[..i] && sent == old(sent) + outputs
      {
        FoldSnoc(OnLine, START, fed, lines[i]);
        var out := ProcessLine(lines[i]);
        outputs := outputs + out;
        fed := fed + [lines[i]];
        assert lines[..i + 1] == lines[..i] + [lines[i]];
      }
      assert lines[..|lines|] == lines;
    }

    method ProcessLine(line: Line) returns (out: seq<ClaudeEvent>)
      modifies this
      ensures View() == OnLine(old(View()), line)
      ensures fed == old(fed) && sent == old(sent) + out
    {
      out := [];
      match line {
        case Done =>
          if finished && !messageStopped {
            out := PushTerminal();
          }
        case Data(c) =>
          out := ProcessJson(c);
      }
    }

    method ProcessJson(c: Chunk) returns (out: seq<ClaudeEvent>)
      modifies this
      ensures View() == OnChunk(old(View()), c)
      ensures fed == old(fed) && sent == old(sent) + out
    {
      hide Noted, OnDelta, OnFinish, Stopping;
      out := [];
      NoteIdentityAndUsage(c);
      if c.choice.None? {
        if finished && !messageStopped {
          out := PushTerminal();
        }
        return;
      }
      if !started {
        out := [MessageStart(Some(messageId), Some(model), Some(0))];
        sent := sent + out;
        started := true;
        contentBlockIndex := 0;
      }
      var o := ProcessDelta(c.choice.value.delta);
      out := out + o;
      o := ProcessFinish(c.choice.value.finishReason);
      out := out + o;
    }

    method NoteIdentityAndUsage(c: Chunk)
      modifies this
      ensures View() == old(View()).(state := Noted(old(View()).state, c))
      ensures fed == old(fed) && sent == old(sent)
    {
      if !started {
        if c.id.Some? { messageId := c.id.value; }
        if c.model.Some? { model := c.model.value; }
      }
      if c.usage.Some? { deferredUsage := c.usage; }
    }

    method ProcessDelta(d: Delta) returns (out: seq<ClaudeEvent>)
      modifies this
      ensures View() == OnDelta(old(View()), d)
      ensures fed == old(fed) && sent == old(sent) + out
    {
      hide OnReasoning, OnTool, OnText;
      out := ProcessPiece(ThinkingKind, d.Reasoning());
      label tools:
      for i := 0 to |d.toolCalls|
        invariant View() == OnTools(old@tools(View()), d.toolCalls[..i])
        invariant fed == old(fed) && sent == old(sent) + out
      {
        FoldSnoc(OnTool, old@tools(View()), d.toolCalls[..i], d.toolCalls[i]);
        assert d.toolCalls[..i + 1] == d.toolCalls[..i] + [d.toolCalls[i]];
        var o := ProcessToolCall(d.toolCalls[i]);
        out := out + o;
      }
      assert d.toolCalls[..|d.toolCalls|] == d.toolCalls;
      var o := ProcessPiece(TextKind, d.content);
      out := out + o;
    }

    /** The two branches for plain content: reasoning into thinking blocks, text into text blocks. */
    method ProcessPiece(kind: BlockKind, text: string) returns (out: seq<ClaudeEvent>)
      requires kind.TextKind? || kind.ThinkingKind?
      modifies this
      ensures View() == if kind.TextKind? then OnText(old(View()), text) else OnReasoning(old(View()), text)
      ensures fed == old(fed) && sent == old(sent) + out
    {
      out := [];
      if text != "" {
        if currentBlockType != Some(kind) {
          out := CloseCurrentBlock();
          var o := Push(BlockStart(contentBlockIndex, if kind.TextKind? then TextHead("") else ThinkingHead("")));
          out := out + o;
          currentBlockType := Some(kind);
        }
        var o := Push(BlockDelta(contentBlockIndex, if kind.TextKind? then TextPiece(text) else ThinkingPiece(text)));
        out := out + o;
      }
    }

    method ProcessToolCall(td: ToolDelta) returns (out: seq<ClaudeEvent>)
      modifies this
      ensures View() == OnTool(old(View()), td)
      ensures fed == old(fed) && sent == old(sent) + out
    {
      out := [];
      var index := AsI32(td.index.GetOr(0));
      if index != currentOaiToolIndex {
        out := CloseCurrentBlock();
        var o := Push(BlockStart(contentBlockIndex, ToolHead(td.id, td.name)));
        out := out + o;
        currentOaiToolIndex := index;
        currentToolId := Some(td.id);
        toolCallIndex := toolCallIndex + 1;
        currentBlockType := Some(ToolKind);
      }
      if td.arguments != "" {
        var o := Push(BlockDelta(contentBlockIndex, InputPiece(td.arguments)));
        out := out + o;
      }
    }

    method ProcessFinish(fr: Option<string>) returns (out: seq<ClaudeEvent>)
      modifies this
      ensures View() == OnFinish(old(View()), fr)
      ensures fed == old(fed) && sent == old(sent) + out
    {
      out := [];
      if fr.Some? {
        out := CloseCurrentBlock();
        finished := true;
        deferredStopReason := Some(StopReasonOf(fr.value));
        if deferredUsage.Some? {
          var o := PushTerminal();
          out := out + o;
        }
      }
    }

    method CloseCurrentBlock() returns (out: seq<ClaudeEvent>)
      modifies this
      ensures View() == Closed(old(View()))
      ensures fed == old(fed) && sent == old(sent) + out
    {
      out := [];
      if currentBlockType.Some? {
        out := Push(BlockStop(contentBlockIndex));
        contentBlockIndex := contentBlockIndex + 1;
        currentBlockType := None;
      }
    }

    method PushTerminal() returns (out: seq<ClaudeEvent>)
      modifies this
      ensures View() == Stopping(old(View()))
      ensures fed == old(fed) && sent == old(sent) + out
    {
      var tokens := if deferredUsage.Some? then deferredUsage.value.completion else 0;
      out := Push(MessageDelta(Some(deferredStopReason.GetOr("end_turn")), Some(tokens)));
      var o := Push(MessageStop);
      out := out + o;
      messageStopped := true;
    }

    method Push(e: ClaudeEvent) returns (out: seq<ClaudeEvent>)
      modifies this`sent
      ensures out == [e] && View() == old(View()).Emit(e)
    {
      out := [e];
      sent := sent + out;
    }
  }
}
