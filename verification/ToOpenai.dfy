/** The streaming machine that turns Claude events into OpenAI chunks
    (`ClaudeToOpenaiStreamState`): a specification on values, and the class that
    updates its fields in place. */
module ToOpenai {
  import opened Wire
  import opened Folds

  datatype State = State(
    started: bool,
    blockType: Option<BlockKind>,
    blockIndex: int,
    toolCallIndex: int,
    usage: Option<Usage>,
    inputTokens: nat,
    stopReason: Option<string>,
    outputTokens: nat,
    oaiTool: Option<int>,
    messageId: string,
    model: string)

  const INITIAL := State(false, None, 0, 0, None, 0, None, 0, None, "", "")

  datatype Out = Out(state: State, lines: seq<Line>) {
    function Emit(c: Chunk): Out { this.(lines := lines + [Data(c)]) }

    /** A chunk that carries one delta. */
    function EmitDelta(d: Delta): Out {
      Emit(Chunk(Some(state.messageId), Some(state.model), None, Some(Choice(d, None))))
    }
  }

  const START := Out(INITIAL, [])

  function OnMessageStart(s: State, id: Option<string>, model: Option<string>, inputTokens: Option<nat>): State {
    s.(messageId := id.GetOr(s.messageId), model := model.GetOr(s.model),
       inputTokens := inputTokens.GetOr(s.inputTokens))
  }

  /** The chunk announcing the assistant role, sent once. */
  function Begun(o: Out): Out {
    if o.state.started then o else o.EmitDelta(NO_DELTA.(role := true)).(state := o.state.(started := true))
  }

  function OnHead(o: Out, index: int, head: BlockHead): Out {
    var n := o.(state := o.state.(blockIndex := AsI32(index)));
    match head
    case TextHead(_) =>
      var b := Begun(n);
      b.(state := b.state.(blockType := Some(TextKind)))
    case ToolHead(id, name) =>
      var b := Begun(n);
      var t := b.EmitDelta(NO_DELTA.(toolCalls := [ToolDelta(Some(b.state.toolCallIndex), id, name, "")]));
      t.(state := t.state.(oaiTool := Some(t.state.toolCallIndex), toolCallIndex := t.state.toolCallIndex + 1,
                           blockType := Some(ToolKind)))
    case _ => n
  }

  function OnPiece(o: Out, piece: Piece): Out {
    match piece
    case TextPiece(t) => Begun(o).EmitDelta(NO_DELTA.(content := t))
    case ThinkingPiece(t) =>
      if t == "" then Begun(o) else Begun(o).EmitDelta(NO_DELTA.(reasoningContent := Some(t)))
    case InputPiece(p) =>
      if o.state.oaiTool.None? then o
      else o.EmitDelta(NO_DELTA.(toolCalls := [ToolDelta(o.state.oaiTool, "", "", p)]))
    case _ => o
  }

  function OnMessageDelta(s: State, stopReason: Option<string>, outputTokens: Option<nat>): State {
    var s := if stopReason.Some? then s.(stopReason := stopReason) else s;
    if outputTokens.None? then s
    else s.(outputTokens := outputTokens.value, usage := Some(Usage(s.inputTokens, outputTokens.value)))
  }

  function OnMessageStop(o: Out): Out {
    var s := o.state;
    var f := o.Emit(Chunk(Some(s.messageId), Some(s.model), None,
                          Some(Choice(NO_DELTA, Some(FinishReasonOf(s.stopReason.GetOr("end_turn")))))));
    var u := if s.inputTokens > 0 || s.outputTokens > 0
             then f.Emit(Chunk(Some(s.messageId), Some(s.model), Some(Usage(s.inputTokens, s.outputTokens)), None))
             else f;
    u.(lines := u.lines + [Done])
  }

  function OnEvent(o: Out, e: ClaudeEvent): Out {
    match e
    case MessageStart(id, model, tokens) => o.(state := OnMessageStart(o.state, id, model, tokens))
    case BlockStart(index, head) => OnHead(o, index, head)
    case BlockDelta(_, piece) => OnPiece(o, piece)
    case MessageDelta(stopReason, tokens) => o.(state := OnMessageDelta(o.state, stopReason, tokens))
    case MessageStop => OnMessageStop(o)
    case _ => o
  }

  /** A whole stream from the start. */
  function Run(events: seq<ClaudeEvent>): Out { Fold(OnEvent, START, events) }

  class ClaudeToOpenaiStream {
    var started: bool
    var currentBlockType: Option<BlockKind>
    var currentBlockIndex: int
    var toolCallIndex: int
    var deferredUsage: Option<Usage>
    var inputTokens: nat
    var deferredStopReason: Option<string>
    var deferredOutputTokens: nat
    var currentOaiToolIndex: Option<int>
    var messageId: string
    var model: string
    /** Every event fed and every line returned so far. */
    ghost var fed: seq<ClaudeEvent>
    ghost var sent: seq<Line>

    ghost function View(): Out
      reads this
    {
      Out(State(started, currentBlockType, currentBlockIndex, toolCallIndex, deferredUsage, inputTokens,
                deferredStopReason, deferredOutputTokens, currentOaiToolIndex, messageId, model), sent)
    }

    ghost predicate Valid()
      reads this
    {
      View() == Run(fed)
    }

    constructor ()
      ensures Valid() && fed == [] && sent == []
    {
      started, currentBlockType, currentBlockIndex, toolCallIndex := false, None, 0, 0;
      deferredUsage, inputTokens, deferredStopReason, deferredOutputTokens := None, 0, None, 0;
      currentOaiToolIndex, messageId, model := None, "", "";
      fed, sent := [], [];
    }

    method ProcessEvent(e: ClaudeEvent) returns (out: seq<Line>)
      requires Valid()
      modifies this
      ensures Valid()
      ensures fed == old(fed) + [e] && sent == old(sent) + out
    {
      hide OnMessageStart, OnHead, OnPiece, OnMessageDelta, OnMessageStop, Fold;
      FoldSnoc(OnEvent, START, fed, e);
      out := [];
      match e {
        case MessageStart(id, m, tokens) =>
          ProcessMessageStart(id, m, tokens);
        case BlockStart(index, head) =>
          out := ProcessBlockStart(index, head);
        case BlockDelta(_, piece) =>
          out := ProcessBlockDelta(piece);
        case MessageDelta(stopReason, tokens) =>
          ProcessMessageDelta(stopReason, tokens);
        case MessageStop =>
          out := ProcessMessageStop();
        case _ =>
      }
      fed := fed + [e];
    }

    method ProcessMessageStart(id: Option<string>, m: Option<string>, tokens: Option<nat>)
      modifies this
      ensures View() == old(View()).(state := OnMessageStart(old(View()).state, id, m, tokens))
      ensures fed == old(fed)
    {
      if id.Some? { messageId := id.value; }
      if m.Some? { model := m.value; }
      if tokens.Some? { inputTokens := tokens.value; }
    }

    method ProcessMessageDelta(stopReason: Option<string>, tokens: Option<nat>)
      modifies this
      ensures View() == old(View()).(state := OnMessageDelta(old(View()).state, stopReason, tokens))
      ensures fed == old(fed)
    {
      if stopReason.Some? { deferredStopReason := stopReason; }
      if tokens.Some? {
        deferredOutputTokens := tokens.value;
        deferredUsage := Some(Usage(inputTokens, tokens.value));
      }
    }

    method ProcessBlockStart(index: int, head: BlockHead) returns (out: seq<Line>)
      modifies this
      ensures View() == OnHead(old(View()), index, head)
      ensures fed == old(fed) && sent == old(sent) + out
    {
      out := [];
      currentBlockIndex := AsI32(index);
      match head {
        case TextHead(_) =>
          out := PushRoleOnce();
          currentBlockType := Some(TextKind);
        case ToolHead(id, name) =>
          out := PushRoleOnce();
          var o := PushDelta(NO_DELTA.(toolCalls := [ToolDelta(Some(toolCallIndex), id, name, "")]));
          out := out + o;
          currentOaiToolIndex := Some(toolCallIndex);
          toolCallIndex := toolCallIndex + 1;
          currentBlockType := Some(ToolKind);
        case _ =>
      }
    }

    method ProcessBlockDelta(piece: Piece) returns (out: seq<Line>)
      modifies this
      ensures View() == OnPiece(old(View()), piece)
      ensures fed == old(fed) && sent == old(sent) + out
    {
      out := [];
      match piece {
        case TextPiece(t) =>
          out := PushRoleOnce();
          var o := PushDelta(NO_DELTA.(content := t));
          out := out + o;
        case ThinkingPiece(t) =>
          out := PushRoleOnce();
          if t != "" {
            var o := PushDelta(NO_DELTA.(reasoningContent := Some(t)));
            out := out + o;
          }
        case InputPiece(p) =>
          if currentOaiToolIndex.Some? {
            out := PushDelta(NO_DELTA.(toolCalls := [ToolDelta(currentOaiToolIndex, "", "", p)]));
          }
        case _ =>
      }
    }

    method ProcessMessageStop() returns (out: seq<Line>)
      modifies this
      ensures View() == OnMessageStop(old(View()))
      ensures fed == old(fed) && sent == old(sent) + out
    {
      var finish := FinishReasonOf(deferredStopReason.GetOr("end_turn"));
      out := [Data(Chunk(Some(messageId), Some(model), None, Some(Choice(NO_DELTA, Some(finish)))))];
      sent := sent + out;
      if inputTokens > 0 || deferredOutputTokens > 0 {
        var usage := Data(Chunk(Some(messageId), Some(model), Some(Usage(inputTokens, deferredOutputTokens)), None));
        out := out + [usage];
        sent := sent + [usage];
      }
      out := out + [Done];
      sent := sent + [Done];
    }

    method PushRoleOnce() returns (out: seq<Line>)
      modifies this
      ensures View() == Begun(old(View()))
      ensures fed == old(fed) && sent == old(sent) + out
    {
      out := [];
      if !started {
        out := PushDelta(NO_DELTA.(role := true));
        started := true;
      }
    }

    method PushDelta(d: Delta) returns (out: seq<Line>)
      modifies this`sent
      ensures View() == old(View()).EmitDelta(d)
      ensures sent == old(sent) + out
    {
      out := [Data(Chunk(Some(messageId), Some(model), None, Some(Choice(d, None))))];
      sent := sent + out;
    }
  }
}
