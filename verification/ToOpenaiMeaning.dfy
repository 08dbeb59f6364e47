/** The Claude-to-OpenAI machine changes the wording of a stream, never its meaning. */
module ToOpenaiMeaning {
  import opened Wire
  import opened Folds
  import opened Meaning
  import opened ToOpenai

  /** The calls as an OpenAI client collects them, numbered from 0. */
  function AsSlots(calls: seq<ToolCall>): seq<Slot> {
    seq(|calls|, i requires 0 <= i < |calls| => Slot(i, calls[i]))
  }

  /** The machine's output so far reads like its input so far. */
  ghost predicate Matches(o: Out, g: Gist) {
    var s := o.state;
    && ReadLines(o.lines) == Tally(g.reasoning, g.text, AsSlots(g.calls), g.finish, g.usage)
    && (s.toolCallIndex, s.oaiTool) == (|g.calls|, if g.calls == [] then None else Some(|g.calls| - 1))
    && (s.stopReason, s.inputTokens, s.outputTokens) == (g.stop, g.input, g.output)
  }

  lemma ReadEmitted(o: Out, c: Chunk)
    ensures ReadLines(o.Emit(c).lines) == ReadChunk(ReadLines(o.lines), c)
  {
    FoldSnoc(ReadLine, NOTHING_READ, o.lines, Data(c));
  }

  lemma ReadDelta(o: Out, d: Delta)
    ensures ReadLines(o.EmitDelta(d).lines)
         == ReadChunk(ReadLines(o.lines), Chunk(None, None, None, Some(Choice(d, None))))
  {
    hide ReadLines;
    ReadEmitted(o, Chunk(Some(o.state.messageId), Some(o.state.model), None, Some(Choice(d, None))));
  }

  lemma CollectOne(slots: seq<Slot>, td: ToolDelta)
    ensures Fold(Collect, slots, [td]) == Collect(slots, td)
  {
    FoldSnoc(Collect, slots, [], td);
    assert [] + [td] == [td];
  }

  lemma BegunMatches(o: Out, g: Gist)
    requires Matches(o, g)
    ensures Matches(Begun(o), g)
  {
    hide ReadLines;
    ReadDelta(o, NO_DELTA.(role := true));
  }

  lemma HeadMatches(o: Out, g: Gist, index: int, head: BlockHead)
    requires Matches(o, g)
    ensures Matches(OnHead(o, index, head), ReadEvent(g, BlockStart(index, head)))
  {
    hide ReadLines;
    var n := o.(state := o.state.(blockIndex := AsI32(index)));
    BegunMatches(n, g);
    if head.ToolHead? {
      var b := Begun(n);
      var td := ToolDelta(Some(b.state.toolCallIndex), head.id, head.name, "");
      ReadDelta(b, NO_DELTA.(toolCalls := [td]));
      CollectOne(ReadLines(b.lines).slots, td);
    }
  }

  lemma MoreArguments(g: Gist, more: string)
    requires g.calls != []
    ensures Collect(AsSlots(g.calls), ToolDelta(Some(|g.calls| - 1), "", "", more))
         == AsSlots(ReadPiece(g, InputPiece(more)).calls)
  {
    assert AsSlots(g.calls)[|g.calls| - 1].index == |g.calls| - 1;
  }

  lemma PieceMatches(o: Out, g: Gist, piece: Piece)
    requires Matches(o, g)
    ensures Matches(OnPiece(o, piece), ReadPiece(g, piece))
  {
    hide ReadLines;
    BegunMatches(o, g);
    var b := Begun(o);
    match piece {
      case TextPiece(t) => ReadDelta(b, NO_DELTA.(content := t));
      case ThinkingPiece(t) => ReadDelta(b, NO_DELTA.(reasoningContent := Some(t)));
      case InputPiece(p) =>
        if o.state.oaiTool.Some? {
          var td := ToolDelta(o.state.oaiTool, "", "", p);
          ReadDelta(o, NO_DELTA.(toolCalls := [td]));
          CollectOne(ReadLines(o.lines).slots, td);
          MoreArguments(g, p);
        }
      case _ =>
    }
  }

  lemma StopMatches(o: Out, g: Gist)
    requires Matches(o, g)
    ensures Matches(OnMessageStop(o), ReadEvent(g, MessageStop))
  {
    var s := o.state;
    var finish := Chunk(Some(s.messageId), Some(s.model), None,
                        Some(Choice(NO_DELTA, Some(FinishReasonOf(s.stopReason.GetOr("end_turn"))))));
    ReadEmitted(o, finish);
    var f := o.Emit(finish);
    var usage := Chunk(Some(s.messageId), Some(s.model), Some(Usage(s.inputTokens, s.outputTokens)), None);
    ReadEmitted(f, usage);
    FoldSnoc(ReadLine, NOTHING_READ, f.lines, Done);
    FoldSnoc(ReadLine, NOTHING_READ, f.Emit(usage).lines, Done);
  }

  /** For every sequence of Claude events, well formed or not, the emitted chunks read the same:
      text, reasoning, tool calls in order, finish reason and usage. */
  lemma {:induction false} StreamKeepsMeaning(events: seq<ClaudeEvent>)
    ensures Matches(Run(events), ReadEvents(events))
  {
    if events != [] {
      var n := |events| - 1;
      StreamKeepsMeaning(events[..n]);
      var o, g := Run(events[..n]), ReadEvents(events[..n]);
      match events[n] {
        case BlockStart(index, head) => HeadMatches(o, g, index, head);
        case BlockDelta(_, piece) => PieceMatches(o, g, piece);
        case MessageStop => StopMatches(o, g);
        case _ =>
      }
    }
  }
}
