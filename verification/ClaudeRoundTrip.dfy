/** Claude events translated to OpenAI chunks and back: text, reasoning, calls and output tokens always, the stop reason
    where OpenAI has a name for it. */
module ClaudeRoundTrip {
  import opened Wire
  import opened Folds
  import opened Meaning
  import opened ToClaude
  import opened ToClaudeTerminal
  import opened RoundTrip
  import opened ToOpenaiMeaning
  import ToOpenai

  function BackAndForth(events: seq<ClaudeEvent>): seq<ClaudeEvent> {
    Run(ToOpenai.Run(events).lines).events
  }

  // ---- tool calls ----

  /** Indices below `bound` that never fall. */
  ghost predicate Rising(indices: seq<int>, bound: nat) {
    && (forall i :: 0 <= i < |indices| ==> 0 <= indices[i] < bound)
    && (forall i, j :: 0 <= i < j < |indices| ==> indices[i] <= indices[j])
  }

  lemma {:induction false} RisingIsContiguous(indices: seq<int>, bound: nat)
    requires Rising(indices, bound)
    ensures Contiguous(indices)
  {
    if |indices| > 1 {
      RisingIsContiguous(indices[..|indices| - 1], bound);
    }
  }

  lemma DeltaIndices(o: ToOpenai.Out, d: Delta)
    ensures ToolIndices(o.EmitDelta(d).lines) == ToolIndices(o.lines) + Indices(d.toolCalls)
  {
    var lines := o.EmitDelta(d).lines;
    assert lines[..|lines| - 1] == o.lines;
  }

  lemma BegunIndices(o: ToOpenai.Out)
    ensures ToolIndices(ToOpenai.Begun(o).lines) == ToolIndices(o.lines)
    ensures ToOpenai.Begun(o).state == o.state.(started := true)
  {
    DeltaIndices(o, NO_DELTA.(role := true));
  }

  lemma RisingSnoc(indices: seq<int>, bound: nat, next: nat)
    requires Rising(indices, bound) && bound <= next + 1
    ensures Rising(indices + [next], next + 1)
  {
  }

  lemma HeadRises(o: ToOpenai.Out, g: Gist, index: int, head: BlockHead)
    requires Matches(o, g) && Rising(ToolIndices(o.lines), |g.calls|)
    ensures Rising(ToolIndices(ToOpenai.OnHead(o, index, head).lines), |ReadEvent(g, BlockStart(index, head)).calls|)
  {
    var n := o.(state := o.state.(blockIndex := AsI32(index)));
    BegunIndices(n);
    var b := ToOpenai.Begun(n);
    if head.ToolHead? {
      var td := ToolDelta(Some(b.state.toolCallIndex), head.id, head.name, "");
      var t := b.EmitDelta(NO_DELTA.(toolCalls := [td]));
      assert ToOpenai.OnHead(o, index, head).lines == t.lines;
      assert b.state.toolCallIndex == |g.calls|;
      assert |ReadEvent(g, BlockStart(index, head)).calls| == |g.calls| + 1;
      assert Indices([td]) == [|g.calls|];
      hide *;
      DeltaIndices(b, NO_DELTA.(toolCalls := [td]));
      RisingSnoc(ToolIndices(o.lines), |g.calls|, |g.calls|);
    } else {
      assert ReadEvent(g, BlockStart(index, head)) == g;
      hide ToolIndices, ReadLines, Rising, Matches;
    }
  }

  /** Only tool input brings an index, that of the latest call. */
  lemma PieceIndices(o: ToOpenai.Out, piece: Piece)
    ensures ToolIndices(ToOpenai.OnPiece(o, piece).lines)
         == ToolIndices(o.lines) + if piece.InputPiece? && o.state.oaiTool.Some? then [o.state.oaiTool.value] else []
  {
    hide ToolIndices, ToOpenai.Begun;
    assert ToolIndices(o.lines) + [] == ToolIndices(o.lines);
    BegunIndices(o);
    var b := ToOpenai.Begun(o);
    match piece {
      case TextPiece(t) => DeltaIndices(b, NO_DELTA.(content := t));
      case ThinkingPiece(t) => DeltaIndices(b, NO_DELTA.(reasoningContent := Some(t)));
      case InputPiece(p) =>
        var td := ToolDelta(o.state.oaiTool, "", "", p);
        assert o.state.oaiTool.Some? ==> Indices([td]) == [o.state.oaiTool.value];
        DeltaIndices(o, NO_DELTA.(toolCalls := [td]));
      case _ =>
    }
  }

  lemma PieceRises(o: ToOpenai.Out, g: Gist, piece: Piece)
    requires Matches(o, g) && Rising(ToolIndices(o.lines), |g.calls|)
    ensures Rising(ToolIndices(ToOpenai.OnPiece(o, piece).lines), |ReadPiece(g, piece).calls|)
  {
    assert |ReadPiece(g, piece).calls| == |g.calls|;
    assert o.state.oaiTool == if g.calls == [] then None else Some(|g.calls| - 1);
    var indices := ToolIndices(o.lines);
    assert indices + [] == indices;
    hide *;
    PieceIndices(o, piece);
    if o.state.oaiTool.Some? {
      RisingSnoc(indices, |g.calls|, |g.calls| - 1);
    }
  }

  lemma StopAddsNoIndex(o: ToOpenai.Out)
    ensures ToolIndices(ToOpenai.OnMessageStop(o).lines) == ToolIndices(o.lines)
  {
    var s := o.state;
    var f := o.Emit(Chunk(Some(s.messageId), Some(s.model), None,
                          Some(Choice(NO_DELTA, Some(FinishReasonOf(s.stopReason.GetOr("end_turn")))))));
    var u := f.Emit(Chunk(Some(s.messageId), Some(s.model), Some(Usage(s.inputTokens, s.outputTokens)), None));
    var end := if s.inputTokens > 0 || s.outputTokens > 0 then u else f;
    assert ToOpenai.OnMessageStop(o).lines == end.lines + [Done];
    assert f.lines == o.lines + [f.lines[|o.lines|]] && u.lines == f.lines + [u.lines[|f.lines|]];
    assert LineIndices(f.lines[|o.lines|]) == [] && LineIndices(u.lines[|f.lines|]) == [] && LineIndices(Done) == [];
    hide *;
    IndicesSnoc(o.lines, f.lines[|o.lines|]);
    IndicesSnoc(f.lines, u.lines[|f.lines|]);
    IndicesSnoc(end.lines, Done);
  }

  lemma IndicesSnoc(lines: seq<Line>, line: Line)
    ensures ToolIndices(lines + [line]) == ToolIndices(lines) + LineIndices(line)
  {
    assert (lines + [line])[..|lines|] == lines;
  }

  lemma EventRises(o: ToOpenai.Out, g: Gist, e: ClaudeEvent)
    requires Matches(o, g) && Rising(ToolIndices(o.lines), |g.calls|)
    ensures Rising(ToolIndices(ToOpenai.OnEvent(o, e).lines), |ReadEvent(g, e).calls|)
  {
    match e {
      case BlockStart(index, head) => HeadRises(o, g, index, head);
      case BlockDelta(_, piece) => PieceRises(o, g, piece);
      case MessageStop => StopAddsNoIndex(o);
      case _ =>
    }
    assert !e.BlockStart? && !e.BlockDelta? ==> ReadEvent(g, e).calls == g.calls;
    assert !e.BlockStart? && !e.BlockDelta? && !e.MessageStop? ==> ToOpenai.OnEvent(o, e).lines == o.lines;
    hide ToOpenai.OnHead, ToOpenai.OnPiece, ToOpenai.OnMessageStop, ReadPiece, Rising, ToolIndices, Matches;
  }

  /** The calls are numbered in order, so no index is ever returned to. */
  lemma {:induction false} RunRises(events: seq<ClaudeEvent>)
    ensures Rising(ToolIndices(ToOpenai.Run(events).lines), |ReadEvents(events).calls|)
  {
    if events != [] {
      var n := |events| - 1;
      RunRises(events[..n]);
      StreamKeepsMeaning(events[..n]);
      hide ToOpenai.OnEvent, ReadEvent, Rising, ToolIndices, Matches;
      EventRises(ToOpenai.Run(events[..n]), ReadEvents(events[..n]), events[n]);
    }
  }

  /** For every sequence of Claude events, well formed or not: text, reasoning and tool calls come back. */
  lemma ClaudeContentSurvives(events: seq<ClaudeEvent>)
    requires |ReadEvents(events).calls| <= 0x8000_0000
    ensures var g, g' := ReadEvents(events), ReadEvents(BackAndForth(events));
            g'.text == g.text && g'.reasoning == g.reasoning && g'.calls == g.calls
  {
    var lines := ToOpenai.Run(events).lines;
    StreamKeepsMeaning(events);
    RunRises(events);
    RisingIsContiguous(ToolIndices(lines), |ReadEvents(events).calls|);
    RunTold(lines);
    hide ToOpenai.Run, Run, ReadEvents, ReadLines, ToolIndices, Contiguous;
  }

  // ---- the end ----

  lemma GoesOn(o: ToOpenai.Out, e: ClaudeEvent)
    requires !Terminal(e) && forall line <- o.lines :: !HasFinish(line)
    ensures forall line <- ToOpenai.OnEvent(o, e).lines :: !HasFinish(line)
  {
  }

  lemma {:induction false} BodyGoesOn(body: seq<ClaudeEvent>)
    requires NoTerminal(body)
    ensures forall line <- ToOpenai.Run(body).lines :: !HasFinish(line)
  {
    if body != [] {
      hide ToOpenai.OnEvent, HasFinish;
      var n := |body| - 1;
      assert !Terminal(body[n]);
      BodyGoesOn(body[..n]);
      GoesOn(ToOpenai.Run(body[..n]), body[n]);
    }
  }

  /** What a stop reason and a token count become on the way. */
  function FinishLine(s: ToOpenai.State, stop: string): Line {
    Data(Chunk(Some(s.messageId), Some(s.model), None, Some(Choice(NO_DELTA, Some(FinishReasonOf(stop))))))
  }

  function TailLines(s: ToOpenai.State, tokens: nat): seq<Line> {
    (if s.inputTokens > 0 || tokens > 0
     then [Data(Chunk(Some(s.messageId), Some(s.model), Some(Usage(s.inputTokens, tokens)), None))] else []) + [Done]
  }

  lemma TerminatedLines(body: seq<ClaudeEvent>, stop: string, tokens: nat)
    ensures var o := ToOpenai.Run(body);
            ToOpenai.Run(body + Terminals(stop, tokens)).lines
            == o.lines + [FinishLine(o.state, stop)] + TailLines(o.state, tokens)
  {
    var delta := MessageDelta(Some(stop), Some(tokens));
    assert body + Terminals(stop, tokens) == body + [delta] + [MessageStop];
    FoldSnoc(ToOpenai.OnEvent, ToOpenai.START, body, delta);
    FoldSnoc(ToOpenai.OnEvent, ToOpenai.START, body + [delta], MessageStop);
    hide Fold;
  }

  /** The usage chunk is the line after the finish, just in time. */
  lemma TokensInTime(body: seq<ClaudeEvent>, stop: string, tokens: nat)
    requires NoTerminal(body)
    ensures var o := ToOpenai.Run(body);
            Tokens(UsageInTime(o.lines, FinishLine(o.state, stop), TailLines(o.state, tokens))) == tokens
  {
    var o := ToOpenai.Run(body);
    var fin, tail := FinishLine(o.state, stop), TailLines(o.state, tokens);
    StreamKeepsMeaning(body);
    BodyReads(body);
    FoldSnoc(ReadLine, NOTHING_READ, o.lines, fin);
    FoldSnoc(ReadLine, NOTHING_READ, o.lines + [fin], tail[0]);
    assert tail[..1] == [tail[0]];
    hide Fold, ToOpenai.Run, ReadEvents;
  }

  lemma ClosedBodyReads(body: seq<ClaudeEvent>, stop: string, tokens: nat)
    requires ClosedBody(body)
    ensures var g := ReadEvents(body + Terminals(stop, tokens));
            g.stop == Some(stop) && g.output == tokens && g.input == 0
  {
    var delta := MessageDelta(Some(stop), Some(tokens));
    assert body + Terminals(stop, tokens) == body + [delta] + [MessageStop];
    NoInputTokens(body);
    FoldSnoc(ReadEvent, NO_GIST, body, delta);
    FoldSnoc(ReadEvent, NO_GIST, body + [delta], MessageStop);
    hide Fold;
  }

  /** A Claude stream that ends comes back as a stream that ends, once and last, after closed blocks: with its output
      tokens always, with its stop reason exactly when OpenAI has a name for it, and never with its input tokens. */
  lemma ClaudeEndSurvives(body: seq<ClaudeEvent>, stop: string, tokens: nat) returns (body': seq<ClaudeEvent>)
    requires NoTerminal(body)
    ensures BackAndForth(body + Terminals(stop, tokens))
         == body' + Terminals(StopReasonOf(FinishReasonOf(stop)), tokens)
    ensures ClosedBody(body')
    ensures var g := ReadEvents(BackAndForth(body + Terminals(stop, tokens)));
            && (g.stop == Some(stop) <==> stop in {"end_turn", "tool_use", "max_tokens"})
            && g.output == tokens && g.input == 0
  {
    var o := ToOpenai.Run(body);
    var fin, tail := FinishLine(o.state, stop), TailLines(o.state, tokens);
    BodyGoesOn(body);
    TerminatedLines(body, stop, tokens);
    TokensInTime(body, stop, tokens);
    assert FinishOf(fin) == FinishReasonOf(stop);
    assert HasFinish(fin) && tail != [] && forall line <- tail :: Closing(line);
    assert Sent(o.lines, fin, tail);
    assert BackAndForth(body + Terminals(stop, tokens)) == Run(o.lines + [fin] + tail).events;
    hide *;
    StreamEnds(o.lines, fin, tail);
    body' := Spoken(o.lines, fin).events;
    ClosedBodyReads(body', StopReasonOf(FinishReasonOf(stop)), tokens);
    StopReasonRoundTrip(stop);
  }
}
