/** OpenAI chunks translated to Claude events keep their meaning, and so does the trip there and back. */
module RoundTrip {
  import opened Wire
  import opened Folds
  import opened Meaning
  import opened ToClaude
  import opened ToClaudeGrammar
  import opened ToClaudeTerminal
  import ToOpenai
  import ToOpenaiMeaning

  lemma Emitted(o: Out, e: ClaudeEvent)
    ensures ReadEvents(o.Emit(e).events) == ReadEvent(ReadEvents(o.events), e)
  {
    FoldSnoc(ReadEvent, NO_GIST, o.events, e);
  }

  lemma OpenedReads(o: Out, kind: BlockKind, head: BlockHead)
    ensures ReadEvents(Closed(o).events) == ReadEvents(o.events)
    ensures ReadEvents(Opened(o, kind, head).events) == ReadEvent(ReadEvents(o.events), BlockStart(0, head))
  {
    hide ReadEvents;
    Emitted(o, BlockStop(o.state.blockIndex));
    Emitted(Closed(o), BlockStart(Closed(o).state.blockIndex, head));
  }

  lemma ReasoningReads(o: Out, text: string)
    ensures ReadEvents(OnReasoning(o, text).events)
         == ReadEvents(o.events).(reasoning := ReadEvents(o.events).reasoning + text)
  {
    hide ReadEvents;
    OpenedReads(o, ThinkingKind, ThinkingHead(""));
    var b := if o.state.block == Some(ThinkingKind) then o else Opened(o, ThinkingKind, ThinkingHead(""));
    Emitted(b, BlockDelta(b.state.blockIndex, ThinkingPiece(text)));
  }

  lemma TextReads(o: Out, text: string)
    ensures ReadEvents(OnText(o, text).events)
         == ReadEvents(o.events).(text := ReadEvents(o.events).text + text)
  {
    hide ReadEvents;
    OpenedReads(o, TextKind, TextHead(""));
    var b := if o.state.block == Some(TextKind) then o else Opened(o, TextKind, TextHead(""));
    Emitted(b, BlockDelta(b.state.blockIndex, TextPiece(text)));
  }

  // ---- tool calls ----

  /** A tool delta as the machine's output tells it: a new call on a new index, else more arguments. */
  function Retold(g: Gist, isNew: bool, td: ToolDelta): Gist {
    ReadPiece(if isNew then g.(calls := g.calls + [ToolCall(td.id, td.name, "")]) else g, InputPiece(td.arguments))
  }

  lemma NoArguments(g: Gist)
    ensures ReadPiece(g, InputPiece("")) == g
  {
    if g.calls != [] {
      var n := |g.calls| - 1;
      assert g.calls[n].arguments + "" == g.calls[n].arguments;
      assert g.calls[n := g.calls[n]] == g.calls;
    }
  }

  lemma ToolReads(o: Out, td: ToolDelta)
    ensures ReadEvents(OnTool(o, td).events) == Retold(ReadEvents(o.events), ToolIndex(td) != o.state.oaiTool, td)
    ensures OnTool(o, td).state.oaiTool == ToolIndex(td)
  {
    hide ReadPiece, Closed, ReadEvents;
    OpenedReads(o, ToolKind, ToolHead(td.id, td.name));
    var b := if ToolIndex(td) == o.state.oaiTool then o else ToolOpened(o, td);
    Emitted(b, BlockDelta(b.state.blockIndex, InputPiece(td.arguments)));
    NoArguments(ReadEvents(b.events));
  }

  function Keys(slots: seq<Slot>): seq<int> { seq(|slots|, i requires 0 <= i < |slots| => slots[i].index) }

  /** The calls told so far, against the calls collected so far from tool deltas with these indices. */
  ghost predicate SameCalls(calls: seq<ToolCall>, current: int, slots: seq<Slot>, indices: seq<int>) {
    && current == (if indices == [] then -1 else indices[|indices| - 1])
    && (forall i, j :: 0 <= i < j < |slots| ==> slots[i].index != slots[j].index)
    && (forall x :: x in indices <==> x in Keys(slots))
    && if Contiguous(indices)
       then && |calls| == |slots| && (forall i :: 0 <= i < |slots| ==> calls[i] == slots[i].call)
            && (indices != [] ==> slots != [] && slots[|slots| - 1].index == current)
       else |calls| > |slots|
  }

  lemma FindKey(slots: seq<Slot>, index: int)
    ensures Find(slots, index) < |slots| <==> index in Keys(slots)
  {
    if Find(slots, index) < |slots| {
      assert Keys(slots)[Find(slots, index)] == index;
    } else {
      assert forall i :: 0 <= i < |slots| ==> Keys(slots)[i] != index;
    }
  }

  lemma SameCallsStep(g: Gist, current: int, slots: seq<Slot>, indices: seq<int>, td: ToolDelta)
    requires SameCalls(g.calls, current, slots, indices) && IndexOf(td) != -1
    ensures SameCalls(Retold(g, IndexOf(td) != current, td).calls, IndexOf(td), Collect(slots, td),
                      indices + [IndexOf(td)])
  {
    var x, next, all := IndexOf(td), Collect(slots, td), indices + [IndexOf(td)];
    assert all[..|indices|] == indices;
    FindKey(slots, x);
    var f := Find(slots, x);
    if f < |slots| {
      assert Keys(next) == Keys(slots);
    } else {
      assert Keys(next) == Keys(slots) + [x];
    }
  }

  // ---- whole streams ----

  ghost predicate Told(o: Out, t: Tally, indices: seq<int>) {
    var g := ReadEvents(o.events);
    && (g.reasoning, g.text) == (t.reasoning, t.text)
    && (Numbered(indices) ==> SameCalls(g.calls, o.state.oaiTool, t.slots, indices))
  }

  lemma ToolTold(o: Out, t: Tally, before: seq<int>, td: ToolDelta)
    requires Told(o, t, before)
    ensures Told(OnTool(o, td), t.(slots := Collect(t.slots, td)), before + [IndexOf(td)])
  {
    hide OnTool, Retold, Collect, SameCalls;
    ToolReads(o, td);
    RetoldProse(ReadEvents(o.events), ToolIndex(td) != o.state.oaiTool, td);
    var all := before + [IndexOf(td)];
    if Numbered(all) {
      assert IndexOf(td) in all && forall x :: x in before ==> x in all;
      SameCallsStep(ReadEvents(o.events), o.state.oaiTool, t.slots, before, td);
    }
  }

  lemma RetoldProse(g: Gist, isNew: bool, td: ToolDelta)
    ensures Retold(g, isNew, td).reasoning == g.reasoning && Retold(g, isNew, td).text == g.text
  {
  }

  lemma {:induction false} ToolsTold(o: Out, t: Tally, before: seq<int>, tds: seq<ToolDelta>)
    requires Told(o, t, before)
    ensures Told(OnTools(o, tds), t.(slots := Fold(Collect, t.slots, tds)), before + Indices(tds))
  {
    if tds == [] {
      assert before + Indices(tds) == before;
    } else {
      var n := |tds| - 1;
      var o1, t1 := OnTools(o, tds[..n]), t.(slots := Fold(Collect, t.slots, tds[..n]));
      assert OnTools(o, tds) == OnTool(o1, tds[n]);
      assert Fold(Collect, t.slots, tds) == Collect(t1.slots, tds[n]);
      assert before + Indices(tds) == before + Indices(tds[..n]) + [IndexOf(tds[n])];
      hide *;
      ToolsTold(o, t, before, tds[..n]);
      ToolTold(o1, t1, before + Indices(tds[..n]), tds[n]);
    }
  }

  lemma DeltaTold(o: Out, t: Tally, before: seq<int>, d: Delta)
    requires Told(o, t, before)
    ensures Told(OnDelta(o, d),
                 t.(reasoning := t.reasoning + ReasoningIn(d), text := t.text + d.content,
                    slots := Fold(Collect, t.slots, d.toolCalls)),
                 before + Indices(d.toolCalls))
  {
    hide OnTools, SameCalls, ReadEvents;
    var r := OnReasoning(o, ReasoningIn(d));
    ReasoningReads(o, ReasoningIn(d));
    var t1 := t.(reasoning := t.reasoning + ReasoningIn(d));
    assert Told(r, t1, before);
    ToolsTold(r, t1, before, d.toolCalls);
    TextReads(OnTools(r, d.toolCalls), d.content);
  }

  /** Same content, whatever else changed. */
  ghost predicate Silent(o: Out, o': Out) {
    var g, g' := ReadEvents(o.events), ReadEvents(o'.events);
    (g'.reasoning, g'.text, g'.calls, o'.state.oaiTool) == (g.reasoning, g.text, g.calls, o.state.oaiTool)
  }

  lemma StoppingSilent(o: Out)
    ensures Silent(o, Stopping(o))
  {
    hide ReadEvents;
    var stop := MessageDelta(Some(o.state.stopReason.GetOr("end_turn")), Some(Tokens(o.state.usage)));
    Emitted(o, stop);
    Emitted(o.Emit(stop), MessageStop);
  }

  lemma FinishSilent(o: Out, fr: Option<string>)
    ensures Silent(o, OnFinish(o, fr))
  {
    hide ReadEvents;
    if fr.Some? {
      OpenedReads(o, TextKind, TextHead(""));
      var c := Closed(o);
      StoppingSilent(c.(state := c.state.(finished := true, stopReason := Some(StopReasonOf(fr.value)))));
    }
  }

  lemma LineTold(o: Out, t: Tally, indices: seq<int>, line: Line)
    requires Told(o, t, indices)
    ensures Told(OnLine(o, line), ReadLine(t, line), indices + LineIndices(line))
  {
    hide Stopping, OnDelta, OnFinish, SameCalls, ReadEvents;
    var m := if line.Done? then o else o.(state := Noted(o.state, line.chunk));
    assert Silent(o, m);
    if line.Done? || line.chunk.choice.None? {
      StoppingSilent(m);
      assert indices + LineIndices(line) == indices;
    } else {
      var choice := line.chunk.choice.value;
      Emitted(m, MessageStart(Some(m.state.messageId), Some(m.state.model), Some(0)));
      DeltaTold(Begun(m), t, indices, choice.delta);
      FinishSilent(OnDelta(Begun(m), choice.delta), choice.finishReason);
    }
  }

  lemma {:induction false} RunTold(lines: seq<Line>)
    ensures Told(Run(lines), ReadLines(lines), ToolIndices(lines))
  {
    if lines != [] {
      hide Told, OnLine, ReadLine;
      var n := |lines| - 1;
      RunTold(lines[..n]);
      LineTold(Run(lines[..n]), ReadLines(lines[..n]), ToolIndices(lines[..n]), lines[n]);
    } else {
      assert Told(START, NOTHING_READ, []);
    }
  }

  // ---- there and back ----

  function ThereAndBack(lines: seq<Line>): seq<Line> {
    ToOpenai.Run(Run(lines).events).lines
  }

  /** Whatever the chunks, the two machines in a row give back the same text and the same reasoning;
      and they give back the same tool calls exactly when no tool index is returned to. */
  lemma ContentSurvives(lines: seq<Line>)
    ensures var t, t' := ReadLines(lines), ReadLines(ThereAndBack(lines));
            && t'.text == t.text && t'.reasoning == t.reasoning
            && (Numbered(ToolIndices(lines)) ==> (t'.Calls() == t.Calls() <==> Contiguous(ToolIndices(lines))))
  {
    RunTold(lines);
    ToOpenaiMeaning.StreamKeepsMeaning(Run(lines).events);
    var t, t', g := ReadLines(lines), ReadLines(ThereAndBack(lines)), ReadEvents(Run(lines).events);
    assert t'.Calls() == g.calls;
  }

  lemma {:induction false} BodyReads(events: seq<ClaudeEvent>)
    requires NoTerminal(events)
    ensures var g := ReadEvents(events); g.stop.None? && g.output == 0 && g.finish.None? && g.usage.None?
  {
    if events != [] {
      assert !Terminal(events[|events| - 1]);
      BodyReads(events[..|events| - 1]);
    }
  }

  lemma NoDoneYet(o: ToOpenai.Out, e: ClaudeEvent)
    requires Done !in o.lines && !e.MessageStop?
    ensures Done !in ToOpenai.OnEvent(o, e).lines
  {
  }

  lemma {:induction false} BodyHasNoDone(events: seq<ClaudeEvent>)
    requires NoTerminal(events)
    ensures Done !in ToOpenai.Run(events).lines
  {
    if events != [] {
      hide ToOpenai.OnEvent;
      var n := |events| - 1;
      assert !Terminal(events[n]);
      BodyHasNoDone(events[..n]);
      NoDoneYet(ToOpenai.Run(events[..n]), events[n]);
    }
  }

  lemma {:induction false} NoInputTokens(events: seq<ClaudeEvent>)
    requires !CheckAll(events).Broken?
    ensures ReadEvents(events).input == 0
    ensures CheckAll(events).Fresh? ==> events == []
  {
    if events != [] {
      NoInputTokens(events[..|events| - 1]);
    }
  }

  /** A stream that ends is translated there and back to a stream that ends: [DONE] comes once, as the
      last line; the finish reason is the original one exactly when Claude has a name for it; and the
      usage is the completion count known in time. */
  lemma EndSurvives(pre: seq<Line>, fin: Line, tail: seq<Line>)
    requires HasFinish(fin) && forall line :: line in pre ==> !HasFinish(line)
    requires forall line :: line in tail ==> Closing(line)
    ensures var lines := ThereAndBack(pre + [fin] + tail);
            var t, tokens := ReadLines(lines), Tokens(UsageInTime(pre, fin, tail));
            if Sent(pre, fin, tail)
            then && lines != [] && lines[|lines| - 1] == Done && Done !in lines[..|lines| - 1]
                 && (t.finish == Some(FinishOf(fin)) <==> FinishOf(fin) in {"stop", "tool_calls", "length"})
                 && t.usage == if tokens > 0 then Some(Usage(0, tokens)) else None
            else t.finish.None? && t.usage.None? && Done !in lines
  {
    hide Run, Contiguous, CheckAll, ToOpenai.Run, Spoken;
    StreamEnds(pre, fin, tail);
    ToOpenaiMeaning.StreamKeepsMeaning(Run(pre + [fin] + tail).events);
    var body := Spoken(pre, fin).events;
    BodyReads(body);
    BodyHasNoDone(body);
    if Sent(pre, fin, tail) {
      TerminatedReads(body, StopReasonOf(FinishOf(fin)), Tokens(UsageInTime(pre, fin, tail)));
      FinishReasonRoundTrip(FinishOf(fin));
    }
  }

  lemma TerminatedReads(body: seq<ClaudeEvent>, stop: string, tokens: nat)
    requires ClosedBody(body)
    ensures var g := ReadEvents(body + Terminals(stop, tokens));
            && g.finish == Some(FinishReasonOf(stop))
            && g.usage == if tokens > 0 then Some(Usage(0, tokens)) else None
    ensures var lines := ToOpenai.Run(body + Terminals(stop, tokens)).lines;
            lines != [] && lines[|lines| - 1] == Done && Done !in lines[..|lines| - 1]
  {
    var delta := MessageDelta(Some(stop), Some(tokens));
    assert body + Terminals(stop, tokens) == body + [delta] + [MessageStop];
    BodyReads(body);
    BodyHasNoDone(body);
    NoInputTokens(body);
    FoldSnoc(ReadEvent, NO_GIST, body, delta);
    FoldSnoc(ReadEvent, NO_GIST, body + [delta], MessageStop);
    FoldSnoc(ToOpenai.OnEvent, ToOpenai.START, body, delta);
    FoldSnoc(ToOpenai.OnEvent, ToOpenai.START, body + [delta], MessageStop);
  }
}
