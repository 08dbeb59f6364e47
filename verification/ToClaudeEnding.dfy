/** Where the terminal events of the OpenAI-to-Claude machine come in its output, on every run. */
module ToClaudeEnding {
  import opened Wire
  import opened Folds
  import opened Meaning
  import opened ToClaude
  import opened ToClaudeGrammar
  import opened ToClaudeTerminal

  // ---- reading the output ----

  datatype Phase = Underway | Half | Over

  /** A reader that only watches the end: `disorder` records a terminal event with a block open, one out of turn or
      repeated, or any event after the first message_delta but its message_stop. */
  datatype Watch = Watch(open: bool, phase: Phase, disorder: bool)

  function See(w: Watch, e: ClaudeEvent): Watch {
    match e
    case MessageDelta(_, _) => Watch(w.open, Half, w.disorder || w.open || w.phase != Underway)
    case MessageStop => Watch(w.open, Over, w.disorder || w.open || w.phase != Half)
    case BlockStart(_, _) => Watch(true, w.phase, w.disorder || w.phase != Underway)
    case BlockStop(_) => Watch(false, w.phase, w.disorder || w.phase != Underway)
    case _ => w.(disorder := w.disorder || w.phase != Underway)
  }

  function SeeAll(events: seq<ClaudeEvent>): Watch { Fold(See, Watch(false, Underway, false), events) }

  // ---- reading the input ----

  function LatestTool(tool: int, tds: seq<ToolDelta>): int {
    if tds == [] then tool else ToolIndex(tds[|tds| - 1])
  }

  /** Some tool delta starts a call: its index differs from the one before it, at first `tool`. */
  predicate ToolsOpen(tool: int, tds: seq<ToolDelta>) {
    tds != [] &&
    var n := |tds| - 1;
    ToolsOpen(tool, tds[..n]) || ToolIndex(tds[n]) != LatestTool(tool, tds[..n])
  }

  predicate HasArguments(tds: seq<ToolDelta>) {
    exists td <- tds :: td.arguments != ""
  }

  /** The delta starts a block, or would if none of its kind were open. */
  predicate Opens(tool: int, d: Delta) {
    ReasoningIn(d) != "" || ToolsOpen(tool, d.toolCalls) || d.content != ""
  }

  /** The delta is passed on at all. */
  predicate Speaks(tool: int, d: Delta) {
    Opens(tool, d) || HasArguments(d.toolCalls)
  }

  /** After the lines so far: something was said since the latest finish, a finish was read, and the terminal
      events are due or sent. */
  datatype Coda = Coda(open: bool, finished: bool, ended: bool)

  function CodaOf(lines: seq<Line>): Coda {
    if lines == [] then Coda(false, false, false)
    else
      var n := |lines| - 1;
      var k, line := CodaOf(lines[..n]), lines[n];
      if Closing(line) then k.(ended := k.finished)
      else if HasFinish(line) then Coda(false, true, k.ended || LatestUsage(lines).Some?)
      else k.(open := k.open || Opens(Pass(lines[..n]).tool, line.chunk.choice.value.delta))
  }

  /** The line comes too late: more is said or finished after the terminal events, or it brings them about
      while something said after the finish is still open. */
  predicate TooLate(before: seq<Line>, line: Line) {
    var k := CodaOf(before);
    if Closing(line) then k.finished && !k.ended && k.open
    else
      && k.ended
      && (|| Speaks(Pass(before).tool, line.chunk.choice.value.delta)
          || (HasFinish(line) && LatestUsage(before + [line]).Some?))
  }

  predicate SomethingTooLate(lines: seq<Line>) {
    exists n :: 0 <= n < |lines| && TooLate(lines[..n], lines[n])
  }

  // ---- what each operation does ----

  /** The machine's own view of the end, beside what the reader has seen so far. */
  datatype Sight = Sight(open: bool, started: bool, finished: bool, stopped: bool, usage: Option<Usage>, disorder: bool)

  ghost function SightOf(o: Out): Sight {
    var st := o.state;
    Sight(st.block.Some?, st.started, st.finished, st.stopped, st.usage, SeeAll(o.events).disorder)
  }

  /** The reader's view is the machine's. */
  ghost predicate Aligned(o: Out) {
    var w := SeeAll(o.events);
    w == Watch(o.state.block.Some?, if o.state.stopped then Over else Underway, w.disorder)
  }

  /** An operation that passes something on (`spoke`), leaves a block open or not, and changes nothing else. */
  ghost predicate Passes(o: Out, o': Out, spoke: bool, open: bool) {
    var v := SightOf(o);
    Aligned(o') && SightOf(o') == v.(open := open, disorder := v.disorder || (spoke && v.stopped))
  }

  lemma Emitted(o: Out, e: ClaudeEvent)
    ensures SeeAll(o.Emit(e).events) == See(SeeAll(o.events), e)
  {
    FoldSnoc(See, Watch(false, Underway, false), o.events, e);
  }

  lemma ClosedPasses(o: Out)
    requires Aligned(o)
    ensures Passes(o, Closed(o), o.state.block.Some?, false)
  {
    hide SeeAll;
    Emitted(o, BlockStop(o.state.blockIndex));
  }

  lemma OpenedPasses(o: Out, kind: BlockKind, head: BlockHead)
    requires Aligned(o)
    ensures Passes(o, Opened(o, kind, head), true, true)
  {
    hide SeeAll;
    ClosedPasses(o);
    Emitted(Closed(o), BlockStart(Closed(o).state.blockIndex, head));
  }

  lemma PiecePasses(o: Out, piece: Piece)
    requires Aligned(o)
    ensures Passes(o, Piecewise(o, piece), true, o.state.block.Some?)
  {
    hide SeeAll;
    Emitted(o, BlockDelta(o.state.blockIndex, piece));
  }

  lemma ProsePasses(o: Out, text: string)
    requires Aligned(o)
    ensures Passes(o, OnReasoning(o, text), text != "", o.state.block.Some? || text != "")
    ensures Passes(o, OnText(o, text), text != "", o.state.block.Some? || text != "")
  {
    hide SeeAll, Opened, Piecewise;
    OpenedPasses(o, ThinkingKind, ThinkingHead(""));
    OpenedPasses(o, TextKind, TextHead(""));
    PiecePasses(if o.state.block == Some(ThinkingKind) then o else Opened(o, ThinkingKind, ThinkingHead("")),
                ThinkingPiece(text));
    PiecePasses(if o.state.block == Some(TextKind) then o else Opened(o, TextKind, TextHead("")), TextPiece(text));
  }

  lemma ToolPasses(o: Out, td: ToolDelta)
    requires Aligned(o)
    ensures var opens := ToolIndex(td) != o.state.oaiTool;
            Passes(o, OnTool(o, td), opens || td.arguments != "", o.state.block.Some? || opens)
    ensures OnTool(o, td).state.oaiTool == ToolIndex(td)
  {
    hide SeeAll, Opened, Piecewise;
    OpenedPasses(o, ToolKind, ToolHead(td.id, td.name));
    var c := if ToolIndex(td) == o.state.oaiTool then o else ToolOpened(o, td);
    assert Aligned(c);
    PiecePasses(c, InputPiece(td.arguments));
    assert Piecewise(c, InputPiece(td.arguments)).state == c.state by { PieceKeepsState(c, InputPiece(td.arguments)); }
  }

  lemma PieceKeepsState(o: Out, piece: Piece)
    ensures Piecewise(o, piece).state == o.state
  {
  }

  lemma {:induction false} ToolsPass(o: Out, tds: seq<ToolDelta>)
    requires Aligned(o)
    ensures var opens := ToolsOpen(o.state.oaiTool, tds);
            Passes(o, OnTools(o, tds), opens || HasArguments(tds), o.state.block.Some? || opens)
    ensures OnTools(o, tds).state.oaiTool == LatestTool(o.state.oaiTool, tds)
  {
    if tds != [] {
      hide OnTool, SeeAll, Aligned;
      var n := |tds| - 1;
      ToolsPass(o, tds[..n]);
      assert Aligned(OnTools(o, tds[..n]));
      ToolPasses(OnTools(o, tds[..n]), tds[n]);
      assert forall td :: td in tds <==> td in tds[..n] || td == tds[n];
    }
  }

  lemma DeltaPasses(o: Out, d: Delta)
    requires Aligned(o)
    ensures Passes(o, OnDelta(o, d), Speaks(o.state.oaiTool, d), o.state.block.Some? || Opens(o.state.oaiTool, d))
  {
    hide OnTools, SeeAll, ToolsOpen, HasArguments;
    var r := OnReasoning(o, ReasoningIn(d));
    ProsePasses(o, ReasoningIn(d));
    assert r.state.oaiTool == o.state.oaiTool;
    hide OnReasoning, OnText;
    ToolsPass(r, d.toolCalls);
    ProsePasses(OnTools(r, d.toolCalls), d.content);
  }

  lemma BegunPasses(o: Out)
    requires Aligned(o) && (!o.state.started ==> !o.state.stopped)
    ensures Aligned(Begun(o)) && SightOf(Begun(o)) == SightOf(o).(started := true)
    ensures Begun(o).state.oaiTool == o.state.oaiTool
  {
    hide SeeAll;
    Emitted(o, MessageStart(Some(o.state.messageId), Some(o.state.model), Some(0)));
  }

  lemma StoppingEnds(o: Out)
    requires Aligned(o)
    ensures var v := SightOf(o);
            Aligned(Stopping(o)) &&
            SightOf(Stopping(o)) == v.(stopped := true, disorder := v.disorder || v.stopped || v.open)
  {
    hide SeeAll;
    var stop := MessageDelta(Some(o.state.stopReason.GetOr("end_turn")), Some(Tokens(o.state.usage)));
    Emitted(o, stop);
    Emitted(o.Emit(stop), MessageStop);
  }

  lemma FinishEnds(o: Out, fr: string)
    requires Aligned(o)
    ensures var f, v := OnFinish(o, Some(fr)), SightOf(o);
            Aligned(f) &&
            SightOf(f) == v.(open := false, finished := true, stopped := v.stopped || v.usage.Some?,
                             disorder := v.disorder || (v.stopped && (v.open || v.usage.Some?)))
  {
    ClosedPasses(o);
    var c := Closed(o);
    var d := c.(state := c.state.(finished := true, stopReason := Some(StopReasonOf(fr))));
    hide SeeAll;
    StoppingEnds(d);
  }

  /** The machine and the reader of its input agree on where the stream stands. */
  ghost predicate Stands(o: Out, lines: seq<Line>) {
    var k, st := CodaOf(lines), o.state;
    && Aligned(o)
    && SightOf(o) == Sight(k.open, st.started, k.finished, k.ended, st.usage, SomethingTooLate(lines))
    && (k.ended ==> k.finished) && (k.finished ==> st.started)
    && (k.ended && k.open ==> SomethingTooLate(lines))
  }

  lemma TooLateSnoc(before: seq<Line>, line: Line)
    ensures SomethingTooLate(before + [line]) <==> SomethingTooLate(before) || TooLate(before, line)
  {
    var lines, n := before + [line], |before|;
    hide TooLate;
    assert lines[..n] == before && lines[n] == line;
    assert forall i :: 0 <= i < n ==> lines[..i] == before[..i] && lines[i] == before[i];
    if i :| 0 <= i < n && TooLate(before[..i], before[i]) {
      assert TooLate(lines[..i], lines[i]);
    }
    if TooLate(before, line) {
      assert TooLate(lines[..n], lines[n]);
    }
  }

  lemma CodaSnoc(before: seq<Line>, line: Line)
    ensures var k := CodaOf(before);
            CodaOf(before + [line]) ==
            if Closing(line) then k.(ended := k.finished)
            else if HasFinish(line) then Coda(false, true, k.ended || LatestUsage(before + [line]).Some?)
            else k.(open := k.open || Opens(Pass(before).tool, line.chunk.choice.value.delta))
  {
    assert (before + [line])[..|before|] == before;
  }

  lemma NotedAligns(o: Out, c: Chunk)
    ensures var n := o.(state := Noted(o.state, c));
            && (Aligned(o) ==> Aligned(n)) && SightOf(n) == SightOf(o).(usage := n.state.usage)
            && n.state.oaiTool == o.state.oaiTool
  {
  }

  lemma ClosingStands(o: Out, before: seq<Line>, line: Line)
    requires Stands(o, before) && Closing(line)
    ensures Stands(OnLine(o, line), before + [line])
  {
    TooLateSnoc(before, line);
    CodaSnoc(before, line);
    var n := if line.Done? then o else o.(state := Noted(o.state, line.chunk));
    if line.Data? {
      NotedAligns(o, line.chunk);
    }
    StoppingEnds(n);
    hide Aligned, SeeAll, SomethingTooLate, CodaOf, Noted, Fold;
  }

  lemma ChoiceStands(o: Out, before: seq<Line>, line: Line)
    requires Stands(o, before) && !Closing(line)
    requires o.state.oaiTool == Pass(before).tool
    requires OnLine(o, line).state.usage.Some? <==> LatestUsage(before + [line]).Some?
    ensures Stands(OnLine(o, line), before + [line])
  {
    TooLateSnoc(before, line);
    CodaSnoc(before, line);
    var c := line.chunk;
    var n := o.(state := Noted(o.state, c));
    var b := Begun(n);
    var choice := c.choice.value;
    var d := OnDelta(b, choice.delta);
    NotedAligns(o, c);
    BegunPasses(n);
    DeltaPasses(b, choice.delta);
    if choice.finishReason.Some? {
      FinishEnds(d, choice.finishReason.value);
    }
    hide Aligned, SeeAll, SomethingTooLate, CodaOf, Noted, Fold, OnDelta, OnFinish, Begun, Speaks, Opens, Pass;
    hide LatestUsage;
    assert OnLine(o, line) == OnFinish(d, choice.finishReason);
    FinishNone(d);
  }

  lemma FinishNone(o: Out)
    ensures OnFinish(o, None) == o
  {
  }

  lemma {:induction false} RunStands(lines: seq<Line>)
    ensures Stands(Run(lines), lines)
  {
    if lines == [] {
      assert Run(lines) == START;
    } else {
      var n := |lines| - 1;
      RunStands(lines[..n]);
      assert lines == lines[..n] + [lines[n]];
      RunInGrammar(lines[..n]);
      UsageOnRecord(lines);
      assert Run(lines) == OnLine(Run(lines[..n]), lines[n]);
      hide Stands, OnLine, Fold;
      if Closing(lines[n]) {
        ClosingStands(Run(lines[..n]), lines[..n], lines[n]);
      } else {
        ChoiceStands(Run(lines[..n]), lines[..n], lines[n]);
      }
    }
  }

  /** For every stream: the terminal events, if any, come once, last, and after closed blocks exactly when no line
      comes too late. */
  lemma TerminalsInPlace(lines: seq<Line>)
    ensures SeeAll(Run(lines).events).disorder <==> SomethingTooLate(lines)
    ensures SeeAll(Run(lines).events).phase == if CodaOf(lines).ended then Over else Underway
  {
    RunStands(lines);
  }

  /** The whole event grammar, terminal events included. */
  ghost predicate WellFormed(events: seq<ClaudeEvent>) {
    var r := CheckAll(events);
    !r.Broken? && !(r.Reading? && r.stray) && !SeeAll(events).disorder
  }

  /** A stream of events is well formed exactly when no interrupted tool call was resumed and no line came too late. */
  lemma WellFormedIff(lines: seq<Line>)
    ensures WellFormed(Run(lines).events) <==> !Pass(lines).resumed && !SomethingTooLate(lines)
  {
    RunInGrammar(lines);
    TerminalsInPlace(lines);
    assert CheckAll([]) == Fresh;
    hide SeeAll, SomethingTooLate, CheckAll, Pass;
  }

  lemma UsageRead(before: seq<Line>, line: Line)
    requires line.Data? && line.chunk.usage.Some?
    ensures LatestUsage(before + [line]) == line.chunk.usage
  {
    FoldSnoc(ReadLine, NOTHING_READ, before, line);
  }

  /** It happens: a stream that finishes with usage, says more, and finishes again ends twice. */
  lemma FinishedTwice(fin: Line, more: Line)
    requires HasFinish(fin) && fin.chunk.usage.Some? && !Closing(more)
    ensures !WellFormed(Run([fin] + [more] + [fin]).events)
  {
    UsageRead([], fin);
    CodaSnoc([], fin);
    assert [] + [fin] == [fin];
    CodaSnoc([fin], more);
    UsageRead([fin] + [more], fin);
    TooLateSnoc([fin] + [more], fin);
    hide Speaks, Opens, LatestUsage;
    assert TooLate([fin] + [more], fin);
    WellFormedIff([fin] + [more] + [fin]);
  }
}
