/** How an OpenAI stream ends after translation to Claude events. */
module ToClaudeTerminal {
  import opened Wire
  import opened Folds
  import opened Meaning
  import opened ToClaude
  import opened ToClaudeGrammar

  predicate Terminal(e: ClaudeEvent) { e.MessageDelta? || e.MessageStop? }

  predicate NoTerminal(events: seq<ClaudeEvent>) {
    forall e :: e in events ==> !Terminal(e)
  }

  predicate HasFinish(line: Line) {
    line.Data? && line.chunk.choice.Some? && line.chunk.choice.value.finishReason.Some?
  }

  /** What may follow the finish reason: usage chunks (no choices) and [DONE]. */
  predicate Closing(line: Line) { line.Done? || line.chunk.choice.None? }

  function LatestUsage(lines: seq<Line>): Option<Usage> { ReadLines(lines).usage }

  /** The fields that no delta changes. */
  function Steady(s: State): State {
    s.(blockIndex := 0, toolCallIndex := 0, started := true, toolId := None, block := None, oaiTool := -1)
  }

  /** Nothing but blocks and tool calls has moved, and no terminal event has come. */
  ghost predicate Quiet(o: Out, o': Out) {
    && Steady(o'.state) == Steady(o.state) && (o.state.started ==> o'.state.started)
    && (NoTerminal(o.events) ==> NoTerminal(o'.events))
  }

  lemma ToolQuiet(o: Out, td: ToolDelta)
    ensures Quiet(o, OnTool(o, td))
  {
  }

  lemma {:induction false} ToolsQuiet(o: Out, tds: seq<ToolDelta>)
    ensures Quiet(o, OnTools(o, tds))
  {
    if tds != [] {
      hide OnTool, NoTerminal;
      var n := |tds| - 1;
      ToolsQuiet(o, tds[..n]);
      ToolQuiet(OnTools(o, tds[..n]), tds[n]);
    }
  }

  lemma ProseQuiet(o: Out, text: string)
    ensures Quiet(o, OnReasoning(o, text)) && Quiet(o, OnText(o, text))
  {
  }

  lemma DeltaQuiet(o: Out, d: Delta)
    ensures Quiet(o, OnDelta(o, d))
  {
    hide OnReasoning, OnText, OnTools, NoTerminal;
    var r := OnReasoning(o, d.Reasoning());
    ProseQuiet(o, d.Reasoning());
    ToolsQuiet(r, d.toolCalls);
    ProseQuiet(OnTools(r, d.toolCalls), d.content);
  }

  lemma ChunkQuiet(o: Out, c: Chunk)
    requires c.choice.Some?
    ensures var n := o.(state := Noted(o.state, c));
            Quiet(n, OnDelta(Begun(n), c.choice.value.delta)) && OnDelta(Begun(n), c.choice.value.delta).state.started
  {
    hide OnDelta;
    var n := o.(state := Noted(o.state, c));
    DeltaQuiet(Begun(n), c.choice.value.delta);
    assert Quiet(n, Begun(n));
  }

  /** The usage on record is always the latest one read. */
  lemma {:induction false} UsageOnRecord(lines: seq<Line>)
    ensures Run(lines).state.usage == LatestUsage(lines)
  {
    if lines != [] {
      hide OnDelta, Begun;
      var n := |lines| - 1;
      UsageOnRecord(lines[..n]);
      if lines[n].Data? && lines[n].chunk.choice.Some? {
        ChunkQuiet(Run(lines[..n]), lines[n].chunk);
      }
    }
  }

  /** Before any finish reason no terminal event is owed or sent. */
  lemma {:induction false} NothingOwedBeforeFinish(lines: seq<Line>)
    requires forall line :: line in lines ==> !HasFinish(line)
    ensures var o := Run(lines); !o.state.finished && !o.state.stopped && NoTerminal(o.events)
  {
    if lines != [] {
      hide OnDelta, Begun;
      var n := |lines| - 1;
      NothingOwedBeforeFinish(lines[..n]);
      if lines[n].Data? && lines[n].chunk.choice.Some? {
        assert !HasFinish(lines[n]);
        ChunkQuiet(Run(lines[..n]), lines[n].chunk);
      }
    }
  }

  /** The translated message when its finish reason has been read: everything said, every block closed. */
  function Spoken(pre: seq<Line>, fin: Line): Out
    requires HasFinish(fin)
  {
    var o := Run(pre);
    Closed(OnDelta(Begun(o.(state := Noted(o.state, fin.chunk))), fin.chunk.choice.value.delta))
  }

  /** A message body with every block closed and no terminal event yet. */
  ghost predicate ClosedBody(body: seq<ClaudeEvent>) {
    NoTerminal(body) && CheckAll(body).Reading? && CheckAll(body).open.None?
  }

  /** The terminal events: one message_delta carrying `stop` and `tokens`, then one message_stop. */
  function Terminals(stop: string, tokens: nat): seq<ClaudeEvent> {
    [MessageDelta(Some(stop), Some(tokens)), MessageStop]
  }

  function Tokens(usage: Option<Usage>): nat {
    if usage.Some? then usage.value.completion else 0
  }

  /** After the finish reason `fr` the events are `body`, followed by the terminal events once those were sent. */
  ghost predicate Finished(o: Out, fr: string, body: seq<ClaudeEvent>, tokens: nat) {
    && o.state.finished && o.state.stopReason == Some(StopReasonOf(fr))
    && o.events == if o.state.stopped then body + Terminals(StopReasonOf(fr), tokens) else body
  }

  function FinishOf(fin: Line): string
    requires HasFinish(fin)
  {
    fin.chunk.choice.value.finishReason.value
  }

  lemma NotedKeepsFinish(s: State, c: Chunk)
    ensures var n := Noted(s, c);
            (n.finished <==> s.finished) && (n.stopped <==> s.stopped) && n.stopReason == s.stopReason
  {
  }

  lemma FinishReached(pre: seq<Line>, fin: Line)
    requires HasFinish(fin) && forall line :: line in pre ==> !HasFinish(line)
    ensures ClosedBody(Spoken(pre, fin).events)
    ensures var o, usage := Run(pre + [fin]), LatestUsage(pre + [fin]);
            Finished(o, FinishOf(fin), Spoken(pre, fin).events, Tokens(usage)) && (o.state.stopped <==> usage.Some?)
  {
    hide OnDelta, Begun, Noted, PassDelta;
    var c, cursor := fin.chunk, Pass(pre);
    FoldSnoc(OnLine, START, pre, fin);
    UsageOnRecord(pre + [fin]);
    NothingOwedBeforeFinish(pre);
    ChunkQuiet(Run(pre), c);
    RunInGrammar(pre);
    NotedInGrammar(Run(pre), cursor, c);
    NotedKeepsFinish(Run(pre).state, c);
    var n := Run(pre).(state := Noted(Run(pre).state, c));
    BegunInGrammar(n, cursor);
    DeltaInGrammar(Begun(n), cursor, c.choice.value.delta);
    var d := OnDelta(Begun(n), c.choice.value.delta);
    ClosedInGrammar(d, PassDelta(cursor, c.choice.value.delta));
  }

  /** The terminal events are sent exactly when usage was read by the finish or any line follows it.
      They then come last and once, after a body whose blocks are all closed, and carry the mapped stop
      reason and the latest usage read by the finish, or else by the line after it. */
  lemma StreamEnds(pre: seq<Line>, fin: Line, tail: seq<Line>)
    requires HasFinish(fin) && forall line :: line in pre ==> !HasFinish(line)
    requires forall line :: line in tail ==> Closing(line)
    ensures var events, body := Run(pre + [fin] + tail).events, Spoken(pre, fin).events;
            && ClosedBody(body)
            && events == if !Sent(pre, fin, tail) then body
                         else body + Terminals(StopReasonOf(FinishOf(fin)), Tokens(UsageInTime(pre, fin, tail)))
  {
    FinishReached(pre, fin);
    TailFinished(pre, fin, tail);
  }

  /** Usage was read by the finish, or some line follows it. */
  predicate Sent(pre: seq<Line>, fin: Line, tail: seq<Line>) {
    LatestUsage(pre + [fin]).Some? || tail != []
  }

  /** The usage known when the terminal events are sent. */
  function UsageInTime(pre: seq<Line>, fin: Line, tail: seq<Line>): Option<Usage> {
    if LatestUsage(pre + [fin]).Some? || tail == [] then LatestUsage(pre + [fin])
    else LatestUsage(pre + [fin] + tail[..1])
  }

  lemma {:induction false} TailFinished(pre: seq<Line>, fin: Line, tail: seq<Line>)
    requires HasFinish(fin) && forall line :: line in pre ==> !HasFinish(line)
    requires forall line :: line in tail ==> Closing(line)
    ensures var o := Run(pre + [fin] + tail);
            && Finished(o, FinishOf(fin), Spoken(pre, fin).events, Tokens(UsageInTime(pre, fin, tail)))
            && (o.state.stopped <==> Sent(pre, fin, tail))
  {
    hide Spoken, Noted, Fold, ReadLines;
    if tail == [] {
      assert pre + [fin] + tail == pre + [fin];
      FinishReached(pre, fin);
    } else {
      var n := |tail| - 1;
      TailFinished(pre, fin, tail[..n]);
      assert pre + [fin] + tail == pre + [fin] + tail[..n] + [tail[n]];
      FoldSnoc(OnLine, START, pre + [fin] + tail[..n], tail[n]);
      UsageOnRecord(pre + [fin] + tail);
      assert n > 0 ==> tail[..n][..1] == tail[..1];
      assert n == 0 ==> tail[..1] == tail;
      assert Closing(tail[n]);
      if tail[n].Data? {
        NotedKeepsFinish(Run(pre + [fin] + tail[..n]).state, tail[n].chunk);
      }
    }
  }

  /** It happens: a stream that stops at its finish reason, without usage, is never terminated. */
  lemma UnterminatedStream(fin: Line)
    requires HasFinish(fin) && fin.chunk.usage.None?
    ensures NoTerminal(Run([fin]).events)
  {
    StreamEnds([], fin, []);
    FoldSnoc(ReadLine, NOTHING_READ, [], fin);
    assert [] + [fin] == [fin] && [fin] + [] == [fin];
    hide Run, Spoken;
  }

  /** It happens: usage that comes with the second line after the finish is read, and not reported. */
  lemma LateUsageIsLost(fin: Line, quiet: Line, late: Line)
    requires HasFinish(fin) && fin.chunk.usage.None?
    requires quiet.Data? && Closing(quiet) && quiet.chunk.usage.None?
    requires late.Data? && Closing(late) && late.chunk.usage.Some?
    ensures LatestUsage([fin] + [quiet, late]) == late.chunk.usage
    ensures Run([fin] + [quiet, late]).events == Spoken([], fin).events + Terminals(StopReasonOf(FinishOf(fin)), 0)
  {
    StreamEnds([], fin, [quiet, late]);
    assert [] + [fin] == [fin];
    assert [quiet, late][..1] == [quiet];
    assert [fin] + [quiet, late] == [fin] + [quiet] + [late];
    FoldSnoc(ReadLine, NOTHING_READ, [], fin);
    FoldSnoc(ReadLine, NOTHING_READ, [fin], quiet);
    FoldSnoc(ReadLine, NOTHING_READ, [fin] + [quiet], late);
    hide Run, Spoken, Fold;
  }
}
