/** Translating an OpenAI stream to Claude events and translating the whole response agree. */
module OpenaiAgreement {
  import opened Wire
  import opened Folds
  import opened Meaning
  import opened Assembly
  import opened ToClaude
  import opened ToClaudeGrammar
  import opened ToClaudeTerminal
  import opened StreamOrder
  import opened BatchAgreement
  import RoundTrip
  import Responses

  // ---- the blocks of a finished stream ----

  lemma NumberedParts(a: seq<int>, b: seq<int>)
    requires Numbered(a + b)
    ensures Numbered(a) && Numbered(b)
  {
    assert forall x :: x in a || x in b ==> x in a + b;
  }

  lemma IndicesOfLast(lines: seq<Line>)
    requires lines != [] && Numbered(ToolIndices(lines))
    ensures Numbered(ToolIndices(lines[..|lines| - 1])) && Numbered(LineIndices(lines[|lines| - 1]))
  {
    hide LineIndices, Numbered;
    NumberedParts(ToolIndices(lines[..|lines| - 1]), LineIndices(lines[|lines| - 1]));
  }

  lemma {:induction false} RunUnderway(lines: seq<Line>)
    requires Numbered(ToolIndices(lines)) && forall line :: line in lines ==> !HasFinish(line)
    ensures Underway(Run(lines), Rank(lines))
  {
    if lines != [] {
      hide Ordered, OnDelta, Begun, RankDelta, Noted, NoTerminal, Numbered;
      var n, line := |lines| - 1, lines[|lines| - 1];
      IndicesOfLast(lines);
      RunUnderway(lines[..n]);
      NothingOwedBeforeFinish(lines[..n]);
      var o, rank := Run(lines[..n]), Rank(lines[..n]);
      assert !HasFinish(line);
      if line.Data? {
        NotedUnderway(o, rank, line.chunk);
        NotedKeepsFinish(o.state, line.chunk);
        if line.chunk.choice.Some? {
          ChunkOrdered(o, rank, line.chunk, line.chunk.choice.value.delta);
          ChunkQuiet(o, line.chunk);
        }
      }
    } else {
      assert Run(lines) == START && Rank(lines) == 0;
    }
  }

  /** The client's draft once the whole message has been said and its last block closed. */
  ghost predicate Settled(d: Draft, rank: nat) {
    if d.phase.Rejected? then rank == OUT_OF_ORDER
    else d.phase.Building? && d.open.None? && NoEmptyProse(d.closed) && (Sorted(d.closed) <==> rank < OUT_OF_ORDER)
  }

  lemma SpokenSettled(pre: seq<Line>, fin: Line)
    requires HasFinish(fin) && forall line :: line in pre ==> !HasFinish(line)
    requires Numbered(ToolIndices(pre + [fin]))
    ensures Settled(Drafted(Spoken(pre, fin).events), Rank(pre + [fin]))
  {
    hide OnDelta, Begun, RankDelta, Noted, Numbered;
    assert (pre + [fin])[..|pre|] == pre;
    IndicesOfLast(pre + [fin]);
    RunUnderway(pre);
    ChunkOrdered(Run(pre), Rank(pre), fin.chunk, fin.chunk.choice.value.delta);
    var d := OnDelta(Begun(Run(pre).(state := Noted(Run(pre).state, fin.chunk))), fin.chunk.choice.value.delta);
    StreamOrder.Emitted(d, BlockStop(d.state.blockIndex));
  }

  lemma ClosingLine(lines: seq<Line>, line: Line)
    requires Closing(line)
    ensures Rank(lines + [line]) == Rank(lines) && ToolIndices(lines + [line]) == ToolIndices(lines)
    ensures ReadLines(lines + [line]) == ReadLines(lines).(usage := LatestUsage(lines + [line]))
  {
    FoldSnoc(RankLine, 0, lines, line);
    FoldSnoc(ReadLine, NOTHING_READ, lines, line);
    assert (lines + [line])[..|lines|] == lines;
  }

  lemma {:induction false} ClosingLines(lines: seq<Line>, tail: seq<Line>)
    requires forall line :: line in tail ==> Closing(line)
    ensures Rank(lines + tail) == Rank(lines) && ToolIndices(lines + tail) == ToolIndices(lines)
    ensures ReadLines(lines + tail) == ReadLines(lines).(usage := LatestUsage(lines + tail))
    decreases |tail|
  {
    if tail == [] {
      assert lines + tail == lines;
    } else {
      hide *;
      var next, rest := lines + [tail[0]], tail[1..];
      assert lines + tail == next + rest;
      ClosingLine(lines, tail[0]);
      ClosingLines(next, rest);
    }
  }

  lemma TerminatedDraft(body: seq<ClaudeEvent>, stop: string, tokens: nat)
    ensures var d, d' := Drafted(body), Drafted(body + Terminals(stop, tokens));
            if d.phase.Building? && d.open.None?
            then d' == d.(phase := Complete, stop := Some(stop), output := tokens)
            else !d'.phase.Complete?
  {
    var delta := MessageDelta(Some(stop), Some(tokens));
    assert body + Terminals(stop, tokens) == body + [delta] + [MessageStop];
    FoldSnoc(Assemble, BLANK, body, delta);
    FoldSnoc(Assemble, BLANK, body + [delta], MessageStop);
  }

  // ---- blocks in order, as the batch translator writes them ----

  lemma SortedSplit(blocks: seq<Raw>, b: Raw)
    requires Sorted(blocks + [b])
    ensures Sorted(blocks)
    ensures b.RawThinking? ==> blocks == []
    ensures b.RawText? ==> blocks == [] || (|blocks| == 1 && blocks[0].RawThinking?)
  {
    var all := blocks + [b];
    assert forall i :: 0 <= i < |blocks| ==> all[i] == blocks[i];
    assert all[|blocks|] == b;
    assert |blocks| > 0 ==> Order(all[0]) < Order(b) || Order(b) == 3;
    assert |blocks| > 1 ==> Order(all[0]) < Order(all[1]) || Order(all[1]) == 3;
    assert |blocks| > 1 ==> Order(all[1]) < Order(b) || Order(b) == 3;
  }

  /** Appending one raw block to the content the batch translator would write. */
  lemma BlocksSnoc(parse: string -> Option<Json>, thinking: string, text: string, calls: seq<ToolCall>, b: Raw)
    requires ParsesJson(parse) && NoEmptyProse([b])
    requires !b.RawTool? ==> calls == [] && text == ""
    requires b.RawThinking? ==> thinking == ""
    ensures Responses.Blocks(parse, thinking + ThinkingPart(b), text + TextPart(b), calls + CallPart(b))
         == Responses.Blocks(parse, thinking, text, calls) + [Block(parse, b)]
  {
    assert b in [b];
    assert "" + TextPart(b) == TextPart(b) && "" + ThinkingPart(b) == ThinkingPart(b);
    assert text + "" == text && thinking + "" == thinking;
    if b.RawTool? {
      ToolUsesSnoc(parse, calls, b);
    } else {
      var none: seq<ToolCall> := [];
      assert Responses.ToolUses(parse, none) == [] && calls + CallPart(b) == none;
      assert Responses.Blocks(parse, thinking, text, none) == if thinking == "" then [] else [Thinking(thinking)];
      if b.RawText? {
        assert Responses.Blocks(parse, thinking, b.text, none)
            == (if thinking == "" then [] else [Thinking(thinking)]) + [Text(b.text)];
      } else {
        assert Responses.Blocks(parse, b.thinking, text, none) == [Thinking(b.thinking)];
      }
    }
  }

  lemma SortedContentSnoc(parse: string -> Option<Json>, init: seq<Raw>, b: Raw)
    requires ParsesJson(parse) && Sorted(init + [b]) && NoEmptyProse([b])
    requires Content(parse, init) == Responses.Blocks(parse, ThinkingIn(init), TextIn(init), CallsIn(init))
    ensures Content(parse, init + [b])
         == Responses.Blocks(parse, ThinkingIn(init + [b]), TextIn(init + [b]), CallsIn(init + [b]))
  {
    assert ThinkingIn([]) == "" && TextIn([]) == "" && CallsIn([]) == [];
    if |init| == 1 {
      assert init == [] + [init[0]];
      LastBlock([], init[0]);
    }
    SortedSplit(init, b);
    LastBlock(init, b);
    assert Content(parse, init + [b]) == Content(parse, init) + [Block(parse, b)];
    hide Responses.Blocks, Block, Content, Gather;
    BlocksSnoc(parse, ThinkingIn(init), TextIn(init), CallsIn(init), b);
  }

  lemma {:induction false} SortedContent(parse: string -> Option<Json>, blocks: seq<Raw>)
    requires ParsesJson(parse) && Sorted(blocks) && NoEmptyProse(blocks)
    ensures Content(parse, blocks) == Responses.Blocks(parse, ThinkingIn(blocks), TextIn(blocks), CallsIn(blocks))
  {
    if blocks == [] {
      assert ThinkingIn([]) == "" && TextIn([]) == "" && CallsIn([]) == [];
    } else {
      var n, b := |blocks| - 1, blocks[|blocks| - 1];
      var init := blocks[..n];
      assert blocks == init + [b] && b in blocks && NoEmptyProse(init) && NoEmptyProse([b]) by { hide Sorted; }
      hide *;
      SortedSplit(init, b);
      SortedContent(parse, init);
      SortedContentSnoc(parse, init, b);
    }
  }

  lemma ToolUsesSnoc(parse: string -> Option<Json>, calls: seq<ToolCall>, b: Raw)
    requires ParsesJson(parse) && b.RawTool?
    ensures Responses.ToolUses(parse, calls + [ToolCall(b.id, b.name, b.json)])
            == Responses.ToolUses(parse, calls) + [Block(parse, b)]
  {
  }

  // ---- the two translations ----

  /** The stream said something at all. */
  predicate SaysSomething(m: OpenaiMessage) {
    m.content.GetOr("") != "" || Responses.ReasoningOf(m) != "" || m.toolCalls != []
  }

  /** Everything about a finished stream that the comparison needs. */
  lemma FinishedStream(pre: seq<Line>, fin: Line, tail: seq<Line>)
    requires HasFinish(fin) && forall line :: line in pre ==> !HasFinish(line)
    requires forall line :: line in tail ==> Closing(line)
    requires Sent(pre, fin, tail) && Numbered(ToolIndices(pre + [fin]))
    ensures var d, t := Drafted(Run(pre + [fin] + tail).events), ReadLines(pre + [fin] + tail);
            && (d.phase.Complete? ==>
                  && d.stop == Some(StopReasonOf(FinishOf(fin))) && d.output == Tokens(UsageInTime(pre, fin, tail))
                  && NoEmptyProse(d.closed) && (Sorted(d.closed) <==> InOrder(pre + [fin] + tail))
                  && TextIn(d.closed) == t.text && ThinkingIn(d.closed) == t.reasoning
                  && if Contiguous(ToolIndices(pre + [fin] + tail)) then CallsIn(d.closed) == t.Calls()
                     else |CallsIn(d.closed)| > |t.Calls()|)
            && (!d.phase.Complete? ==> !InOrder(pre + [fin] + tail))
            && t.finish == Some(FinishOf(fin))
  {
    hide Spoken, Sorted, NoEmptyProse, Contiguous, Sent;
    StreamEnds(pre, fin, tail);
    SpokenSettled(pre, fin);
    ClosingLines(pre + [fin], tail);
    TerminatedDraft(Spoken(pre, fin).events, StopReasonOf(FinishOf(fin)), Tokens(UsageInTime(pre, fin, tail)));
    FoldSnoc(ReadLine, NOTHING_READ, pre, fin);
    var lines := pre + [fin] + tail;
    if Drafted(Run(lines).events).phase.Complete? {
      DraftAgrees(Run(lines).events);
      ToClaudeGrammar.EveryRunIsGrammatical(lines);
      EmptyHeads(Run(lines).events);
      RoundTrip.RunTold(lines);
    }
  }

  lemma {:induction false} EmptyHeads(events: seq<ClaudeEvent>)
    requires !CheckAll(events).Broken?
    ensures HeadText(events) == 0 && HeadThinking(events) == 0
  {
    if events != [] {
      EmptyHeads(events[..|events| - 1]);
    }
  }

  lemma BatchOrder(parse: string -> Option<Json>, reasoning: string, text: string, calls: seq<ToolCall>)
    ensures var b := Responses.Blocks(parse, reasoning, text, calls);
            && (b == [] <==> reasoning == "" && text == "" && calls == [])
            && (forall i :: 0 <= i < |b| ==> (b[i].Thinking? ==> i == 0))
            && (forall i :: 0 <= i < |b| ==> (b[i].Text? ==> i == 0 || (i == 1 && b[0].Thinking?)))
  {
    assert |Responses.ToolUses(parse, calls)| == |calls|;
  }

  /** Finished blocks have the batch translator's content exactly when they are in its order, something
      was said, and they hold the same tool calls. */
  lemma SameContent(parse: string -> Option<Json>, blocks: seq<Raw>, reasoning: string, text: string,
                    calls: seq<ToolCall>)
    requires ParsesJson(parse) && NoEmptyProse(blocks)
    requires TextIn(blocks) == text && ThinkingIn(blocks) == reasoning
    requires CallsIn(blocks) == calls || |CallsIn(blocks)| > |calls|
    ensures var batch := Responses.Blocks(parse, reasoning, text, calls);
            Content(parse, blocks) == (if batch == [] then [Text("")] else batch) <==>
            Sorted(blocks) && CallsIn(blocks) == calls && (reasoning != "" || text != "" || calls != [])
  {
    hide Responses.Blocks;
    var batch, content := Responses.Blocks(parse, reasoning, text, calls), Content(parse, blocks);
    BatchOrder(parse, reasoning, text, calls);
    assert forall i :: 0 <= i < |content| ==> content[i] == Block(parse, blocks[i]);
    if content == [Text("")] {
      assert blocks[0] in blocks && content[0] == Text("");
    }
    if content == batch {
      ContentSays(parse, blocks);
      Responses.BlocksSay(parse, reasoning, text, calls);
    }
    if Sorted(blocks) {
      SortedContent(parse, blocks);
    }
  }

  /** OpenAI to Claude, for every stream that ends and whose tool indices are small and not negative:
      the message assembled from the events has the content of the translated whole response exactly
      when reasoning, text and tool calls come in that order, no tool index is returned to, something is
      said, and every tool call's arguments are empty or parse.  Its stop reason is always the same, and
      its output count is exactly when no later usage than the one in time says otherwise. */
  lemma OpenaiStreamAgreesWithBatch(parse: string -> Option<Json>, pre: seq<Line>, fin: Line, tail: seq<Line>)
    requires ParsesJson(parse)
    requires HasFinish(fin) && forall line :: line in pre ==> !HasFinish(line)
    requires forall line :: line in tail ==> Closing(line)
    requires Sent(pre, fin, tail) && Numbered(ToolIndices(pre + [fin]))
    ensures var lines := pre + [fin] + tail;
            var heard := Heard(ReadLines(lines));
            var message, batch := MessageOf(parse, Run(lines).events), Responses.ClaudeResponseOf(parse, heard);
            && (message.Some? && message.value.content == batch.content <==>
                  && InOrder(lines) && Contiguous(ToolIndices(lines))
                  && SaysSomething(heard) && Readable(parse, heard.toolCalls))
            && (message.Some? ==> message.value.stopReason == batch.stopReason)
            && (message.Some? ==>
                  (message.value.outputTokens == batch.outputTokens <==>
                   Tokens(UsageInTime(pre, fin, tail)) == Tokens(LatestUsage(lines))))
  {
    hide Run, Contiguous, Sorted, CheckAll, Sent;
    FinishedStream(pre, fin, tail);
    var lines := pre + [fin] + tail;
    var d, heard := Drafted(Run(lines).events), Heard(ReadLines(lines));
    assert Responses.ReasoningOf(heard) == ReadLines(lines).reasoning;
    ParseableCalls(parse, d.closed);
    if d.phase.Complete? {
      SameContent(parse, d.closed, ReadLines(lines).reasoning, ReadLines(lines).text, heard.toolCalls);
    }
  }

  lemma NothingSpoken(fin: Line)
    requires HasFinish(fin) && fin.chunk.choice.value.delta == NO_DELTA
    ensures Drafted(Spoken([], fin).events) == BLANK.(phase := Building)
  {
    var n := START.(state := Noted(START.state, fin.chunk));
    hide Noted, OnFinish, Assemble;
    assert OnDelta(Begun(n), NO_DELTA) == Begun(n);
    var first := MessageStart(Some(n.state.messageId), Some(n.state.model), Some(0));
    assert Spoken([], fin).events == [] + [first];
    hide Spoken, OnDelta, Begun;
    FoldSnoc(Assemble, BLANK, [], first);
    MessageStarts(first);
  }

  lemma MessageStarts(first: ClaudeEvent)
    requires first.MessageStart? && first.inputTokens == Some(0)
    ensures Assemble(BLANK, first) == BLANK.(phase := Building)
  {
  }

  lemma NothingHeard(parse: string -> Option<Json>, fin: Line)
    requires HasFinish(fin) && fin.chunk.choice.value.delta == NO_DELTA
    ensures Responses.ClaudeResponseOf(parse, Heard(ReadLines([fin] + [Done]))).content == [Text("")]
  {
    FoldSnoc(ReadLine, NOTHING_READ, [], fin);
    FoldSnoc(ReadLine, NOTHING_READ, [fin], Done);
    assert [] + [fin] == [fin];
    var t := ReadLines([fin] + [Done]);
    assert t.text == "" && t.reasoning == "" && t.Calls() == [];
    hide ReadLines, Responses.Blocks;
    BatchOrder(parse, "", "", []);
  }

  lemma EmptyMessage(parse: string -> Option<Json>, events: seq<ClaudeEvent>)
    requires Drafted(events).phase.Complete? && Drafted(events).closed == []
    ensures var message := MessageOf(parse, events); message.Some? && message.value.content == []
  {
    hide Drafted;
  }

  /** It happens: a stream that says nothing assembles to no block at all, where the whole response has one. */
  lemma SilentStream(parse: string -> Option<Json>, fin: Line)
    requires HasFinish(fin) && fin.chunk.choice.value.delta == NO_DELTA
    ensures var lines := [fin] + [Done];
            var message := MessageOf(parse, Run(lines).events);
            && message.Some? && message.value.content == []
            && Responses.ClaudeResponseOf(parse, Heard(ReadLines(lines))).content == [Text("")]
  {
    assert [] + [fin] + [Done] == [fin] + [Done];
    var body, stop, tokens := Spoken([], fin).events, StopReasonOf(FinishOf(fin)), Tokens(UsageInTime([], fin, [Done]));
    assert Sent([], fin, [Done]) && Closing(Done);
    NothingHeard(parse, fin);
    hide *;
    NothingSpoken(fin);
    StreamEnds([], fin, [Done]);
    TerminatedDraft(body, stop, tokens);
    EmptyMessage(parse, Run([fin] + [Done]).events);
  }
}
