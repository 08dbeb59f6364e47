/** The order in which an OpenAI stream brings reasoning, text and tool calls, and what it does to
    the blocks of the translated stream. */
module StreamOrder {
  import opened Wire
  import opened Folds
  import opened Meaning
  import opened Assembly
  import opened ToClaude

  // ---- order of the input ----

  const OUT_OF_ORDER := 4

  /** 1: reasoning, 2: text, 3: tool calls were read last; 4: something came too late. */
  function RankDelta(rank: nat, d: Delta): nat {
    var r := if ReasoningIn(d) == "" then rank else if rank <= 1 then 1 else OUT_OF_ORDER;
    var t := if d.toolCalls == [] then r else if r <= 3 then 3 else OUT_OF_ORDER;
    if d.content == "" then t else if t <= 2 then 2 else OUT_OF_ORDER
  }

  function RankLine(rank: nat, line: Line): nat {
    if line.Done? || line.chunk.choice.None? then rank else RankDelta(rank, line.chunk.choice.value.delta)
  }

  function Rank(lines: seq<Line>): nat { Fold(RankLine, 0, lines) }

  /** Reasoning comes before text, text before tool calls. */
  predicate InOrder(lines: seq<Line>) { Rank(lines) < OUT_OF_ORDER }

  // ---- order of the blocks ----

  function Order(raw: Raw): nat {
    match raw
    case RawThinking(_) => 1
    case RawText(_) => 2
    case RawTool(_, _, _) => 3
  }

  /** At most one thinking block, then at most one text block, then tool calls. */
  predicate Sorted(blocks: seq<Raw>) {
    forall i, j :: 0 <= i < j < |blocks| ==>
                     Order(blocks[i]) < Order(blocks[j]) || Order(blocks[i]) == Order(blocks[j]) == 3
  }

  predicate NoEmptyProse(blocks: seq<Raw>) {
    forall b :: b in blocks ==> (b.RawText? ==> b.text != "") && (b.RawThinking? ==> b.thinking != "")
  }

  function LastOrder(blocks: seq<Raw>): nat { if blocks == [] then 0 else Order(blocks[|blocks| - 1]) }

  function KindOf(raw: Raw): BlockKind {
    match raw
    case RawThinking(_) => ThinkingKind
    case RawText(_) => TextKind
    case RawTool(_, _, _) => ToolKind
  }

  /** The machine and the assembling client agree on the block under construction. */
  ghost predicate InStep(o: Out, d: Draft) {
    && d.phase.Building? && |d.closed| == o.state.blockIndex
    && o.state.block == (if d.open.Some? then Some(KindOf(d.open.value)) else None)
  }

  /** The rank read off the blocks. */
  ghost predicate Ranked(d: Draft, rank: nat) {
    && rank <= OUT_OF_ORDER && NoEmptyProse(d.Blocks())
    && (Sorted(d.Blocks()) <==> rank < OUT_OF_ORDER)
    && (rank < OUT_OF_ORDER ==> rank == LastOrder(d.Blocks()) && (rank > 0 ==> d.open.Some?))
  }

  ghost predicate Ordered(o: Out, rank: nat) {
    var d := Drafted(o.events);
    && (rank < 3 ==> o.state.oaiTool == -1)
    && if d.phase.Rejected? then rank == OUT_OF_ORDER else InStep(o, d) && Ranked(d, rank)
  }

  // ---- what the client sees of each operation ----

  lemma Emitted(o: Out, e: ClaudeEvent)
    ensures Drafted(o.Emit(e).events) == Assemble(Drafted(o.events), e)
  {
    FoldSnoc(Assemble, BLANK, o.events, e);
  }

  lemma OpenedDraft(o: Out, kind: BlockKind, head: BlockHead)
    requires RawOf(head).Some? && KindOf(RawOf(head).value) == kind
    ensures var d, p := Drafted(o.events), Opened(o, kind, head);
            && (d.phase.Rejected? ==> Drafted(p.events).phase.Rejected?)
            && (InStep(o, d) ==>
                  && Drafted(p.events) == d.(closed := d.Blocks(), open := RawOf(head))
                  && InStep(p, Drafted(p.events)))
  {
    hide Drafted;
    Emitted(o, BlockStop(o.state.blockIndex));
    Emitted(Closed(o), BlockStart(Closed(o).state.blockIndex, head));
  }

  lemma PieceDraft(o: Out, piece: Piece)
    requires !piece.SignaturePiece? && !piece.OtherPiece?
    ensures var d, p := Drafted(o.events), Piecewise(o, piece);
            && (d.phase.Rejected? ==> Drafted(p.events).phase.Rejected?)
            && (InStep(o, d) ==>
                  if d.open.Some? && Grown(d.open.value, piece).Some?
                  then Drafted(p.events) == d.(open := Grown(d.open.value, piece)) && InStep(p, Drafted(p.events))
                  else Drafted(p.events).phase.Rejected?)
  {
    hide Drafted;
    Emitted(o, BlockDelta(o.state.blockIndex, piece));
  }

  // ---- what each operation does to the order ----

  lemma SortedSnoc(blocks: seq<Raw>, b: Raw)
    ensures Sorted(blocks + [b]) <==>
            Sorted(blocks) && (LastOrder(blocks) < Order(b) || LastOrder(blocks) == Order(b) == 3)
  {
    var all, n := blocks + [b], |blocks|;
    assert forall i :: 0 <= i < n ==> all[i] == blocks[i];
    assert all[n] == b;
    if n > 0 {
      assert Sorted(all) ==> Order(all[n - 1]) < Order(all[n]) || Order(all[n - 1]) == Order(all[n]) == 3;
      assert Sorted(blocks) ==>
        forall i :: 0 <= i < n - 1 ==>
                      Order(blocks[i]) < Order(blocks[n - 1]) || Order(blocks[i]) == Order(blocks[n - 1]) == 3;
    }
  }

  lemma NewBlockRanked(d: Draft, rank: nat, b: Raw)
    requires Ranked(d, rank) && NoEmptyProse([b])
    ensures Ranked(d.(closed := d.Blocks(), open := Some(b)),
                   if rank < Order(b) || rank == Order(b) == 3 then Order(b) else OUT_OF_ORDER)
  {
    SortedSnoc(d.Blocks(), b);
    assert [b][0] == b;
  }

  lemma GrownBlockRanked(d: Draft, rank: nat, b: Raw)
    requires Ranked(d, rank) && d.open.Some? && KindOf(b) == KindOf(d.open.value) && NoEmptyProse([b])
    ensures Ranked(d.(open := Some(b)), rank)
  {
    SortedSnoc(d.closed, d.open.value);
    SortedSnoc(d.closed, b);
    assert forall c :: c in d.closed ==> c in d.Blocks();
    assert [b][0] == b;
  }

  function ProseRank(rank: nat, k: nat): nat { if rank <= k then k else OUT_OF_ORDER }

  lemma ProseOrdered(o: Out, rank: nat, kind: BlockKind, text: string)
    requires Ordered(o, rank) && text != "" && !kind.ToolKind?
    ensures if kind.ThinkingKind? then Ordered(OnReasoning(o, text), ProseRank(rank, 1))
            else Ordered(OnText(o, text), ProseRank(rank, 2))
  {
    hide Ranked, Opened, Assemble, Drafted;
    var head := if kind.ThinkingKind? then ThinkingHead("") else TextHead("");
    var piece := if kind.ThinkingKind? then ThinkingPiece(text) else TextPiece(text);
    var block := if kind.ThinkingKind? then RawThinking(text) else RawText(text);
    var d := Drafted(o.events);
    OpenedDraft(o, kind, head);
    OpenedKeepsTool(o, kind, head);
    PieceDraft(o, piece);
    PieceDraft(Opened(o, kind, head), piece);
    if !d.phase.Rejected? {
      assert "" + text == text;
      RankedOrders(d, rank);
      if o.state.block == Some(kind) {
        GrownBlockRanked(d, rank, Grown(d.open.value, piece).value);
      } else {
        NewBlockRanked(d, rank, block);
      }
    }
  }

  lemma OpenedKeepsTool(o: Out, kind: BlockKind, head: BlockHead)
    ensures Opened(o, kind, head).state.oaiTool == o.state.oaiTool
  {
  }

  /** In order, the open block is the one the rank names. */
  lemma RankedOrders(d: Draft, rank: nat)
    requires Ranked(d, rank)
    ensures rank <= OUT_OF_ORDER
    ensures rank < OUT_OF_ORDER && d.open.Some? ==> rank == Order(d.open.value)
    ensures rank < OUT_OF_ORDER && d.open.None? ==> rank == 0
  {
  }

  lemma ToolOrdered(o: Out, rank: nat, td: ToolDelta)
    requires Ordered(o, rank) && ToolIndex(td) != -1
    ensures Ordered(OnTool(o, td), ProseRank(rank, 3))
  {
    hide Ranked, Opened, Assemble, Drafted;
    var head, piece := ToolHead(td.id, td.name), InputPiece(td.arguments);
    var d := Drafted(o.events);
    OpenedDraft(o, ToolKind, head);
    PieceDraft(o, piece);
    PieceDraft(ToolOpened(o, td), piece);
    if !d.phase.Rejected? {
      RankedOrders(d, rank);
      if ToolIndex(td) == o.state.oaiTool {
        if d.open.Some? && d.open.value.RawTool? {
          GrownBlockRanked(d, rank, Grown(d.open.value, piece).value);
        }
      } else {
        NewBlockRanked(d, rank, RawTool(td.id, td.name, ""));
        NewBlockRanked(d, rank, RawTool(td.id, td.name, "" + td.arguments));
      }
    }
  }

  // ---- whole streams ----

  lemma {:induction false} ToolsOrdered(o: Out, rank: nat, tds: seq<ToolDelta>)
    requires Ordered(o, rank) && forall td :: td in tds ==> ToolIndex(td) != -1
    ensures Ordered(OnTools(o, tds), if tds == [] then rank else ProseRank(rank, 3))
  {
    if tds != [] {
      hide Ordered, OnTool;
      var n := |tds| - 1;
      ToolsOrdered(o, rank, tds[..n]);
      ToolOrdered(OnTools(o, tds[..n]), if n == 0 then rank else ProseRank(rank, 3), tds[n]);
    }
  }

  lemma DeltaOrdered(o: Out, rank: nat, d: Delta)
    requires Ordered(o, rank) && Numbered(Indices(d.toolCalls))
    ensures Ordered(OnDelta(o, d), RankDelta(rank, d))
  {
    hide Ordered, OnTools;
    forall td | td in d.toolCalls ensures ToolIndex(td) != -1 {
      var i :| 0 <= i < |d.toolCalls| && d.toolCalls[i] == td;
      assert Indices(d.toolCalls)[i] in Indices(d.toolCalls);
    }
    if ReasoningIn(d) != "" {
      ProseOrdered(o, rank, ThinkingKind, ReasoningIn(d));
    }
    var r := OnReasoning(o, ReasoningIn(d));
    var k := if ReasoningIn(d) == "" then rank else ProseRank(rank, 1);
    ToolsOrdered(r, k, d.toolCalls);
    if d.content != "" {
      ProseOrdered(OnTools(r, d.toolCalls), if d.toolCalls == [] then k else ProseRank(k, 3), TextKind, d.content);
    }
  }

  /** Until the finish reason: nothing said yet, or a message in order up to the rank. */
  ghost predicate Underway(o: Out, rank: nat) {
    if o.state.started then Ordered(o, rank)
    else o.events == [] && rank == 0 && o.state.block.None? && o.state.blockIndex == 0 && o.state.oaiTool == -1
  }

  lemma BegunOrdered(o: Out, rank: nat)
    requires Underway(o, rank)
    ensures Ordered(Begun(o), rank)
  {
    Emitted(o, MessageStart(Some(o.state.messageId), Some(o.state.model), Some(0)));
  }

  lemma NotedUnderway(o: Out, rank: nat, c: Chunk)
    requires Underway(o, rank)
    ensures Underway(o.(state := Noted(o.state, c)), rank)
  {
  }

  lemma ChunkOrdered(o: Out, rank: nat, c: Chunk, d: Delta)
    requires Underway(o, rank) && Numbered(Indices(d.toolCalls))
    ensures Ordered(OnDelta(Begun(o.(state := Noted(o.state, c))), d), RankDelta(rank, d))
  {
    hide Ordered, OnDelta, Begun, Noted, RankDelta, Underway;
    NotedUnderway(o, rank, c);
    var n := o.(state := Noted(o.state, c));
    BegunOrdered(n, rank);
    DeltaOrdered(Begun(n), rank, d);
  }
}
