/** What a client makes of a stream: two readers written independently of the
    translating machines, one for OpenAI chunks and one for Claude events. */
module Meaning {
  import opened Wire
  import opened Folds

  // ---- reading an OpenAI stream ----

  /** A tool call being collected under its index. */
  datatype Slot = Slot(index: int, call: ToolCall)

  datatype Tally = Tally(reasoning: string, text: string, slots: seq<Slot>,
                         finish: Option<string>, usage: Option<Usage>)
  {
    function Calls(): (r: seq<ToolCall>)
      ensures |r| == |slots|
    {
      seq(|slots|, i requires 0 <= i < |slots| => slots[i].call)
    }
  }

  const NOTHING_READ := Tally("", "", [], None, None)

  function IndexOf(td: ToolDelta): int { td.index.GetOr(0) }

  /** The position of the call collected under `index`, or |slots| when there is none. */
  function Find(slots: seq<Slot>, index: int): (r: nat)
    ensures r <= |slots|
    ensures forall i :: 0 <= i < r ==> slots[i].index != index
    ensures r < |slots| ==> slots[r].index == index
  {
    if slots == [] || slots[0].index == index then 0 else 1 + Find(slots[1..], index)
  }

  /** Arguments go to the call with the same index; an unseen index starts a new call. */
  function Collect(slots: seq<Slot>, td: ToolDelta): seq<Slot> {
    var i := Find(slots, IndexOf(td));
    if i == |slots| then slots + [Slot(IndexOf(td), ToolCall(td.id, td.name, td.arguments))]
    else slots[i := slots[i].(call := slots[i].call.(arguments := slots[i].call.arguments + td.arguments))]
  }

  /** Reasoning comes under either of two names; `reasoning_content` is read first. */
  function ReasoningIn(d: Delta): string {
    match (d.reasoningContent, d.reasoning)
    case (Some(r), _) => r
    case (None, Some(r)) => r
    case (None, None) => ""
  }

  function ReadChunk(t: Tally, c: Chunk): Tally {
    var t := if c.usage.Some? then t.(usage := c.usage) else t;
    if c.choice.None? then t
    else
      var d := c.choice.value.delta;
      var f := c.choice.value.finishReason;
      t.(reasoning := t.reasoning + ReasoningIn(d), text := t.text + d.content,
         slots := Fold(Collect, t.slots, d.toolCalls), finish := if f.Some? then f else t.finish)
  }

  function ReadLine(t: Tally, line: Line): Tally {
    if line.Done? then t else ReadChunk(t, line.chunk)
  }

  function ReadLines(lines: seq<Line>): Tally { Fold(ReadLine, NOTHING_READ, lines) }

  /** The tool indices of a stream's tool deltas, in order. */
  function Indices(tds: seq<ToolDelta>): seq<int> { seq(|tds|, i requires 0 <= i < |tds| => IndexOf(tds[i])) }

  function LineIndices(line: Line): seq<int> {
    match line
    case Data(Chunk(_, _, _, Some(choice))) => Indices(choice.delta.toolCalls)
    case _ => []
  }

  function ToolIndices(lines: seq<Line>): seq<int> {
    if lines == [] then [] else ToolIndices(lines[..|lines| - 1]) + LineIndices(lines[|lines| - 1])
  }

  /** Every tool index appears in one uninterrupted run: none is returned to after another. */
  predicate Contiguous(indices: seq<int>) {
    |indices| <= 1 ||
    var n := |indices| - 1;
    Contiguous(indices[..n]) && (indices[n] == indices[n - 1] || indices[n] !in indices[..n])
  }

  /** Tool indices as the OpenAI API hands them out: small and not negative. */
  predicate Numbered(indices: seq<int>) {
    forall x :: x in indices ==> 0 <= x < 0x8000_0000
  }

  // ---- reading a Claude stream ----

  /** Deltas are credited by their own type, tool input to the latest tool call. */
  datatype Gist = Gist(reasoning: string, text: string, calls: seq<ToolCall>,
                       stop: Option<string>, input: nat, output: nat,
                       finish: Option<string>, usage: Option<Usage>)

  const NO_GIST := Gist("", "", [], None, 0, 0, None, None)

  function ReadPiece(g: Gist, p: Piece): Gist {
    match p
    case TextPiece(t) => g.(text := g.text + t)
    case ThinkingPiece(t) => g.(reasoning := g.reasoning + t)
    case InputPiece(p) =>
      if g.calls == [] then g
      else
        var n := |g.calls| - 1;
        g.(calls := g.calls[n := g.calls[n].(arguments := g.calls[n].arguments + p)])
    case _ => g
  }

  function ReadEvent(g: Gist, e: ClaudeEvent): Gist {
    match e
    case MessageStart(_, _, tokens) => g.(input := tokens.GetOr(g.input))
    case BlockStart(_, ToolHead(id, name)) => g.(calls := g.calls + [ToolCall(id, name, "")])
    case BlockDelta(_, p) => ReadPiece(g, p)
    case MessageDelta(stop, tokens) =>
      g.(stop := if stop.Some? then stop else g.stop, output := tokens.GetOr(g.output))
    case MessageStop =>
      g.(finish := Some(FinishReasonOf(g.stop.GetOr("end_turn"))),
         usage := if g.input > 0 || g.output > 0 then Some(Usage(g.input, g.output)) else g.usage)
    case _ => g
  }

  function ReadEvents(events: seq<ClaudeEvent>): Gist { Fold(ReadEvent, NO_GIST, events) }
}
