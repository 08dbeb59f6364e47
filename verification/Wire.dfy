/** The two wire formats, reduced to the JSON fields the translators read. */
module Wire {
  // Every reader in the translators takes a missing or mistyped string field as "", so such fields are plain strings
  // here.  `Option` is kept where absence matters.  A JSON value that is passed around whole (a tool input) is
  // represented by the compact text that serialising it yields.

  datatype Option<+T> = None | Some(value: T) {
    function GetOr(default: T): T {
      if Some? then value else default
    }
  }

  /** The text of a serialised JSON value. */
  type Json = string

  datatype Usage = Usage(prompt: nat, completion: nat)

  datatype ToolCall = ToolCall(id: string, name: string, arguments: string)

  // ---- OpenAI streaming ----

  datatype ToolDelta = ToolDelta(index: Option<int>, id: string, name: string, arguments: string)

  /** `role` says that the delta announces the assistant. */
  datatype Delta = Delta(role: bool, reasoningContent: Option<string>, reasoning: Option<string>,
                         toolCalls: seq<ToolDelta>, content: string)
  {
    /** `reasoning_content`, or else the alternative field name `reasoning`. */
    function Reasoning(): string {
      if reasoningContent.Some? then reasoningContent.value else reasoning.GetOr("")
    }
  }

  const NO_DELTA := Delta(false, None, None, [], "")

  datatype Choice = Choice(delta: Delta, finishReason: Option<string>)

  /** One `data:` payload; `choice` is the first choice, `None` for an absent or empty array. */
  datatype Chunk = Chunk(id: Option<string>, model: Option<string>, usage: Option<Usage>, choice: Option<Choice>)

  /** One `data:` line of an OpenAI stream. */
  datatype Line = Done | Data(chunk: Chunk)

  /** A tool-call index is read as a 64-bit integer and then cut down to 32 bits. */
  function AsI32(i: int): (r: int)
    ensures -0x8000_0000 <= r < 0x8000_0000
    ensures -0x8000_0000 <= i < 0x8000_0000 ==> r == i
  {
    (i + 0x8000_0000) % 0x1_0000_0000 - 0x8000_0000
  }

  /** The one 32-bit number that differs from `i` by whole turns of 2^32. */
  lemma CutIsModular(i: int, r: int)
    ensures r == AsI32(i) <==> -0x8000_0000 <= r < 0x8000_0000 && exists k: int :: r == i + Wraps(k)
  {
    if r == AsI32(i) {
      assert r == i + Wraps(-((i + 0x8000_0000) / 0x1_0000_0000));
    }
  }

  /** `k` turns of 2^32. */
  function Wraps(k: int): int { k * 0x1_0000_0000 }

  // ---- Claude streaming ----

  datatype BlockKind = TextKind | ThinkingKind | ToolKind

  datatype BlockHead =
    | TextHead(text: string)
    | ThinkingHead(thinking: string)
    | ToolHead(id: string, name: string)
    | OtherHead

  datatype Piece =
    | TextPiece(text: string)
    | ThinkingPiece(thinking: string)
    | InputPiece(partialJson: string)
    | SignaturePiece
    | OtherPiece

  datatype ClaudeEvent =
    | MessageStart(id: Option<string>, model: Option<string>, inputTokens: Option<nat>)
    | BlockStart(index: int, head: BlockHead)
    | BlockDelta(index: int, piece: Piece)
    | BlockStop(index: int)
    | MessageDelta(stopReason: Option<string>, outputTokens: Option<nat>)
    | MessageStop
    | Ping
    | UnknownEvent

  // ---- whole responses ----

  datatype ContentBlock =
    | Text(text: string)
    | Thinking(thinking: string)
    | ToolUse(id: string, name: string, input: Json)
    | OtherBlock

  datatype ClaudeMessage =
    ClaudeMessage(content: seq<ContentBlock>, stopReason: Option<string>, inputTokens: nat, outputTokens: nat)

  /** `choices[0].message` with its finish reason and usage. */
  datatype OpenaiMessage =
    OpenaiMessage(content: Option<string>, reasoningContent: Option<string>, reasoning: Option<string>,
                  toolCalls: seq<ToolCall>, finishReason: Option<string>, usage: Usage)

  // ---- stop reasons ----

  function StopReasonOf(finishReason: string): string {
    match finishReason
    case "tool_calls" => "tool_use"
    case "length" => "max_tokens"
    case _ => "end_turn"
  }

  function FinishReasonOf(stopReason: string): string {
    match stopReason
    case "tool_use" => "tool_calls"
    case "max_tokens" => "length"
    case _ => "stop"
  }

  /** The whole table of stop reasons: two finish reasons have one of their own, all others end the turn. */
  lemma StopReasons(fr: string)
    ensures StopReasonOf(fr) in {"tool_use", "max_tokens", "end_turn"}
    ensures StopReasonOf(fr) == "tool_use" <==> fr == "tool_calls"
    ensures StopReasonOf(fr) == "max_tokens" <==> fr == "length"
  {
  }

  /** The whole table of finish reasons. */
  lemma FinishReasons(stop: string)
    ensures FinishReasonOf(stop) in {"tool_calls", "length", "stop"}
    ensures FinishReasonOf(stop) == "tool_calls" <==> stop == "tool_use"
    ensures FinishReasonOf(stop) == "length" <==> stop == "max_tokens"
  {
  }

  /** A finish reason survives the trip to Claude and back exactly when Claude has a name for it. */
  lemma FinishReasonRoundTrip(fr: string)
    ensures FinishReasonOf(StopReasonOf(fr)) == fr <==> fr in {"stop", "tool_calls", "length"}
  {
  }

  /** And a stop reason survives the trip to OpenAI and back exactly when OpenAI has a name for it. */
  lemma StopReasonRoundTrip(stop: string)
    ensures StopReasonOf(FinishReasonOf(stop)) == stop <==> stop in {"end_turn", "tool_use", "max_tokens"}
  {
  }
}
