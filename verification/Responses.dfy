/** The translators for whole responses (`claude_to_openai_response`, `openai_to_claude_response`). */
module Responses {
  import opened Wire
  import opened Folds

  // ---- Claude to OpenAI ----

  function TextPart(b: ContentBlock): string { if b.Text? then b.text else "" }

  function ThinkingPart(b: ContentBlock): string { if b.Thinking? then b.thinking else "" }

  function CallPart(b: ContentBlock): seq<ToolCall> {
    if b.ToolUse? then [ToolCall(b.id, b.name, b.input)] else []
  }

  function TextOf(content: seq<ContentBlock>): string { Gather(TextPart, content) }

  function ThinkingOf(content: seq<ContentBlock>): string { Gather(ThinkingPart, content) }

  function CallsOf(content: seq<ContentBlock>): seq<ToolCall> { Gather(CallPart, content) }

  function OpenaiResponseOf(m: ClaudeMessage): OpenaiMessage {
    var reasoning := ThinkingOf(m.content);
    OpenaiMessage(Some(TextOf(m.content)), if reasoning == "" then None else Some(reasoning), None, CallsOf(m.content),
                  Some(FinishReasonOf(m.stopReason.GetOr(""))), Usage(m.inputTokens, m.outputTokens))
  }

  method ClaudeToOpenaiResponse(m: ClaudeMessage) returns (r: OpenaiMessage)
    ensures r == OpenaiResponseOf(m)
  {
    var textParts: seq<string>, reasoningParts: seq<string>, toolCalls := [], [], [];
    for i := 0 to |m.content|
      invariant Joined(textParts) == TextOf(m.content[..i])
      invariant Joined(reasoningParts) == ThinkingOf(m.content[..i])
      invariant toolCalls == CallsOf(m.content[..i])
    {
      assert m.content[..i + 1][..i] == m.content[..i];
      match m.content[i] {
        case Text(t) =>
          textParts := textParts + [t];
        case Thinking(t) =>
          reasoningParts := reasoningParts + [t];
        case ToolUse(id, name, input) =>
          toolCalls := toolCalls + [ToolCall(id, name, input)];
        case OtherBlock =>
      }
    }
    assert m.content[..|m.content|] == m.content;
    var reasoning := Joined(reasoningParts);
    r := OpenaiMessage(Some(Joined(textParts)), if reasoning == "" then None else Some(reasoning), None, toolCalls,
                       Some(FinishReasonOf(m.stopReason.GetOr(""))), Usage(m.inputTokens, m.outputTokens));
  }

  // ---- OpenAI to Claude ----

  function ReasoningOf(m: OpenaiMessage): string {
    if m.reasoningContent.Some? then m.reasoningContent.value else m.reasoning.GetOr("")
  }

  function ToolUseOf(parse: string -> Option<Json>, c: ToolCall): ContentBlock {
    ToolUse(c.id, c.name, parse(c.arguments).GetOr("{}"))
  }

  function ToolUses(parse: string -> Option<Json>, calls: seq<ToolCall>): seq<ContentBlock> {
    seq(|calls|, i requires 0 <= i < |calls| => ToolUseOf(parse, calls[i]))
  }

  /** Thinking, then text, then tool uses; empty parts are left out. */
  function Blocks(parse: string -> Option<Json>, reasoning: string, text: string, calls: seq<ToolCall>)
    : seq<ContentBlock>
  {
    (if reasoning == "" then [] else [Thinking(reasoning)]) + (if text == "" then [] else [Text(text)])
    + ToolUses(parse, calls)
  }

  function ClaudeResponseOf(parse: string -> Option<Json>, m: OpenaiMessage): ClaudeMessage {
    var blocks := Blocks(parse, ReasoningOf(m), m.content.GetOr(""), m.toolCalls);
    ClaudeMessage(if blocks == [] then [Text("")] else blocks,
                  Some(if m.finishReason.Some? then StopReasonOf(m.finishReason.value) else "end_turn"),
                  m.usage.prompt, m.usage.completion)
  }

  method PushToolUses(parse: string -> Option<Json>, calls: seq<ToolCall>) returns (content: seq<ContentBlock>)
    ensures content == ToolUses(parse, calls)
  {
    content := [];
    for i := 0 to |calls|
      invariant content == ToolUses(parse, calls[..i])
    {
      content := content + [ToolUse(calls[i].id, calls[i].name, parse(calls[i].arguments).GetOr("{}"))];
    }
    assert calls[..|calls|] == calls;
  }

  method OpenaiToClaudeResponse(parse: string -> Option<Json>, m: OpenaiMessage) returns (r: ClaudeMessage)
    ensures r == ClaudeResponseOf(parse, m)
  {
    hide ToolUses;
    var content: seq<ContentBlock> := [];
    var stopReason := "end_turn";
    var reasoning := if m.reasoningContent.Some? then m.reasoningContent else m.reasoning;
    if reasoning.Some? && reasoning.value != "" {
      content := content + [Thinking(reasoning.value)];
    }
    if m.content.Some? && m.content.value != "" {
      content := content + [Text(m.content.value)];
    }
    var uses := PushToolUses(parse, m.toolCalls);
    content := content + uses;
    assert content == Blocks(parse, ReasoningOf(m), m.content.GetOr(""), m.toolCalls);
    hide Blocks;
    if m.finishReason.Some? {
      stopReason := StopReasonOf(m.finishReason.value);
    }
    if content == [] {
      content := content + [Text("")];
    }
    r := ClaudeMessage(content, Some(stopReason), m.usage.prompt, m.usage.completion);
  }

  // ---- there and back ----

  lemma {:induction false} ToolUsesSay(parse: string -> Option<Json>, calls: seq<ToolCall>)
    ensures var b := ToolUses(parse, calls);
            && TextOf(b) == "" && ThinkingOf(b) == "" && |CallsOf(b)| == |calls|
            && forall i :: 0 <= i < |calls| ==>
                 CallsOf(b)[i] == calls[i].(arguments := parse(calls[i].arguments).GetOr("{}"))
  {
    if calls != [] {
      var n := |calls| - 1;
      ToolUsesSay(parse, calls[..n]);
      assert ToolUses(parse, calls)[..n] == ToolUses(parse, calls[..n]);
    }
  }

  /** A whole response survives the trip to Claude and back: text, reasoning and usage always, the
      finish reason when Claude has a name for it, and tool calls up to re-serialising their arguments. */
  lemma ResponseRoundTrip(parse: string -> Option<Json>, m: OpenaiMessage)
    ensures var r := OpenaiResponseOf(ClaudeResponseOf(parse, m));
            && r.content == Some(m.content.GetOr("")) && ReasoningOf(r) == ReasoningOf(m) && r.usage == m.usage
            && (r.finishReason == m.finishReason <==>
                  m.finishReason.Some? && m.finishReason.value in {"stop", "tool_calls", "length"})
            && |r.toolCalls| == |m.toolCalls|
            && forall i :: 0 <= i < |m.toolCalls| ==>
                 r.toolCalls[i] == m.toolCalls[i].(arguments := parse(m.toolCalls[i].arguments).GetOr("{}"))
  {
    BlocksSay(parse, ReasoningOf(m), m.content.GetOr(""), m.toolCalls);
    assert TextOf([Text("")]) == "" && ThinkingOf([Text("")]) == "" && CallsOf([Text("")]) == [];
    if m.finishReason.Some? {
      FinishReasonRoundTrip(m.finishReason.value);
    }
  }

  /** In the order thinking, text, tool uses, with at most one of each of the first two. */
  ghost predicate Arranged(content: seq<ContentBlock>) {
    && (forall i :: 0 <= i < |content| ==> !content[i].OtherBlock?)
    && (forall i :: 0 <= i < |content| && content[i].Thinking? ==> i == 0)
    && (forall i :: 0 <= i < |content| && content[i].Text? ==> i == 0 || (i == 1 && content[0].Thinking?))
  }

  /** No empty part but the one that stands for nothing said. */
  ghost predicate NoEmptyPart(content: seq<ContentBlock>) {
    && (forall i :: 0 <= i < |content| && content[i].Thinking? ==> content[i].thinking != "")
    && (forall i :: 0 <= i < |content| && content[i].Text? && content[i].text == "" ==> |content| == 1)
  }

  lemma BlocksArranged(parse: string -> Option<Json>, reasoning: string, text: string, calls: seq<ToolCall>)
    ensures var b := Blocks(parse, reasoning, text, calls);
            Arranged(b) && NoEmptyPart(b) && Arranged([Text("")]) && NoEmptyPart([Text("")])
  {
    var uses := ToolUses(parse, calls);
    assert |uses| == |calls| && forall i :: 0 <= i < |uses| ==> uses[i].ToolUse?;
    assert |Blocks(parse, reasoning, text, calls)| >= |uses|;
    hide ToolUses;
  }

  /** A translated response, field by field: reasoning under either of its two names, `reasoning_content` first; text;
      one tool use per call, with an empty object for arguments that do not parse; never an empty content, and no
      empty part but the one that stands for nothing said. */
  lemma ClaudeResponseSays(parse: string -> Option<Json>, m: OpenaiMessage)
    ensures var r := ClaudeResponseOf(parse, m);
            && TextOf(r.content) == (match m.content case Some(t) => t case None => "")
            && ThinkingOf(r.content) == (match (m.reasoningContent, m.reasoning)
                                         case (Some(t), _) => t
                                         case (None, Some(t)) => t
                                         case (None, None) => "")
            && |CallsOf(r.content)| == |m.toolCalls|
            && (forall i :: 0 <= i < |m.toolCalls| ==>
                  CallsOf(r.content)[i]
                  == ToolCall(m.toolCalls[i].id, m.toolCalls[i].name,
                              match parse(m.toolCalls[i].arguments) case Some(input) => input case None => "{}"))
            && r.content != [] && Arranged(r.content) && NoEmptyPart(r.content)
            && r.stopReason == Some(match m.finishReason
                                    case Some("tool_calls") => "tool_use"
                                    case Some("length") => "max_tokens"
                                    case _ => "end_turn")
            && r.inputTokens == m.usage.prompt && r.outputTokens == m.usage.completion
  {
    BlocksSay(parse, ReasoningOf(m), m.content.GetOr(""), m.toolCalls);
    BlocksArranged(parse, ReasoningOf(m), m.content.GetOr(""), m.toolCalls);
    SingleSays(Text(""));
    assert TextOf([]) == "" && ThinkingOf([]) == "" && CallsOf([]) == [];
    hide Blocks, Arranged, NoEmptyPart, TextOf, ThinkingOf, CallsOf;
  }

  /** And a response translated the other way. */
  lemma OpenaiResponseSays(m: ClaudeMessage)
    ensures var r := OpenaiResponseOf(m);
            && r.content == Some(TextOf(m.content)) && r.toolCalls == CallsOf(m.content)
            && r.reasoningContent == (if ThinkingOf(m.content) == "" then None else Some(ThinkingOf(m.content)))
            && r.reasoning.None?
            && r.finishReason == Some(match m.stopReason
                                      case Some("tool_use") => "tool_calls"
                                      case Some("max_tokens") => "length"
                                      case _ => "stop")
            && r.usage == Usage(m.inputTokens, m.outputTokens)
  {
  }

  lemma Concatenated(a: seq<ContentBlock>, b: seq<ContentBlock>)
    ensures TextOf(a + b) == TextOf(a) + TextOf(b)
    ensures ThinkingOf(a + b) == ThinkingOf(a) + ThinkingOf(b)
    ensures CallsOf(a + b) == CallsOf(a) + CallsOf(b)
  {
    GatherAppend(TextPart, a, b);
    GatherAppend(ThinkingPart, a, b);
    GatherAppend(CallPart, a, b);
  }

  lemma BlocksSay(parse: string -> Option<Json>, reasoning: string, text: string, calls: seq<ToolCall>)
    ensures var b := Blocks(parse, reasoning, text, calls);
            && TextOf(b) == text && ThinkingOf(b) == reasoning && CallsOf(b) == CallsOf(ToolUses(parse, calls))
            && |CallsOf(b)| == |calls|
            && forall i :: 0 <= i < |calls| ==>
                 CallsOf(b)[i] == calls[i].(arguments := parse(calls[i].arguments).GetOr("{}"))
  {
    var a := if reasoning == "" then [] else [Thinking(reasoning)];
    var b := if text == "" then [] else [Text(text)];
    assert ThinkingOf([]) == "" && TextOf([]) == "" && CallsOf([]) == [];
    SingleSays(Thinking(reasoning));
    SingleSays(Text(text));
    ToolUsesSay(parse, calls);
    hide Gather, ToolUses;
    Concatenated(a, b);
    Concatenated(a + b, ToolUses(parse, calls));
    assert [] + CallsOf(ToolUses(parse, calls)) == CallsOf(ToolUses(parse, calls));
  }

  lemma SingleSays(b: ContentBlock)
    ensures TextOf([b]) == TextPart(b) && ThinkingOf([b]) == ThinkingPart(b) && CallsOf([b]) == CallPart(b)
  {
    assert [] + [b] == [b];
    GatherSnoc(TextPart, [], b);
    GatherSnoc(ThinkingPart, [], b);
    GatherSnoc(CallPart, [], b);
  }
}
