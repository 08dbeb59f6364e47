/** Translating a stream and translating the whole response give the same answer. */
module BatchAgreement {
  import opened Wire
  import opened Meaning
  import opened Assembly
  import Responses
  import ToOpenai
  import ToOpenaiMeaning

  /** The response message an OpenAI client has collected from a stream. */
  function Heard(t: Tally): OpenaiMessage {
    OpenaiMessage(Some(t.text), if t.reasoning == "" then None else Some(t.reasoning), None, t.Calls(), t.finish,
                  t.usage.GetOr(Usage(0, 0)))
  }

  lemma {:induction false} ContentSays(parse: string -> Option<Json>, blocks: seq<Raw>)
    ensures var c := Content(parse, blocks);
            && Responses.TextOf(c) == TextIn(blocks) && Responses.ThinkingOf(c) == ThinkingIn(blocks)
            && |Responses.CallsOf(c)| == |CallsIn(blocks)|
            && forall i :: 0 <= i < |CallsIn(blocks)| ==>
                 Responses.CallsOf(c)[i] == Settled(parse, CallsIn(blocks)[i])
  {
    if blocks != [] {
      var n := |blocks| - 1;
      ContentSays(parse, blocks[..n]);
      var c := Content(parse, blocks);
      assert c[..n] == Content(parse, blocks[..n]) && c[n] == Block(parse, blocks[n]);
    }
  }

  /** Every tool call's argument text is empty or parses. */
  predicate Readable(parse: string -> Option<Json>, calls: seq<ToolCall>) {
    forall i :: 0 <= i < |calls| ==> InputOf(parse, calls[i].arguments).Some?
  }

  lemma {:induction false} ParseableCalls(parse: string -> Option<Json>, blocks: seq<Raw>)
    ensures Parseable(parse, blocks) <==> Readable(parse, CallsIn(blocks))
  {
    if blocks != [] {
      var n := |blocks| - 1;
      ParseableCalls(parse, blocks[..n]);
      var calls := CallsIn(blocks[..n]);
      assert blocks[n].RawTool? ==> CallsIn(blocks)[|calls|].arguments == blocks[n].json;
      assert forall i :: 0 <= i < |calls| ==> CallsIn(blocks)[i] == calls[i];
    }
  }

  /** A collected tool call with its arguments parsed and printed again. */
  function Settled(parse: string -> Option<Json>, c: ToolCall): ToolCall {
    c.(arguments := InputOf(parse, c.arguments).GetOr("{}"))
  }

  /** The text collected for every tool call is already in compact form (in particular not empty). */
  predicate Canonical(parse: string -> Option<Json>, calls: seq<ToolCall>) {
    forall i :: 0 <= i < |calls| ==> parse(calls[i].arguments) == Some(calls[i].arguments)
  }

  /** Claude to OpenAI, for every stream a Claude client accepts: the emitted chunks add up to the same
      finish reason, usage, tool ids and names as the translated whole message, with arguments that parse
      to the same values; and to the very same message exactly when blocks start empty and every tool
      call's argument text is compact JSON. */
  lemma ClaudeStreamAgreesWithBatch(parse: string -> Option<Json>, events: seq<ClaudeEvent>)
    requires ParsesJson(parse) && MessageOf(parse, events).Some?
    ensures var heard := Heard(ReadLines(ToOpenai.Run(events).lines));
            var batch := Responses.OpenaiResponseOf(MessageOf(parse, events).value);
            && heard.finishReason == batch.finishReason && heard.usage == batch.usage
            && |heard.toolCalls| == |batch.toolCalls|
            && (forall i :: 0 <= i < |heard.toolCalls| ==> batch.toolCalls[i] == Settled(parse, heard.toolCalls[i]))
            && (heard == batch <==>
                  HeadText(events) == 0 && HeadThinking(events) == 0 && Canonical(parse, heard.toolCalls))
  {
    var d, g, t := Drafted(events), ReadEvents(events), ReadLines(ToOpenai.Run(events).lines);
    DraftAgrees(events);
    ToOpenaiMeaning.StreamKeepsMeaning(events);
    ContentSays(parse, d.closed);
    var heard, batch := Heard(t), Responses.OpenaiResponseOf(MessageOf(parse, events).value);
    assert heard.toolCalls == CallsIn(d.closed);
    ParseableCalls(parse, d.closed);
    SettledIsCanonical(parse, heard.toolCalls, batch.toolCalls);
  }

  lemma SettledIsCanonical(parse: string -> Option<Json>, calls: seq<ToolCall>, settled: seq<ToolCall>)
    requires ParsesJson(parse) && |calls| == |settled|
    requires Readable(parse, calls) && forall i :: 0 <= i < |calls| ==> settled[i] == Settled(parse, calls[i])
    ensures calls == settled <==> Canonical(parse, calls)
  {
  }
}
