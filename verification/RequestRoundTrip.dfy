/** Strict alternation, nothing lost, and conversations that survive the trip to Claude and back. */
module RequestRoundTrip {
  import opened Wire
  import opened Folds
  import opened Requests

  // ---- every request ----

  predicate Alternates(turns: seq<Turn>) {
    forall i :: 0 < i < |turns| ==> turns[i - 1].role != turns[i].role
  }

  /** The blocks of a turn, each with who says it. */
  function SaidBy(t: Turn): seq<(string, Block)> {
    seq(|t.blocks|, i requires 0 <= i < |t.blocks| => (t.role, t.blocks[i]))
  }

  function FirstRole(turns: seq<Turn>): string { if turns == [] then "" else turns[0].role }

  lemma MergeKeepsBlocks(merged: seq<Turn>, t: Turn)
    ensures Gather(SaidBy, Merge(merged, t)) == Gather(SaidBy, merged) + SaidBy(t)
  {
    hide Gather;
    var k := |merged| - 1;
    if merged != [] && merged[k].role == t.role {
      var init, last := merged[..k], merged[k];
      assert merged == init + [last];
      GatherSnoc(SaidBy, init, last);
      GatherSnoc(SaidBy, init, Turn(t.role, last.blocks + t.blocks));
      assert SaidBy(Turn(t.role, last.blocks + t.blocks)) == SaidBy(last) + SaidBy(t);
    } else {
      GatherSnoc(SaidBy, merged, t);
    }
  }

  lemma MergeAlternates(merged: seq<Turn>, t: Turn)
    requires Alternates(merged)
    ensures Alternates(Merge(merged, t)) && Merge(merged, t) != []
    ensures FirstRole(Merge(merged, t)) == if merged == [] then t.role else FirstRole(merged)
  {
  }

  lemma {:induction false} MergedAlternates(pending: seq<Turn>)
    ensures var merged := Fold(Merge, [], pending);
            && Alternates(merged)
            && (merged == [] <==> pending == [])
            && Gather(SaidBy, merged) == Gather(SaidBy, pending)
            && FirstRole(merged) == FirstRole(pending)
  {
    if pending != [] {
      var n := |pending| - 1;
      hide Merge, Alternates;
      MergedAlternates(pending[..n]);
      MergeAlternates(Fold(Merge, [], pending[..n]), pending[n]);
      MergeKeepsBlocks(Fold(Merge, [], pending[..n]), pending[n]);
    }
  }

  /** Whatever the messages, the Claude request starts with a user turn, no two neighbouring turns have the
      same role, and the turns hold exactly the blocks of the messages in order, after a placeholder
      when the first message that is not a system message does not speak for the user. */
  lemma ClaudeRequestIsWellFormed(parse: string -> Option<Json>, messages: seq<Message>)
    ensures var turns, pending := ToClaude(parse, messages).turns, AllPending(parse, messages);
            && turns != [] && turns[0].role == "user" && Alternates(turns)
            && Gather(SaidBy, turns) ==
                 (if FirstRole(pending) == "user" then [] else [("user", TextBlock("."))]) + Gather(SaidBy, pending)
  {
    var pending := AllPending(parse, messages);
    MergedAlternates(pending);
    var merged := Fold(Merge, [], pending);
    if merged == [] || merged[0].role != "user" {
      GatherAppend(SaidBy, [PLACEHOLDER], merged);
      assert Gather(SaidBy, [PLACEHOLDER]) == SaidBy(PLACEHOLDER) == [("user", TextBlock("."))];
    }
  }

  // ---- conversations ----

  /** What a message says, however its content is wrapped; `extras` is content that is not text. */
  datatype Saying =
    Saying(role: string, text: string, extras: seq<Json>, toolCalls: seq<ToolCall>, toolCallId: string)

  function TextIn(c: Content): string {
    match c
    case Str(s) => s
    case Parts(parts) => Joined(Gather(TextsOf, parts))
    case _ => ""
  }

  function ExtraIn(p: Part): seq<Json> { if p.OtherPart? then [p.json] else [] }

  /** Images and the like; a tool's answer that is no string counts as the text it is printed as. */
  function ExtrasIn(m: Message): seq<Json> {
    match m.content
    case Parts(parts) => Gather(ExtraIn, parts)
    case Other(json) => if m.role == "tool" then [] else [json]
    case _ => []
  }

  function Say(m: Message): Saying {
    var text := if m.role == "tool" && m.content.Other? then m.content.json else TextIn(m.content);
    Saying(m.role, text, ExtrasIn(m), m.toolCalls, m.toolCallId)
  }

  function SayAll(messages: seq<Message>): seq<Saying> {
    seq(|messages|, i requires 0 <= i < |messages| => Say(messages[i]))
  }

  /** A message that may follow one with role `before` ("" at the start). */
  predicate Follows(before: string, m: Message) {
    match m.role
    case "user" => before != "user" && m.toolCalls == [] && m.toolCallId == ""
    case "assistant" => before != "" && before != "assistant" && m.toolCallId == ""
    case "tool" => (before == "assistant" || before == "tool") && m.toolCalls == []
    case _ => false
  }

  function RoleBefore(messages: seq<Message>): string {
    if messages == [] then "" else messages[|messages| - 1].role
  }

  /** The user speaks first, neither side speaks twice in a row, and tool messages answer the assistant. */
  predicate Conversation(messages: seq<Message>) {
    messages == [] ||
    var n := |messages| - 1;
    Conversation(messages[..n]) && Follows(RoleBefore(messages[..n]), messages[n])
  }

  /** A user message that brings no text block right after a tool message. */
  predicate Mute(before: string, m: Message) {
    before == "tool" && m.role == "user" && Gather(BlockTexts, ContentBlocks(m.content)) == []
  }

  function Settled(parse: string -> Option<Json>, calls: seq<ToolCall>): seq<ToolCall> {
    seq(|calls|, i requires 0 <= i < |calls| => calls[i].(arguments := parse(calls[i].arguments).GetOr("{}")))
  }

  /** What comes back of a message: nothing if it is mute, else its text, without extras, and with tool arguments
      parsed and printed again. */
  function EchoOf(parse: string -> Option<Json>, before: string, m: Message): seq<Saying> {
    if Mute(before, m) then [] else [Say(m).(extras := [], toolCalls := Settled(parse, m.toolCalls))]
  }

  function Echo(parse: string -> Option<Json>, messages: seq<Message>): seq<Saying> {
    if messages == [] then []
    else
      var n := |messages| - 1;
      Echo(parse, messages[..n]) + EchoOf(parse, RoleBefore(messages[..n]), messages[n])
  }

  // ---- what single messages become ----

  lemma {:induction false} PartsSay(parts: seq<Part>)
    ensures var b := Gather(PartBlock, parts);
            && Gather(BlockTexts, b) == Gather(TextsOf, parts) && Gather(CallsIn, b) == [] && !HasToolResult(b)
  {
    if parts != [] {
      var n := |parts| - 1;
      PartsSay(parts[..n]);
      var init, last := Gather(PartBlock, parts[..n]), PartBlock(parts[n])[0];
      GatherSnoc(BlockTexts, init, last);
      GatherSnoc(CallsIn, init, last);
      assert Gather(PartBlock, parts) == init + [last];
    }
  }

  lemma ContentSays(c: Content)
    ensures var b := ContentBlocks(c);
            && Joined(Gather(BlockTexts, b)) == TextIn(c) && Gather(CallsIn, b) == [] && !HasToolResult(b)
  {
    match c {
      case Parts(parts) => PartsSay(parts);
      case Str(s) =>
        assert Gather(BlockTexts, [TextBlock(s)]) == Gather(BlockTexts, []) + [s];
        JoinedOne(s);
      case _ =>
    }
  }

  lemma {:induction false} ToolUsesSay(parse: string -> Option<Json>, calls: seq<ToolCall>)
    ensures var b := ToolUses(parse, calls);
            && Gather(BlockTexts, b) == [] && Gather(CallsIn, b) == Settled(parse, calls) && !HasToolResult(b)
  {
    if calls != [] {
      var n := |calls| - 1;
      ToolUsesSay(parse, calls[..n]);
      var init, last := ToolUses(parse, calls[..n]), ToolUses(parse, calls)[n];
      assert ToolUses(parse, calls) == init + [last];
      GatherSnoc(BlockTexts, init, last);
      GatherSnoc(CallsIn, init, last);
      assert Settled(parse, calls) == Settled(parse, calls[..n]) + [Settled(parse, calls)[n]];
    }
  }

  /** A turn without tool results is one message: its texts joined, its calls in order. */
  lemma PlainTurn(t: Turn)
    requires !HasToolResult(t.blocks)
    ensures var text := Joined(Gather(BlockTexts, t.blocks));
            SayAll(FromTurn(t)) == [Saying(t.role, text, [], Gather(CallsIn, t.blocks), "")]
  {
    hide Gather, HasToolResult, Joined;
  }

  /** A turn of its own, for a user or assistant message. */
  lemma OwnTurn(parse: string -> Option<Json>, m: Message)
    requires m.role != "tool" && m.role != "system" && m.toolCallId == ""
    ensures Pending(parse, m) == [Turn(m.role, ContentBlocks(m.content) + ToolUses(parse, m.toolCalls))]
    ensures SayAll(FromTurn(Pending(parse, m)[0]))
         == [Say(m).(extras := [], toolCalls := Settled(parse, m.toolCalls))]
  {
    var c, u := ContentBlocks(m.content), ToolUses(parse, m.toolCalls);
    ContentSays(m.content);
    ToolUsesSay(parse, m.toolCalls);
    assert !HasToolResult(c + u);
    hide ContentBlocks, ToolUses, Settled, TextIn, ExtrasIn, FromTurn, Gather, HasToolResult, SayAll;
    GatherAppend(BlockTexts, c, u);
    GatherAppend(CallsIn, c, u);
    assert Gather(BlockTexts, c) + [] == Gather(BlockTexts, c) && [] + Gather(CallsIn, u) == Gather(CallsIn, u);
    PlainTurn(Turn(m.role, c + u));
  }

  // ---- turns that carry tool results ----

  predicate AllResults(blocks: seq<Block>) {
    blocks != [] && forall b :: b in blocks ==> b.ToolResultBlock?
  }

  lemma {:induction false} ResultsSay(blocks: seq<Block>)
    requires forall b :: b in blocks ==> b.ToolResultBlock?
    ensures Gather(BlockTexts, blocks) == []
  {
    if blocks != [] {
      assert blocks[|blocks| - 1] in blocks;
      ResultsSay(blocks[..|blocks| - 1]);
    }
  }

  lemma {:induction false} NoToolMessages(blocks: seq<Block>)
    requires !HasToolResult(blocks)
    ensures Gather(ToolMessages, blocks) == []
  {
    if blocks != [] {
      assert blocks[|blocks| - 1] in blocks && forall b :: b in blocks[..|blocks| - 1] ==> b in blocks;
      NoToolMessages(blocks[..|blocks| - 1]);
    }
  }

  function OwnText(role: string, own: seq<Block>): seq<Message> {
    var texts := Gather(BlockTexts, own);
    if texts == [] then [] else [Message(role, Str(Joined(texts)), [], "")]
  }

  /** Tool results first, then perhaps the user's own blocks: the results and the text come apart again. */
  lemma ResultsThenText(role: string, results: seq<Block>, own: seq<Block>)
    requires AllResults(results) && !HasToolResult(own)
    ensures FromTurn(Turn(role, results + own)) == FromTurn(Turn(role, results)) + OwnText(role, own)
  {
    ResultsSay(results);
    NoToolMessages(own);
    GatherAppend(BlockTexts, results, own);
    GatherAppend(ToolMessages, results, own);
    assert results[0] in results && results[0] in results + own;
    assert [] + Gather(BlockTexts, own) == Gather(BlockTexts, own);
  }

  lemma OneMoreResult(role: string, results: seq<Block>, id: string, content: Content)
    requires AllResults(results)
    ensures FromTurn(Turn(role, results + [ToolResultBlock(id, content)]))
         == FromTurn(Turn(role, results)) + [Message("tool", Str(ResultText(content)), [], id)]
    ensures AllResults(results + [ToolResultBlock(id, content)])
  {
    var r := ToolResultBlock(id, content);
    ResultsSay(results);
    ResultsSay(results + [r]);
    GatherSnoc(ToolMessages, results, r);
    assert results[0] in results && results[0] in results + [r];
  }

  // ---- whole conversations ----

  /** Translating the turns so far back gives the echo of the messages so far. */
  ghost predicate Restores(parse: string -> Option<Json>, messages: seq<Message>, turns: seq<Turn>) {
    && SayAll(Gather(FromTurn, turns)) == Echo(parse, messages)
    && (turns != [] <==> messages != [])
    && (messages != [] ==> Answers(turns[|turns| - 1], RoleBefore(messages)))
  }

  /** The latest turn, after a message with role `before`. */
  ghost predicate Answers(last: Turn, before: string) {
    if before == "tool" then last.role == "user" && AllResults(last.blocks) else last.role == before
  }

  lemma Said(a: seq<Message>, b: seq<Message>)
    ensures SayAll(a + b) == SayAll(a) + SayAll(b)
  {
  }

  lemma OnePending(parse: string -> Option<Json>, m: Message)
    requires m.role != "system"
    ensures |Pending(parse, m)| == 1
    ensures forall turns :: Fold(Merge, turns, Pending(parse, m)) == Merge(turns, Pending(parse, m)[0])
  {
    forall turns: seq<Turn> ensures Fold(Merge, turns, Pending(parse, m)) == Merge(turns, Pending(parse, m)[0]) {
      var t := Pending(parse, m)[0];
      FoldSnoc(Merge, turns, [], t);
      assert [] + [t] == Pending(parse, m);
    }
  }

  /** A message with a turn of its own is its own echo. */
  lemma ApartSays(parse: string -> Option<Json>, before: string, m: Message)
    requires Follows(before, m) && (before != "tool" || m.role == "assistant")
    ensures |Pending(parse, m)| == 1
    ensures SayAll(FromTurn(Pending(parse, m)[0])) == EchoOf(parse, before, m) && Answers(Pending(parse, m)[0], m.role)
  {
    if m.role == "tool" {
      assert Settled(parse, m.toolCalls) == [];
      var r := Pending(parse, m)[0].blocks[0];
      assert Pending(parse, m)[0].blocks == [r] && r in [r];
      assert Gather(ToolMessages, [r]) == ToolMessages(r);
      ResultsSay([r]);
    } else {
      OwnTurn(parse, m);
    }
  }

  /** A tool message merged into a user turn of tool results adds its own echo. */
  lemma ToolMerged(parse: string -> Option<Json>, results: seq<Block>, m: Message)
    requires AllResults(results) && m.role == "tool" && m.toolCalls == []
    ensures var joined := Turn("user", results + Pending(parse, m)[0].blocks);
            && SayAll(FromTurn(joined)) == SayAll(FromTurn(Turn("user", results))) + [Say(m).(extras := [])]
            && AllResults(joined.blocks)
  {
    hide FromTurn, AllResults, Gather;
    var b := Pending(parse, m)[0].blocks[0];
    OneMoreResult("user", results, m.toolCallId, b.content);
    Said(FromTurn(Turn("user", results)), [Message("tool", Str(ResultText(b.content)), [], m.toolCallId)]);
  }

  /** A user message merged into a user turn of tool results adds its own echo. */
  lemma UserMerged(parse: string -> Option<Json>, results: seq<Block>, m: Message)
    requires AllResults(results) && m.role == "user" && m.toolCalls == [] && m.toolCallId == ""
    ensures var joined := Turn("user", results + Pending(parse, m)[0].blocks);
            SayAll(FromTurn(joined))
            == SayAll(FromTurn(Turn("user", results))) + if Mute("tool", m) then [] else [Say(m).(extras := [])]
  {
    hide FromTurn, AllResults, Gather, ContentBlocks;
    var own := ContentBlocks(m.content);
    ContentSays(m.content);
    assert own + ToolUses(parse, m.toolCalls) == own;
    ResultsThenText("user", results, own);
    Said(FromTurn(Turn("user", results)), OwnText("user", own));
  }

  lemma MergedSays(parse: string -> Option<Json>, results: seq<Block>, m: Message)
    requires AllResults(results) && Follows("tool", m) && m.role != "assistant"
    ensures |Pending(parse, m)| == 1 && Pending(parse, m)[0].role == "user"
    ensures var joined := Turn("user", results + Pending(parse, m)[0].blocks);
            && SayAll(FromTurn(joined)) == SayAll(FromTurn(Turn("user", results))) + EchoOf(parse, "tool", m)
            && Answers(joined, m.role)
  {
    hide FromTurn, AllResults, SayAll;
    assert Settled(parse, m.toolCalls) == [];
    if m.role == "tool" {
      ToolMerged(parse, results, m);
    } else {
      UserMerged(parse, results, m);
    }
  }

  lemma TurnsApart(before: string, m: Message, last: Turn, t: Turn)
    requires Follows(before, m) && (before != "tool" || m.role == "assistant")
    requires Answers(last, before) && Answers(t, m.role)
    ensures last.role != t.role
  {
    assert "user"[0] != "tool"[0];
  }

  /** Text behind a tool message, and a tool message behind another, join the last turn. */
  lemma RestoresJoined(parse: string -> Option<Json>, messages: seq<Message>, turns: seq<Turn>, m: Message)
    requires Restores(parse, messages, turns) && Follows(RoleBefore(messages), m)
    requires RoleBefore(messages) == "tool" && m.role != "assistant"
    ensures Restores(parse, messages + [m], Fold(Merge, turns, Pending(parse, m)))
  {
    hide FromTurn, EchoOf, SayAll, Gather;
    var k := |turns| - 1;
    assert (messages + [m])[..|messages|] == messages;
    OnePending(parse, m);
    var init, last := turns[..k], turns[k];
    assert turns == init + [last];
    MergedSays(parse, last.blocks, m);
    var joined := Turn("user", last.blocks + Pending(parse, m)[0].blocks);
    GatherSnoc(FromTurn, init, last);
    GatherSnoc(FromTurn, init, joined);
    Said(Gather(FromTurn, init), FromTurn(last));
    Said(Gather(FromTurn, init), FromTurn(joined));
    assert last == Turn("user", last.blocks);
  }

  /** Any other message has a turn of its own. */
  lemma RestoresApart(parse: string -> Option<Json>, messages: seq<Message>, turns: seq<Turn>, m: Message)
    requires Restores(parse, messages, turns) && Follows(RoleBefore(messages), m)
    requires RoleBefore(messages) != "tool" || m.role == "assistant"
    ensures Restores(parse, messages + [m], Fold(Merge, turns, Pending(parse, m)))
  {
    hide FromTurn, EchoOf, SayAll, Gather;
    var before, k := RoleBefore(messages), |turns| - 1;
    assert (messages + [m])[..|messages|] == messages;
    OnePending(parse, m);
    ApartSays(parse, before, m);
    var t := Pending(parse, m)[0];
    GatherSnoc(FromTurn, turns, t);
    Said(Gather(FromTurn, turns), FromTurn(t));
    if turns != [] {
      TurnsApart(before, m, turns[k], t);
    }
  }

  lemma RestoresStep(parse: string -> Option<Json>, messages: seq<Message>, turns: seq<Turn>, m: Message)
    requires Restores(parse, messages, turns) && Follows(RoleBefore(messages), m)
    ensures Restores(parse, messages + [m], Fold(Merge, turns, Pending(parse, m)))
  {
    hide Restores, Follows, Fold;
    if RoleBefore(messages) == "tool" && m.role != "assistant" {
      RestoresJoined(parse, messages, turns, m);
    } else {
      RestoresApart(parse, messages, turns, m);
    }
  }

  lemma {:induction false} ConversationSplit(messages: seq<Message>)
    requires Conversation(messages) && messages != []
    ensures var n := |messages| - 1;
            && messages == messages[..n] + [messages[n]]
            && Conversation(messages[..n]) && Follows(RoleBefore(messages[..n]), messages[n])
  {
  }

  lemma {:induction false} ConversationRestores(parse: string -> Option<Json>, messages: seq<Message>)
    requires Conversation(messages)
    ensures Restores(parse, messages, Fold(Merge, [], AllPending(parse, messages)))
  {
    if messages != [] {
      hide *;
      var n, m := |messages| - 1, messages[|messages| - 1];
      var before := messages[..n];
      ConversationSplit(messages);
      PendingSnoc(parse, before, m);
      FoldAppend(Merge, [], AllPending(parse, before), Pending(parse, m));
      ConversationRestores(parse, before);
      RestoresStep(parse, before, Fold(Merge, [], AllPending(parse, before)), m);
    }
  }

  // ---- the round trip ----

  /** No mute message, nothing but text, and tool arguments in the compact form they are printed in. */
  predicate Faithful(parse: string -> Option<Json>, messages: seq<Message>) {
    forall i :: 0 <= i < |messages| ==>
      !Mute(RoleBefore(messages[..i]), messages[i]) && ExtrasIn(messages[i]) == [] &&
      forall c :: c in messages[i].toolCalls ==> parse(c.arguments).GetOr("{}") == c.arguments
  }

  lemma SettledSame(parse: string -> Option<Json>, calls: seq<ToolCall>)
    ensures Settled(parse, calls) == calls <==> forall c :: c in calls ==> parse(c.arguments).GetOr("{}") == c.arguments
  {
    if Settled(parse, calls) == calls {
      forall c | c in calls ensures parse(c.arguments).GetOr("{}") == c.arguments {
        var i :| 0 <= i < |calls| && calls[i] == c;
        assert Settled(parse, calls)[i] == calls[i];
      }
    }
  }

  lemma FaithfulSnoc(parse: string -> Option<Json>, messages: seq<Message>, m: Message)
    ensures Faithful(parse, messages + [m]) <==>
            && Faithful(parse, messages)
            && !Mute(RoleBefore(messages), m) && ExtrasIn(m) == [] && Settled(parse, m.toolCalls) == m.toolCalls
  {
    hide Mute, Settled, ExtrasIn;
    SettledSame(parse, m.toolCalls);
    var all, n := messages + [m], |messages|;
    assert all[n] == m && all[..n] == messages;
    assert forall i :: 0 <= i < n ==> all[..i] == messages[..i] && all[i] == messages[i];
  }

  /** Comparing two lists piece by piece when neither piece has grown. */
  lemma SameAfter<T>(a: seq<T>, b: seq<T>, x: seq<T>, y: seq<T>)
    requires |a| <= |b| && |x| <= |y|
    ensures a + x == b + y <==> a == b && x == y
  {
    if a + x == b + y {
      assert |a| == |b| && a == (a + x)[..|a|] && x == (a + x)[|a|..];
      assert b == (b + y)[..|b|] && y == (b + y)[|b|..];
    }
  }

  lemma EchoOfIsSaid(parse: string -> Option<Json>, before: string, m: Message)
    ensures |EchoOf(parse, before, m)| <= 1
    ensures EchoOf(parse, before, m) == [Say(m)]
            <==> !Mute(before, m) && ExtrasIn(m) == [] && Settled(parse, m.toolCalls) == m.toolCalls
  {
    hide Mute, Settled, ExtrasIn;
  }

  lemma {:induction false} EchoIsSaid(parse: string -> Option<Json>, messages: seq<Message>)
    ensures |Echo(parse, messages)| <= |messages|
    ensures Echo(parse, messages) == SayAll(messages) <==> Faithful(parse, messages)
  {
    if messages != [] {
      var n, m := |messages| - 1, messages[|messages| - 1];
      var init := messages[..n];
      assert messages == init + [m];
      assert SayAll(messages) == SayAll(init) + [Say(m)] && |SayAll(init)| == n;
      var before := RoleBefore(init);
      assert Echo(parse, messages) == Echo(parse, init) + EchoOf(parse, before, m);
      hide *;
      EchoIsSaid(parse, init);
      FaithfulSnoc(parse, init, m);
      EchoOfIsSaid(parse, before, m);
      SameAfter(Echo(parse, init), SayAll(init), EchoOf(parse, before, m), [Say(m)]);
    }
  }

  lemma PendingSnoc(parse: string -> Option<Json>, messages: seq<Message>, m: Message)
    ensures AllPending(parse, messages + [m]) == AllPending(parse, messages) + Pending(parse, m)
  {
    assert (messages + [m])[..|messages|] == messages;
  }

  lemma NotSystem(before: string, m: Message)
    requires Follows(before, m)
    ensures m.role != "system" && SystemTexts(m) == []
  {
  }

  lemma {:induction false} AfterSystem(parse: string -> Option<Json>, system: seq<Message>, talk: seq<Message>)
    requires Conversation(talk)
    ensures AllPending(parse, system + talk) == AllPending(parse, system) + AllPending(parse, talk)
    ensures Gather(SystemTexts, system + talk) == Gather(SystemTexts, system)
  {
    hide *;
    if talk == [] {
      NothingGathered(parse);
      assert system + talk == system && AllPending(parse, system) + [] == AllPending(parse, system);
    } else {
      var n, m := |talk| - 1, talk[|talk| - 1];
      var init := talk[..n];
      ConversationSplit(talk);
      NotSystem(RoleBefore(init), m);
      assert system + talk == system + init + [m];
      AfterSystem(parse, system, init);
      PendingSnoc(parse, system + init, m);
      PendingSnoc(parse, init, m);
      GatherSnoc(SystemTexts, system + init, m);
    }
  }

  lemma {:induction false} UserSpeaksFirst(parse: string -> Option<Json>, talk: seq<Message>)
    requires Conversation(talk) && talk != []
    ensures FirstRole(AllPending(parse, talk)) == "user"
  {
    var n := |talk| - 1;
    if n == 0 {
      assert talk[..0] == [] && "tool" != "user";
    } else {
      hide Pending;
      UserSpeaksFirst(parse, talk[..n]);
    }
  }

  /** What comes back of the optional system message. */
  function SystemEcho(system: seq<Message>): seq<Saying>
    requires |system| <= 1
  {
    if system == [] || TextIn(system[0].content) == "" then [] else [Say(system[0]).(extras := [])]
  }

  predicate IsSystem(m: Message) { m.role == "system" && m.toolCalls == [] && m.toolCallId == "" }

  lemma SystemTextsJoined(m: Message)
    requires IsSystem(m)
    ensures Joined(SystemTexts(m)) == TextIn(m.content)
  {
    if m.content.Str? {
      JoinedOne(m.content.s);
    }
  }

  lemma SystemSays(parse: string -> Option<Json>, system: seq<Message>)
    requires |system| <= 1 && forall m :: m in system ==> IsSystem(m)
    ensures SayAll(FromSystem(Gather(SystemTexts, system))) == SystemEcho(system) && AllPending(parse, system) == []
  {
    hide Gather, AllPending, SystemTexts;
    NothingGathered(parse);
    if system != [] {
      OneSystemSays(parse, system[0]);
      assert system == [system[0]];
    }
  }

  lemma SystemIsSaid(system: seq<Message>)
    requires |system| <= 1
    ensures |SystemEcho(system)| <= |system|
    ensures SystemEcho(system) == SayAll(system)
            <==> system == [] || (TextIn(system[0].content) != "" && ExtrasIn(system[0]) == [])
  {
    hide TextIn, ExtrasIn;
    if system != [] {
      assert SayAll(system) == [Say(system[0])];
    }
  }

  lemma OneSystemSays(parse: string -> Option<Json>, m: Message)
    requires IsSystem(m)
    ensures Joined(Gather(SystemTexts, [m])) == TextIn(m.content) && AllPending(parse, [m]) == []
    ensures Say(m) == Saying("system", TextIn(m.content), ExtrasIn(m), [], "")
  {
    hide Gather, AllPending, TextIn, SystemTexts, ExtrasIn;
    assert [] + [m] == [m];
    GatherSnoc(SystemTexts, [], m);
    PendingSnoc(parse, [], m);
    NothingGathered(parse);
    SystemTextsJoined(m);
    assert [] + SystemTexts(m) == SystemTexts(m);
  }

  lemma NothingGathered(parse: string -> Option<Json>)
    ensures Gather(SystemTexts, []) == [] && AllPending(parse, []) == [] && Joined([]) == ""
  {
  }

  /** A conversation behind an optional system message comes back as its echo; and it comes back unchanged
      (roles, text, tool calls and their ids) exactly when the system message has text, no user message
      after a tool message is without text, nothing but text was sent, and tool arguments are in compact form. */
  lemma RequestRoundTrips(parse: string -> Option<Json>, system: seq<Message>, talk: seq<Message>)
    requires |system| <= 1 && forall m :: m in system ==> IsSystem(m)
    requires Conversation(talk) && talk != []
    ensures var back := SayAll(ToOpenai(ToClaude(parse, system + talk)));
            && back == SystemEcho(system) + Echo(parse, talk)
            && (back == SayAll(system + talk) <==>
                  && (system == [] || (TextIn(system[0].content) != "" && ExtrasIn(system[0]) == []))
                  && Faithful(parse, talk))
  {
    hide Conversation, Faithful, FromTurn, IsSystem, Gather, AllPending, Fold, Echo, Merge, TextIn, ExtrasIn;
    hide FromSystem, Alternates, SystemEcho;
    AfterSystem(parse, system, talk);
    UserSpeaksFirst(parse, talk);
    ConversationRestores(parse, talk);
    EchoIsSaid(parse, talk);
    SystemSays(parse, system);
    SystemIsSaid(system);
    MergedAlternates(AllPending(parse, talk));
    var turns := Fold(Merge, [], AllPending(parse, talk));
    assert [] + AllPending(parse, talk) == AllPending(parse, talk);
    Said(FromSystem(Gather(SystemTexts, system)), Gather(FromTurn, turns));
    Said(system, talk);
    SameAfter(SystemEcho(system), SayAll(system), Echo(parse, talk), SayAll(talk));
  }

  /** It happens: a user message without a text part, right after a tool message, leaves no trace. */
  lemma MuteUserVanishes(parse: string -> Option<Json>, talk: seq<Message>, m: Message)
    requires Conversation(talk) && RoleBefore(talk) == "tool"
    requires Follows("tool", m) && m.role == "user" && m.content.Null?
    ensures SayAll(ToOpenai(ToClaude(parse, talk + [m]))) == SayAll(ToOpenai(ToClaude(parse, talk)))
  {
    assert (talk + [m])[..|talk|] == talk;
    assert [] + talk == talk && [] + (talk + [m]) == talk + [m];
    assert Mute("tool", m);
    RequestRoundTrips(parse, [], talk);
    RequestRoundTrips(parse, [], talk + [m]);
    assert Echo(parse, talk + [m]) == Echo(parse, talk);
    hide ToOpenai, ToClaude, SayAll, Faithful;
  }
}
