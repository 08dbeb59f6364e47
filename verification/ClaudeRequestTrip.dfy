/** Claude requests translated to OpenAI messages and back: every request comes back in a normal form. */
module ClaudeRequestTrip {
  import opened Wire
  import opened Folds
  import opened Requests
  import opened RequestRoundTrip

  // ---- the normal form ----

  /** A tool result with its content told as a string. */
  function ResultsIn(b: Block): seq<Block> {
    if b.ToolResultBlock? then [ToolResultBlock(b.toolUseId, Str(ResultText(b.content)))] else []
  }

  /** A tool use with its input parsed and printed again. */
  function UsesIn(parse: string -> Option<Json>): Block -> seq<Block> {
    (b: Block) => if b.ToolUseBlock? then [ToolUseBlock(b.id, b.name, parse(b.input).GetOr("{}"))] else []
  }

  function OneText(text: string): seq<Block> { if text == "" then [] else [TextBlock(text)] }

  /** All texts as one: behind the tool results where there are any, before the tool uses where there are none. */
  function Normal(parse: string -> Option<Json>, t: Turn): (normal: Turn)
    ensures normal.role == t.role
  {
    var text := OneText(Joined(Gather(BlockTexts, t.blocks)));
    if HasToolResult(t.blocks) then Turn(t.role, Gather(ResultsIn, t.blocks) + text)
    else Turn(t.role, text + Gather(UsesIn(parse), t.blocks))
  }

  function AllNormal(parse: string -> Option<Json>, turns: seq<Turn>): seq<Turn> {
    seq(|turns|, i requires 0 <= i < |turns| => Normal(parse, turns[i]))
  }

  function NormalSystem(system: seq<string>): seq<string> { if Joined(system) == "" then [] else [Joined(system)] }

  /** Roles as Claude knows them, with tool results only from the user. */
  predicate Spoken(t: Turn) {
    (t.role == "user" || t.role == "assistant") && (HasToolResult(t.blocks) ==> t.role == "user")
  }

  function LastRole(turns: seq<Turn>): string { if turns == [] then "" else turns[|turns| - 1].role }

  // ---- one turn ----

  lemma PendingOne(parse: string -> Option<Json>, m: Message)
    ensures AllPending(parse, [m]) == Pending(parse, m)
  {
    assert [] + [m] == [m];
    PendingSnoc(parse, [], m);
    assert AllPending(parse, []) == [];
  }

  lemma {:induction false} PendingAppend(parse: string -> Option<Json>, a: seq<Message>, b: seq<Message>)
    ensures AllPending(parse, a + b) == AllPending(parse, a) + AllPending(parse, b)
    decreases |b|
  {
    if b == [] {
      assert a + b == a;
      assert AllPending(parse, b) == [];
    } else {
      hide AllPending, Pending;
      var n := |b| - 1;
      assert b == b[..n] + [b[n]] && a + b == a + b[..n] + [b[n]];
      PendingAppend(parse, a, b[..n]);
      PendingSnoc(parse, a + b[..n], b[n]);
      PendingSnoc(parse, b[..n], b[n]);
    }
  }

  lemma MergeOne(merged: seq<Turn>, t: Turn)
    ensures Fold(Merge, merged, [t]) == Merge(merged, t)
  {
    assert [] + [t] == [t];
    FoldSnoc(Merge, merged, [], t);
  }

  /** A turn of the same role joins the last one. */
  lemma MergeInto(merged: seq<Turn>, last: Turn, t: Turn)
    requires last.role == t.role
    ensures Merge(merged + [last], t) == merged + [Turn(t.role, last.blocks + t.blocks)]
  {
  }

  function ResultTurns(merged: seq<Turn>, blocks: seq<Block>): seq<Turn> {
    if HasToolResult(blocks) then merged + [Turn("user", Gather(ResultsIn, blocks))] else merged
  }

  lemma ResultTurnsSnoc(merged: seq<Turn>, init: seq<Block>, b: Block)
    requires LastRole(merged) != "user" && b.ToolResultBlock?
    ensures ResultTurns(merged, init + [b]) == Merge(ResultTurns(merged, init), Turn("user", ResultsIn(b)))
  {
    HasResultSnoc(init, b);
    GatherSnoc(ResultsIn, init, b);
    if HasToolResult(init) {
      MergeInto(merged, Turn("user", Gather(ResultsIn, init)), Turn("user", ResultsIn(b)));
    } else {
      NoResults(init);
      assert [] + ResultsIn(b) == ResultsIn(b);
    }
    hide Gather, HasToolResult;
  }

  lemma ResultPending(parse: string -> Option<Json>, messages: seq<Message>, b: Block)
    requires b.ToolResultBlock?
    ensures AllPending(parse, messages + ToolMessages(b))
         == AllPending(parse, messages) + [Turn("user", ResultsIn(b))]
  {
    PendingSnoc(parse, messages, ToolMessages(b)[0]);
    hide AllPending, ResultText;
  }

  /** The tool messages of a user turn merge into one turn again. */
  lemma {:induction false} ResultsMerge(parse: string -> Option<Json>, merged: seq<Turn>, blocks: seq<Block>)
    requires LastRole(merged) != "user"
    ensures Fold(Merge, merged, AllPending(parse, Gather(ToolMessages, blocks))) == ResultTurns(merged, blocks)
  {
    if blocks == [] {
      assert AllPending(parse, []) == [];
    } else {
      var n := |blocks| - 1;
      var init, b := blocks[..n], blocks[n];
      assert blocks == init + [b];
      ResultsMerge(parse, merged, init);
      var messages := Gather(ToolMessages, init);
      assert Gather(ToolMessages, blocks) == messages + ToolMessages(b);
      if b.ToolResultBlock? {
        ResultPending(parse, messages, b);
        FoldSnoc(Merge, merged, AllPending(parse, messages), Turn("user", ResultsIn(b)));
        ResultTurnsSnoc(merged, init, b);
        hide ToolMessages, Gather;
      } else {
        HasResultSnoc(init, b);
        GatherSnoc(ResultsIn, init, b);
        assert Gather(ResultsIn, init) + [] == Gather(ResultsIn, init);
        assert Gather(ToolMessages, init) + [] == Gather(ToolMessages, init);
      }
      hide Fold, AllPending, ResultText, HasToolResult, Merge;
    }
  }

  lemma HasResultSnoc(init: seq<Block>, b: Block)
    ensures HasToolResult(init + [b]) <==> HasToolResult(init) || b.ToolResultBlock?
  {
    if HasToolResult(init) {
      var r :| r in init && r.ToolResultBlock?;
      assert r in init + [b];
    }
    if b.ToolResultBlock? {
      assert b in init + [b];
    }
  }

  lemma {:induction false} NoResults(blocks: seq<Block>)
    requires !HasToolResult(blocks)
    ensures Gather(ResultsIn, blocks) == []
  {
    if blocks != [] {
      var n := |blocks| - 1;
      HasResultSnoc(blocks[..n], blocks[n]);
      assert blocks == blocks[..n] + [blocks[n]];
      NoResults(blocks[..n]);
    }
  }

  lemma {:induction false} UsesAreCalls(parse: string -> Option<Json>, blocks: seq<Block>)
    ensures ToolUses(parse, Gather(CallsIn, blocks)) == Gather(UsesIn(parse), blocks)
  {
    if blocks != [] {
      var n := |blocks| - 1;
      UsesAreCalls(parse, blocks[..n]);
    }
  }

  /** The text message behind the tool messages joins their turn. */
  lemma TextJoins(parse: string -> Option<Json>, merged: seq<Turn>, results: seq<Message>, told: Turn, text: string)
    requires told.role == "user" && Fold(Merge, merged, AllPending(parse, results)) == merged + [told]
    ensures Fold(Merge, merged, AllPending(parse, results + [Message("user", Str(text), [], "")]))
         == merged + [Turn("user", told.blocks + OneText(text))]
  {
    var m, said := Message("user", Str(text), [], ""), Turn("user", OneText(text));
    assert ContentBlocks(m.content) == said.blocks && ToolUses(parse, []) == [] && said.blocks + [] == said.blocks;
    assert Pending(parse, m) == [said];
    hide *;
    PendingSnoc(parse, results, m);
    FoldSnoc(Merge, merged, AllPending(parse, results), said);
    MergeInto(merged, told, said);
  }

  /** A turn with tool results comes back as one turn. */
  lemma ResultTurnBack(parse: string -> Option<Json>, merged: seq<Turn>, t: Turn)
    requires LastRole(merged) != "user" && t.role == "user" && HasToolResult(t.blocks)
    ensures Fold(Merge, merged, AllPending(parse, FromTurn(t))) == merged + [Normal(parse, t)]
  {
    var results, texts := Gather(ToolMessages, t.blocks), Gather(BlockTexts, t.blocks);
    var told := Turn("user", Gather(ResultsIn, t.blocks));
    assert FromTurn(t) == results + if texts == [] then [] else [Message("user", Str(Joined(texts)), [], "")];
    assert Normal(parse, t) == Turn("user", told.blocks + OneText(Joined(texts)));
    assert ResultTurns(merged, t.blocks) == merged + [told];
    assert texts == [] ==> OneText(Joined(texts)) == [];
    hide *;
    ResultsMerge(parse, merged, t.blocks);
    if texts == [] {
      assert results + [] == results && told.blocks + [] == told.blocks;
    } else {
      TextJoins(parse, merged, results, told, Joined(texts));
    }
  }

  /** A turn without tool results comes back as one turn. */
  lemma PlainTurnBack(parse: string -> Option<Json>, merged: seq<Turn>, t: Turn)
    requires LastRole(merged) != t.role && !HasToolResult(t.blocks) && (t.role == "user" || t.role == "assistant")
    ensures Fold(Merge, merged, AllPending(parse, FromTurn(t))) == merged + [Normal(parse, t)]
  {
    var calls, text := Gather(CallsIn, t.blocks), Joined(Gather(BlockTexts, t.blocks));
    var m := Message(t.role, if calls != [] && text == "" then Null else Str(text), calls, "");
    UsesAreCalls(parse, t.blocks);
    assert FromTurn(t) == [m];
    assert ContentBlocks(m.content) == OneText(text);
    assert Pending(parse, m) == [Normal(parse, t)] by {
      hide ContentBlocks, ToolUses, Joined, Gather, HasToolResult, OneText;
    }
    assert Merge(merged, Normal(parse, t)) == merged + [Normal(parse, t)] by { hide Normal; }
    hide *;
    PendingOne(parse, m);
    MergeOne(merged, Normal(parse, t));
  }

  // ---- whole requests ----

  lemma TurnBack(parse: string -> Option<Json>, merged: seq<Turn>, t: Turn)
    requires Spoken(t) && LastRole(merged) != t.role
    ensures Fold(Merge, merged, AllPending(parse, FromTurn(t))) == merged + [Normal(parse, t)]
  {
    hide Fold, Normal, AllPending, FromTurn, HasToolResult;
    if HasToolResult(t.blocks) {
      ResultTurnBack(parse, merged, t);
    } else {
      PlainTurnBack(parse, merged, t);
    }
  }

  lemma NormalSnoc(parse: string -> Option<Json>, init: seq<Turn>, t: Turn)
    ensures AllNormal(parse, init + [t]) == AllNormal(parse, init) + [Normal(parse, t)]
    ensures LastRole(AllNormal(parse, init)) == LastRole(init)
  {
    hide Normal;
  }

  lemma AlternatesSnoc(init: seq<Turn>, t: Turn)
    requires Alternates(init + [t]) && Spoken(t)
    ensures Alternates(init) && LastRole(init) != t.role
  {
    var turns := init + [t];
    assert forall i :: 0 <= i < |init| ==> turns[i] == init[i];
    assert init != [] ==> turns[|init| - 1].role != turns[|init|].role;
  }

  lemma {:induction false} TurnsBack(parse: string -> Option<Json>, turns: seq<Turn>)
    requires Alternates(turns) && forall t <- turns :: Spoken(t)
    ensures Fold(Merge, [], AllPending(parse, Gather(FromTurn, turns))) == AllNormal(parse, turns)
  {
    if turns == [] {
      assert AllPending(parse, []) == [];
    } else {
      hide *;
      var n, t := |turns| - 1, turns[|turns| - 1];
      var init := turns[..n];
      assert turns == init + [t];
      AlternatesSnoc(init, t);
      TurnsBack(parse, init);
      NormalSnoc(parse, init, t);
      GatherSnoc(FromTurn, init, t);
      PendingAppend(parse, Gather(FromTurn, init), FromTurn(t));
      FoldAppend(Merge, [], AllPending(parse, Gather(FromTurn, init)), AllPending(parse, FromTurn(t)));
      TurnBack(parse, AllNormal(parse, init), t);
    }
  }

  lemma {:induction false} TurnsHaveNoSystem(turns: seq<Turn>)
    requires forall t <- turns :: Spoken(t)
    ensures Gather(SystemTexts, Gather(FromTurn, turns)) == []
  {
    if turns != [] {
      var n := |turns| - 1;
      TurnsHaveNoSystem(turns[..n]);
      GatherAppend(SystemTexts, Gather(FromTurn, turns[..n]), FromTurn(turns[n]));
      assert Spoken(turns[n]);
      TurnHasNoSystem(turns[n]);
      hide FromTurn, SystemTexts;
    }
  }

  lemma TurnHasNoSystem(t: Turn)
    requires Spoken(t)
    ensures Gather(SystemTexts, FromTurn(t)) == []
  {
    forall m <- FromTurn(t) ensures SystemTexts(m) == [] {
      ToolMessagesOnly(t.blocks, m);
    }
    NothingFrom(FromTurn(t));
    hide FromTurn;
  }

  lemma {:induction false} NothingFrom(messages: seq<Message>)
    requires forall m <- messages :: SystemTexts(m) == []
    ensures Gather(SystemTexts, messages) == []
  {
    if messages != [] {
      NothingFrom(messages[..|messages| - 1]);
    }
  }

  lemma {:induction false} ToolMessagesOnly(blocks: seq<Block>, m: Message)
    ensures m in Gather(ToolMessages, blocks) ==> m.role == "tool"
  {
    if blocks != [] {
      ToolMessagesOnly(blocks[..|blocks| - 1], m);
    }
  }

  lemma SystemBack(parse: string -> Option<Json>, system: seq<string>)
    ensures AllPending(parse, FromSystem(system)) == []
    ensures Gather(SystemTexts, FromSystem(system)) == NormalSystem(system)
  {
    NothingGathered(parse);
    hide Joined, AllPending, Gather;
    if Joined(system) != "" {
      var m := Message("system", Str(Joined(system)), [], "");
      assert FromSystem(system) == [m] && Pending(parse, m) == [] && SystemTexts(m) == NormalSystem(system);
      hide *;
      PendingOne(parse, m);
      GatherSnoc(SystemTexts, [], m);
      assert [] + [m] == [m] && [] + SystemTexts(m) == SystemTexts(m);
    }
  }

  lemma NormalAlready(parse: string -> Option<Json>, turns: seq<Turn>)
    ensures UserFirst(AllNormal(parse, turns)) == turns
            <==> FirstRole(turns) == "user" && forall t <- turns :: Normal(parse, t) == t
  {
    var normal := AllNormal(parse, turns);
    assert turns != [] ==> normal[0].role == turns[0].role;
    hide Normal;
    if normal == turns {
      forall t <- turns ensures Normal(parse, t) == t {
        var i :| 0 <= i < |turns| && turns[i] == t;
        assert normal[i] == turns[i];
      }
    }
  }

  /** Every request with alternating turns comes back in its normal form, behind a placeholder when the user does not
      speak first; and so unchanged exactly when it is in that form already. */
  lemma ClaudeRequestRoundTrips(parse: string -> Option<Json>, r: ClaudeRequest)
    requires Alternates(r.turns) && forall t <- r.turns :: Spoken(t)
    ensures var back := ToClaude(parse, ToOpenai(r));
            && back == ClaudeRequest(NormalSystem(r.system), UserFirst(AllNormal(parse, r.turns)))
            && (back == r <==>
                  && NormalSystem(r.system) == r.system && FirstRole(r.turns) == "user"
                  && forall t <- r.turns :: Normal(parse, t) == t)
  {
    var system, talk := FromSystem(r.system), Gather(FromTurn, r.turns);
    TurnsBack(parse, r.turns);
    TurnsHaveNoSystem(r.turns);
    SystemBack(parse, r.system);
    PendingAppend(parse, system, talk);
    GatherAppend(SystemTexts, system, talk);
    NormalAlready(parse, r.turns);
    hide FromSystem, FromTurn, Gather, AllPending, Fold, UserFirst, AllNormal, NormalSystem, Normal, Alternates;
    assert [] + AllPending(parse, talk) == AllPending(parse, talk);
  }
}
