/** A request driven by the failover loop is one session of the billing protocol, among any number of others. */
module FailoverSessions {
  import opened Folds
  import opened Ledger
  import opened Routing
  import opened Wire
  import F = Failover
  import B = Billing
  import H = Health

  /** What others do while a request is being closed: before the close, before its look at the remainder, and before
      its mark. */
  datatype Others = Others(before: seq<B.Action>, atLook: seq<B.Action>, atMark: seq<B.Action>)

  ghost predicate LeaveAlone(o: Others, i: nat) {
    forall a :: a in o.before || a in o.atLook || a in o.atMark ==> B.LeavesAlone(a, i)
  }

  /** The actions that close session `i`, with those of others in between. */
  function ClosingActions(i: nat, cost: Option<nat>, o: Others): seq<B.Action> {
    o.before +
    match cost
    case Some(actual) => [B.Settle(i, actual)] + o.atLook + [B.Read(i)] + o.atMark + [B.Mark(i)]
    case None => [B.Refund(i)]
  }

  function Adjusting(w: B.World, i: nat, actual: nat): B.World { B.Step(w, B.Settle(i, actual)) }

  function Looking(w: B.World, i: nat, actual: nat, look: seq<B.Action>): B.World {
    B.Step(Fold(B.Step, Adjusting(w, i, actual), look), B.Read(i))
  }

  /** What the request sees of the others' actions: their transactions. */
  function WaitOf(w: B.World, i: nat, cost: Option<nat>, o: Others): F.Wait {
    var late := Fold(B.Step, w, o.before);
    F.Wait(B.Transactions(w, o.before),
           match cost
           case Some(actual) =>
             Gap(B.Transactions(Adjusting(late, i, actual), o.atLook),
                 B.Transactions(Looking(late, i, actual, o.atLook), o.atMark))
           case None => NO_GAP)
  }

  function ClosedStage(pre: int, cost: Option<nat>): B.Stage {
    match cost
    case Some(actual) => B.Settled(pre, actual)
    case None => B.Refunded(pre)
  }

  /** What others do meanwhile moves the books by their transactions and the session not at all. */
  lemma OthersAct(w: B.World, actions: seq<B.Action>, i: nat)
    requires i < |w.sessions| && forall a <- actions :: B.LeavesAlone(a, i)
    ensures var later := Fold(B.Step, w, actions);
            && later.books == Fold(Applied, w.books, B.Transactions(w, actions))
            && i < |later.sessions| && later.sessions[i] == w.sessions[i]
  {
    B.OthersLeaveAlone(w, actions, i);
    B.RunTransacts(w, actions);
  }

  /** A settlement with others' actions before its look and before its mark. */
  lemma SettlementIsActions(w: B.World, i: nat, actual: nat, look: seq<B.Action>, mark: seq<B.Action>)
    requires i < |w.sessions| && w.sessions[i].stage.Open?
    requires forall a :: a in look || a in mark ==> B.LeavesAlone(a, i)
    ensures var s := w.sessions[i];
            var w3 := Looking(w, i, actual, look);
            var done := B.Step(Fold(B.Step, w3, mark), B.Mark(i));
            var gap := Gap(B.Transactions(Adjusting(w, i, actual), look), B.Transactions(w3, mark));
            && done.books == SettledBooks(w.books, s.user, s.token, s.stage.pre, actual, s.limited, gap)
            && i < |done.sessions| && done.sessions[i] == s.(stage := B.Settled(s.stage.pre, actual))
  {
    var s, w1, w3 := w.sessions[i], Adjusting(w, i, actual), Looking(w, i, actual, look);
    var w2, w4 := Fold(B.Step, w1, look), Fold(B.Step, w3, mark);
    var gap := Gap(B.Transactions(w1, look), B.Transactions(w3, mark));
    Adjusts(w, i, actual);
    assert SettledBooks(w.books, s.user, s.token, s.stage.pre, actual, s.limited, gap) ==
           var a := Fold(Applied, w1.books, gap.beforeLook);
           var c := Fold(Applied, a, gap.beforeMark);
           if s.limited && B.Drained(a, s.token) then Marked(c, s.token, EXHAUSTED) else c by {
      hide Fold, Applied, Adjusted, Marked, B.Transactions, B.Step, Looking, Adjusting;
    }
    assert w3 == B.Step(w2, B.Read(i));
    hide *;
    OthersAct(w1, look, i);
    Looks(w2, i, s, actual);
    OthersAct(w3, mark, i);
    Marks(w4, i, s, actual);
  }

  lemma Adjusts(w: B.World, i: nat, actual: nat)
    requires i < |w.sessions| && w.sessions[i].stage.Open?
    ensures var s, next := w.sessions[i], Adjusting(w, i, actual);
            && next.books == Adjusted(w.books, s.user, s.token, actual - s.stage.pre, s.limited)
            && |next.sessions| == |w.sessions|
            && next.sessions[i]
               == s.(stage := if s.limited then B.Settling(s.stage.pre, actual) else B.Settled(s.stage.pre, actual))
  {
    hide Adjusted;
  }

  /** The request's look at the remainder, which an unlimited one skips. */
  lemma Looks(w: B.World, i: nat, s: B.Session, actual: nat)
    requires s.stage.Open? && i < |w.sessions|
    requires w.sessions[i]
          == s.(stage := if s.limited then B.Settling(s.stage.pre, actual) else B.Settled(s.stage.pre, actual))
    ensures var next := B.Step(w, B.Read(i));
            && next.books == w.books && |next.sessions| == |w.sessions|
            && next.sessions[i] == s.(stage := if s.limited && B.Drained(w.books, s.token)
                                               then B.Marking(s.stage.pre, actual)
                                               else B.Settled(s.stage.pre, actual))
  {
  }

  lemma Marks(w: B.World, i: nat, s: B.Session, actual: nat)
    requires s.stage.Open? && i < |w.sessions|
    requires || w.sessions[i] == s.(stage := B.Marking(s.stage.pre, actual))
             || w.sessions[i] == s.(stage := B.Settled(s.stage.pre, actual))
    ensures var next := B.Step(w, B.Mark(i));
            && i < |next.sessions| && next.sessions[i] == s.(stage := B.Settled(s.stage.pre, actual))
            && next.books == if w.sessions[i].stage.Marking? then Marked(w.books, s.token, EXHAUSTED) else w.books
  {
  }

  lemma CloseIsAction(w: B.World, i: nat, t: F.Terms, cost: Option<nat>, o: Others)
    requires i < |w.sessions| && w.sessions[i] == B.Session(t.user, t.token, t.limited, B.Open(t.pre))
    requires LeaveAlone(o, i)
    ensures var done := Fold(B.Step, w, ClosingActions(i, cost, o));
            && done.books == F.Closed(w.books, t, cost, WaitOf(w, i, cost, o))
            && i < |done.sessions| && done.sessions[i] == w.sessions[i].(stage := ClosedStage(t.pre, cost))
  {
    OthersAct(w, o.before, i);
    var late := Fold(B.Step, w, o.before);
    match cost {
      case Some(actual) =>
        SettlementIsActions(late, i, actual, o.atLook, o.atMark);
        ActionsInARow(late, B.Settle(i, actual), o.atLook, B.Read(i), o.atMark, B.Mark(i));
        FoldAppend(B.Step, w, o.before, [B.Settle(i, actual)] + o.atLook + [B.Read(i)] + o.atMark + [B.Mark(i)]);
      case None =>
        B.UninterruptedRefund(late, i);
        FoldSnoc(B.Step, w, o.before, B.Refund(i));
    }
    hide B.Step, Fold, Applied, Adjusted, SettledBooks, B.Transactions, LeaveAlone;
  }

  lemma ActionsInARow(w: B.World, a: B.Action, look: seq<B.Action>, b: B.Action, mark: seq<B.Action>, c: B.Action)
    ensures Fold(B.Step, w, [a] + look + [b] + mark + [c])
            == B.Step(Fold(B.Step, B.Step(Fold(B.Step, B.Step(w, a), look), b), mark), c)
  {
    FoldSnoc(B.Step, w, [], a);
    assert [] + [a] == [a];
    assert Fold(B.Step, w, []) == w;
    hide B.Step, Fold;
    FoldAppend(B.Step, w, [a], look);
    FoldSnoc(B.Step, w, [a] + look, b);
    FoldAppend(B.Step, w, [a] + look + [b], mark);
    FoldSnoc(B.Step, w, [a] + look + [b] + mark, c);
  }

  lemma ChargeIsAction(w: B.World, user: int, token: int, grid: Grid, shop: F.Shop)
    requires grid != [] && grid[0] != [] && F.Starts(w.books, user, token, grid, shop)
    ensures var t := F.TermsOf(w.books, user, token, grid, shop);
            var open := Fold(B.Step, w, [B.Ask(user, token, t.pre), B.Charge(|w.sessions|)]);
            && open.books == F.Charged(w.books, t)
            && open.sessions == w.sessions + [B.Session(user, token, t.limited, B.Open(t.pre))]
  {
    var t := F.TermsOf(w.books, user, token, grid, shop);
    B.TwoSteps(w, [B.Ask(user, token, t.pre), B.Charge(|w.sessions|)]);
    B.UninterruptedCharge(w, user, token, t.pre);
    hide B.Step, Adjusted, Affordable;
  }

  /** The actions a request driven by the loop performs, with those of others in between: while it tries keys, and
      while it is being closed. */
  function RequestActions(i: nat, t: F.Terms, trying: seq<B.Action>, cost: Option<nat>, o: Others): seq<B.Action> {
    [B.Ask(t.user, t.token, t.pre), B.Charge(i)] + trying + ClosingActions(i, cost, o)
  }

  function Charging(w: B.World, t: F.Terms): B.World {
    Fold(B.Step, w, [B.Ask(t.user, t.token, t.pre), B.Charge(|w.sessions|)])
  }

  /** A request that is charged, tries keys, and is closed at some cost or at none. */
  lemma ChargedAndClosed(w: B.World, user: int, token: int, grid: Grid, shop: F.Shop, trying: seq<B.Action>,
                         cost: Option<nat>, o: Others)
    requires grid != [] && grid[0] != [] && F.Starts(w.books, user, token, grid, shop)
    requires (forall a <- trying :: B.LeavesAlone(a, |w.sessions|)) && LeaveAlone(o, |w.sessions|)
    ensures var i, t := |w.sessions|, F.TermsOf(w.books, user, token, grid, shop);
            var open := Charging(w, t);
            var tried := Fold(B.Step, open, trying);
            var done := Fold(B.Step, w, RequestActions(i, t, trying, cost, o));
            && done.books
               == F.Closed(Fold(Applied, F.Charged(w.books, t), B.Transactions(open, trying)), t, cost,
                           WaitOf(tried, i, cost, o))
            && i < |done.sessions|
            && done.sessions[i] == B.Session(user, token, t.limited, ClosedStage(t.pre, cost))
  {
    var i, t := |w.sessions|, F.TermsOf(w.books, user, token, grid, shop);
    var asked := [B.Ask(user, token, t.pre), B.Charge(i)];
    ChargeIsAction(w, user, token, grid, shop);
    var open := Charging(w, t);
    OthersAct(open, trying, i);
    assert RequestActions(i, t, trying, cost, o) == asked + trying + ClosingActions(i, cost, o);
    hide *;
    CloseIsAction(Fold(B.Step, open, trying), i, t, cost, o);
    FoldAppend(B.Step, w, asked, trying);
    FoldAppend(B.Step, w, asked + trying, ClosingActions(i, cost, o));
  }

  /** In any world of sessions, and whatever others do meanwhile: the books `Execute` leaves behind are those of the
      billing run in which the request asks, is charged, and closes once, by settling or by a refund; and its
      session ends closed with the reply's cost or with nothing. */
  lemma RequestIsASession(w: B.World, user: int, token: int, grid: Grid, script: F.Script, shop: F.Shop,
                          states: H.States, trying: seq<B.Action>, o: Others)
    requires grid != [] && grid[0] != [] && F.Starts(w.books, user, token, grid, shop)
    requires (forall a <- trying :: B.LeavesAlone(a, |w.sessions|)) && LeaveAlone(o, |w.sessions|)
    requires B.Transactions(Charging(w, F.TermsOf(w.books, user, token, grid, shop)), trying)
             == Gather(F.TransactionsAt(script), F.Run(grid, script, states).visits)
    ensures var i, t := |w.sessions|, F.TermsOf(w.books, user, token, grid, shop);
            var end := F.Run(grid, script, states);
            var cost := F.CostOf(grid, shop, end);
            var wait := WaitOf(Fold(B.Step, Charging(w, t), trying), i, cost, o);
            var done := Fold(B.Step, w, RequestActions(i, t, trying, cost, o));
            && done.books == F.Billed(w.books, t, grid, script, shop, end, wait)
            && i < |done.sessions|
            && done.sessions[i] == B.Session(user, token, t.limited, ClosedStage(t.pre, cost))
  {
    ChargedAndClosed(w, user, token, grid, shop, trying, F.CostOf(grid, shop, F.Run(grid, script, states)), o);
    hide F.Run, F.CostOf, F.TermsOf, F.Starts, WaitOf, B.Step, RequestActions, Charging, F.Closed, B.Transactions;
  }

  /** The same of a streamed request: what `ExecuteStream` and, after the stream, `StreamTail` make of the books is
      the run in which the request asks, is charged, and settles once on the usage that came through. */
  lemma StreamIsASession(w: B.World, user: int, token: int, grid: Grid, script: F.Script, shop: F.Shop,
                         states: H.States, trying: seq<B.Action>, o: Others, mode: F.Mode, items: seq<F.Item>,
                         pricing: Option<int>)
    requires grid != [] && grid[0] != [] && F.Starts(w.books, user, token, grid, shop)
    requires (forall a <- trying :: B.LeavesAlone(a, |w.sessions|)) && LeaveAlone(o, |w.sessions|)
    requires B.Transactions(Charging(w, F.TermsOf(w.books, user, token, grid, shop)), trying)
             == Gather(F.TransactionsAt(script), F.Run(grid, script, states).visits)
    ensures var i, t := |w.sessions|, F.TermsOf(w.books, user, token, grid, shop);
            var handedOver := F.Disturbed(F.Charged(w.books, t), script, F.Run(grid, script, states).visits);
            var cost := Some(shop.cost(F.Consumed(mode, items), pricing));
            var wait := WaitOf(Fold(B.Step, Charging(w, t), trying), i, cost, o);
            var done := Fold(B.Step, w, RequestActions(i, t, trying, cost, o));
            && done.books == F.Closed(handedOver, t, cost, wait)
            && i < |done.sessions|
            && done.sessions[i] == B.Session(user, token, t.limited, B.Settled(t.pre, cost.value))
  {
    ChargedAndClosed(w, user, token, grid, shop, trying, Some(shop.cost(F.Consumed(mode, items), pricing)), o);
    hide F.Run, F.Consumed, F.TermsOf, F.Starts, WaitOf, B.Step, RequestActions, Charging, F.Closed, B.Transactions;
  }
}
