/** Any number of requests billing against the same balances, one storage transaction at a time. */
module Billing {
  import opened Folds
  import opened Ledger

  datatype Stage =
    | Asked(estimate: int)
    | Open(pre: int)
    | Settling(pre: int, actual: int)
    | Marking(pre: int, actual: int)
    | Settled(pre: int, actual: int)
    | Refunded(pre: int)
    | Refused

  /** `limited` is the flag as it was read when the request asked. */
  datatype Session = Session(user: int, token: int, limited: bool, stage: Stage)

  datatype World = World(books: Books, sessions: seq<Session>)

  datatype Action =
    | Ask(user: int, token: int, estimate: int)
    | Charge(i: nat)
    | Settle(i: nat, actual: int)
    | Read(i: nat)
    | Mark(i: nat)
    | Refund(i: nat)
    | SetUnlimited(token: int, unlimited: bool)

  function Moved(w: World, i: nat, books: Books, stage: Stage): World
    requires i < |w.sessions|
  {
    World(books, w.sessions[i := w.sessions[i].(stage := stage)])
  }

  /** One transaction of one request; an action its request is not ready for changes nothing.  Reading the unlimited
      flag, charging, adjusting, reading the remainder and writing the exhausted mark are five separate transactions;
      between any two of them every other request may run. */
  function Step(w: World, a: Action): World {
    match a
    case Ask(user, token, estimate) =>
      if estimate < 0 || token !in w.books.tokens then w
      else
        var stage := if estimate == 0 then Open(0) else Asked(estimate);
        w.(sessions := w.sessions + [Session(user, token, !w.books.tokens[token].unlimited, stage)])
    case SetUnlimited(token, unlimited) =>
      if token in w.books.tokens
      then w.(books := w.books.(tokens := w.books.tokens[token := w.books.tokens[token].(unlimited := unlimited)]))
      else w
    case _ =>
      if a.i < |w.sessions| then Turn(w, a, w.sessions[a.i]) else w
  }

  function Turn(w: World, a: Action, s: Session): World
    requires !a.Ask? && !a.SetUnlimited? && a.i < |w.sessions| && s == w.sessions[a.i]
  {
    match (a, s.stage)
    case (Charge(i), Asked(estimate)) =>
      if Affordable(w.books, s.user, s.token, estimate, s.limited)
      then Moved(w, i, Adjusted(w.books, s.user, s.token, estimate, s.limited), Open(estimate))
      else Moved(w, i, w.books, Refused)
    case (Settle(i, actual), Open(pre)) =>
      if actual < 0 then w
      else
        Moved(w, i, Adjusted(w.books, s.user, s.token, actual - pre, s.limited),
              if s.limited then Settling(pre, actual) else Settled(pre, actual))
    case (Read(i), Settling(pre, actual)) =>
      Moved(w, i, w.books, if Drained(w.books, s.token) then Marking(pre, actual) else Settled(pre, actual))
    case (Mark(i), Marking(pre, actual)) =>
      Moved(w, i, Marked(w.books, s.token, EXHAUSTED), Settled(pre, actual))
    case (Refund(i), Open(pre)) =>
      Moved(w, i, Adjusted(w.books, s.user, s.token, -pre, s.limited), Refunded(pre))
    case _ => w
  }

  predicate Drained(b: Books, token: int) {
    token in b.tokens && b.tokens[token].remain <= 0
  }

  function Run(start: Books, actions: seq<Action>): World {
    Fold(Step, World(start, []), actions)
  }

  // ---- what a session has taken so far ----

  /** An open session holds its pre-charge, a settling or settled one its actual cost, any other nothing. */
  function Held(stage: Stage): int {
    match stage
    case Open(pre) => pre
    case Settling(_, actual) => actual
    case Marking(_, actual) => actual
    case Settled(_, actual) => actual
    case _ => 0
  }

  function UserShare(user: int): Session -> int {
    (s: Session) => if s.user == user then Held(s.stage) else 0
  }

  function TokenShare(token: int): Session -> int {
    (s: Session) => if s.token == token && s.limited then Held(s.stage) else 0
  }

  /** The books are the opening books plus what the sessions hold, row by row and column by column. */
  ghost predicate Conserved(start: Books, w: World) {
    && w.books.users.Keys == start.users.Keys
    && w.books.tokens.Keys == start.tokens.Keys
    && (forall u <- start.users ::
          w.books.users[u] == start.users[u].(used := start.users[u].used + Total(UserShare(u), w.sessions)))
    && (forall t <- start.tokens ::
          && w.books.tokens[t].remain == start.tokens[t].remain - Total(TokenShare(t), w.sessions)
          && w.books.tokens[t].used == start.tokens[t].used + Total(TokenShare(t), w.sessions))
  }

  /** Every turn moves the books by exactly the change in what its session holds. */
  lemma TurnMovesHeld(w: World, a: Action)
    requires !a.Ask? && !a.SetUnlimited? && a.i < |w.sessions|
    ensures var s, next := w.sessions[a.i], Step(w, a);
            && |next.sessions| == |w.sessions|
            && var t := next.sessions[a.i];
            && next.sessions == w.sessions[a.i := t]
            && t == s.(stage := t.stage)
            && var moved := Adjusted(w.books, s.user, s.token, Held(t.stage) - Held(s.stage), s.limited);
            && next.books == if a.Mark? && s.stage.Marking? then Marked(moved, s.token, EXHAUSTED) else moved
  {
    var s := w.sessions[a.i];
    NoShift(w.books, s.user, s.token, s.limited);
    assert w.sessions == w.sessions[a.i := s];
  }

  lemma TurnConserves(start: Books, w: World, a: Action)
    requires Conserved(start, w)
    requires !a.Ask? && !a.SetUnlimited? && a.i < |w.sessions|
    ensures Conserved(start, Step(w, a))
  {
    hide Step, Total, Held;
    TurnMovesHeld(w, a);
    var next := Step(w, a);
    var t := next.sessions[a.i];
    forall u <- start.users
      ensures next.books.users[u]
              == start.users[u].(used := start.users[u].used + Total(UserShare(u), next.sessions))
    {
      TotalUpdate(UserShare(u), w.sessions, a.i, t);
    }
    forall k <- start.tokens
      ensures next.books.tokens[k].remain == start.tokens[k].remain - Total(TokenShare(k), next.sessions)
      ensures next.books.tokens[k].used == start.tokens[k].used + Total(TokenShare(k), next.sessions)
    {
      TotalUpdate(TokenShare(k), w.sessions, a.i, t);
    }
  }

  lemma StepConserves(start: Books, w: World, a: Action)
    requires Conserved(start, w)
    ensures Conserved(start, Step(w, a))
  {
    var next := Step(w, a);
    if a.Ask? {
      if next != w {
        var s := next.sessions[|w.sessions|];
        forall u ensures Total(UserShare(u), next.sessions) == Total(UserShare(u), w.sessions) {
          TotalSnoc(UserShare(u), w.sessions, s);
        }
        forall t ensures Total(TokenShare(t), next.sessions) == Total(TokenShare(t), w.sessions) {
          TotalSnoc(TokenShare(t), w.sessions, s);
        }
      }
    } else if !a.SetUnlimited? && a.i < |w.sessions| {
      TurnConserves(start, w, a);
    }
  }

  /** In every reachable state each balance is its opening value moved by what the sessions hold: a refunded or
      refused request contributes nothing, and the token layer moves with the user layer or not at all,
      as the flag read at the start says. */
  lemma {:induction false} RunConserves(start: Books, actions: seq<Action>)
    ensures Conserved(start, Run(start, actions))
  {
    if actions != [] {
      var n := |actions| - 1;
      RunConserves(start, actions[..n]);
      StepConserves(start, Run(start, actions[..n]), actions[n]);
    }
  }

  // ---- how far a balance can be overdrawn ----

  function Max(a: int, b: int): int { if a < b then b else a }

  function Min(a: int, b: int): int { if a < b then a else b }

  /** What a settlement took beyond its pre-charge. */
  function Excess(stage: Stage): int {
    match stage
    case Settling(pre, actual) => Max(0, actual - pre)
    case Marking(pre, actual) => Max(0, actual - pre)
    case Settled(pre, actual) => Max(0, actual - pre)
    case _ => 0
  }

  function UserExcess(user: int): Session -> int {
    (s: Session) => if s.user == user then Excess(s.stage) else 0
  }

  function TokenExcess(token: int): Session -> int {
    (s: Session) => if s.token == token && s.limited then Excess(s.stage) else 0
  }

  predicate NonNegative(stage: Stage) {
    match stage
    case Asked(estimate) => estimate > 0
    case Open(pre) => pre >= 0
    case Settling(pre, actual) => pre >= 0 && actual >= 0
    case Marking(pre, actual) => pre >= 0 && actual >= 0
    case Settled(pre, actual) => pre >= 0 && actual >= 0
    case Refunded(pre) => pre >= 0
    case Refused => true
  }

  ghost predicate Sane(w: World) {
    forall s <- w.sessions :: NonNegative(s.stage) && (s.stage.Settling? || s.stage.Marking? ==> s.limited)
  }

  ghost predicate Bounded(start: Books, w: World) {
    && w.books.users.Keys == start.users.Keys
    && w.books.tokens.Keys == start.tokens.Keys
    && (forall u <- start.users ::
          && w.books.users[u].quota == start.users[u].quota
          && w.books.users[u].used
             <= Max(start.users[u].used, start.users[u].quota) + Total(UserExcess(u), w.sessions))
    && (forall t <- start.tokens ::
          w.books.tokens[t].remain >= Min(start.tokens[t].remain, 0) - Total(TokenExcess(t), w.sessions))
  }

  lemma StepStaysSane(w: World, a: Action)
    requires Sane(w)
    ensures Sane(Step(w, a))
  {
    if !a.Ask? && !a.SetUnlimited? && a.i < |w.sessions| {
      TurnMovesHeld(w, a);
      assert w.sessions[a.i] in w.sessions;
    }
  }

  lemma TurnTotal(w: World, a: Action, share: Session -> int)
    requires !a.Ask? && !a.SetUnlimited? && a.i < |w.sessions|
    ensures var next := Step(w, a);
            && |next.sessions| == |w.sessions|
            && Total(share, next.sessions)
               == Total(share, w.sessions) - share(w.sessions[a.i]) + share(next.sessions[a.i])
  {
    TurnMovesHeld(w, a);
    TotalUpdate(share, w.sessions, a.i, Step(w, a).sessions[a.i]);
  }

  lemma UserTurnBounded(start: Books, w: World, a: Action, u: int)
    requires Bounded(start, w) && Sane(w) && u in start.users
    requires !a.Ask? && !a.SetUnlimited? && a.i < |w.sessions|
    ensures var next := Step(w, a);
            && u in next.books.users && next.books.users[u].quota == start.users[u].quota
            && next.books.users[u].used
               <= Max(start.users[u].used, start.users[u].quota) + Total(UserExcess(u), next.sessions)
  {
    hide Total;
    assert NonNegative(w.sessions[a.i].stage);
    TurnTotal(w, a, UserExcess(u));
    TotalPositive(UserExcess(u), w.sessions);
  }

  lemma TokenTurnBounded(start: Books, w: World, a: Action, t: int)
    requires Bounded(start, w) && Sane(w) && t in start.tokens
    requires !a.Ask? && !a.SetUnlimited? && a.i < |w.sessions|
    ensures var next := Step(w, a);
            && t in next.books.tokens
            && next.books.tokens[t].remain >= Min(start.tokens[t].remain, 0) - Total(TokenExcess(t), next.sessions)
  {
    hide Total;
    assert NonNegative(w.sessions[a.i].stage);
    TurnTotal(w, a, TokenExcess(t));
    TotalPositive(TokenExcess(t), w.sessions);
  }

  lemma TurnStaysBounded(start: Books, w: World, a: Action)
    requires Bounded(start, w) && Sane(w)
    requires !a.Ask? && !a.SetUnlimited? && a.i < |w.sessions|
    ensures Bounded(start, Step(w, a))
  {
    TurnMovesHeld(w, a);
    hide Total, Step, Turn;
    forall u <- start.users {
      UserTurnBounded(start, w, a, u);
    }
    forall t <- start.tokens {
      TokenTurnBounded(start, w, a, t);
    }
  }

  lemma StepStaysBounded(start: Books, w: World, a: Action)
    requires Bounded(start, w) && Sane(w)
    ensures Bounded(start, Step(w, a))
  {
    var next := Step(w, a);
    if a.Ask? {
      if next != w {
        var s := next.sessions[|w.sessions|];
        forall u ensures Total(UserExcess(u), next.sessions) == Total(UserExcess(u), w.sessions) {
          TotalSnoc(UserExcess(u), w.sessions, s);
        }
        forall t ensures Total(TokenExcess(t), next.sessions) == Total(TokenExcess(t), w.sessions) {
          TotalSnoc(TokenExcess(t), w.sessions, s);
        }
      }
    } else if !a.SetUnlimited? && a.i < |w.sessions| {
      TurnStaysBounded(start, w, a);
    }
  }

  /** However the requests interleave, a balance is overdrawn by no more than the settlements' excess over
      their own pre-charges; pre-charging alone never overdraws. */
  lemma {:induction false} OverdraftBound(start: Books, actions: seq<Action>)
    ensures Sane(Run(start, actions)) && Bounded(start, Run(start, actions))
  {
    if actions != [] {
      var n := |actions| - 1;
      OverdraftBound(start, actions[..n]);
      StepStaysSane(Run(start, actions[..n]), actions[n]);
      StepStaysBounded(start, Run(start, actions[..n]), actions[n]);
    }
  }

  // ---- the exhausted mark ----

  predicate Limits(s: Session, token: int) { s.token == token && s.limited }

  function Pending(token: int): Session -> int {
    (s: Session) => if Limits(s, token) && (s.stage.Settling? || s.stage.Marking?) then 1 else 0
  }

  function Marks(token: int): Session -> int {
    (s: Session) => if Limits(s, token) && s.stage.Marking? then 1 else 0
  }

  function Reserved(token: int): Session -> int {
    (s: Session) => if Limits(s, token) && s.stage.Open? then Max(0, s.stage.pre) else 0
  }

  function Finished(token: int): Session -> int {
    (s: Session) => if Limits(s, token) && s.stage.Settled? then 1 else 0
  }

  /** What was given back to the token after having been charged. */
  function GivenBack(token: int): Session -> int {
    (s: Session) => if Limits(s, token) then Returned(s.stage) else 0
  }

  function Returned(stage: Stage): int {
    match stage
    case Settling(pre, actual) => Max(0, pre - actual)
    case Marking(pre, actual) => Max(0, pre - actual)
    case Settled(pre, actual) => Max(0, pre - actual)
    case Refunded(pre) => Max(0, pre)
    case _ => 0
  }

  /** A drained token is marked, or somebody is about to look, or enough is reserved to fill it again,
      or nobody has settled on it yet. */
  ghost predicate Watched(w: World, token: int) {
    Drained(w.books, token) ==>
      || w.books.tokens[token].status == EXHAUSTED
      || Total(Pending(token), w.sessions) > 0
      || w.books.tokens[token].remain + Total(Reserved(token), w.sessions) > 0
      || Total(Finished(token), w.sessions) == 0
  }

  lemma StepWatches(w: World, a: Action, token: int)
    requires Watched(w, token) && Sane(w)
    ensures Watched(Step(w, a), token)
  {
    hide Total;
    var next := Step(w, a);
    if a.Ask? {
      if next != w {
        var s := next.sessions[|w.sessions|];
        TotalSnoc(Pending(token), w.sessions, s);
        TotalSnoc(Reserved(token), w.sessions, s);
        TotalSnoc(Finished(token), w.sessions, s);
      }
    } else if !a.SetUnlimited? && a.i < |w.sessions| {
      assert NonNegative(w.sessions[a.i].stage);
      TurnTotal(w, a, Pending(token));
      TurnTotal(w, a, Reserved(token));
      TurnTotal(w, a, Finished(token));
      TotalPositive(Pending(token), w.sessions);
      TotalPositive(Reserved(token), w.sessions);
      TotalPositive(Finished(token), w.sessions);
    }
  }

  lemma {:induction false} RunWatches(start: Books, actions: seq<Action>, token: int)
    ensures Watched(Run(start, actions), token)
  {
    if actions != [] {
      var n := |actions| - 1;
      RunWatches(start, actions[..n], token);
      OverdraftBound(start, actions[..n]);
      StepWatches(Run(start, actions[..n]), actions[n], token);
    }
  }

  predicate Closed(s: Session) {
    s.stage.Settled? || s.stage.Refunded? || s.stage.Refused?
  }

  predicate AtRest(w: World) {
    forall s <- w.sessions :: Closed(s)
  }

  predicate SettledOn(w: World, token: int) {
    exists s <- w.sessions :: Limits(s, token) && s.stage.Settled?
  }

  lemma SettledCounts(w: World, token: int)
    ensures Total(Finished(token), w.sessions) > 0 <==> SettledOn(w, token)
  {
    TotalPositive(Finished(token), w.sessions);
  }

  /** Once no request is under way, a drained token on which a limited request settled carries the mark,
      although adjusting, looking and marking are separate transactions. */
  lemma ExhaustedAtRest(start: Books, actions: seq<Action>, token: int)
    requires var w := Run(start, actions);
             && AtRest(w) && token in w.books.tokens && w.books.tokens[token].remain <= 0
             && exists s <- w.sessions :: s.token == token && s.limited && s.stage.Settled?
    ensures Run(start, actions).books.tokens[token].status == 3
  {
    var w := Run(start, actions);
    RunWatches(start, actions, token);
    SettledCounts(w, token);
    TotalZero(Pending(token), w.sessions);
    TotalZero(Reserved(token), w.sessions);
  }

  /** While nothing has been given back, a mark and a request about to mark both tell the truth. */
  ghost predicate Truthful(start: Books, w: World, token: int) {
    token in w.books.tokens && token in start.tokens && Total(GivenBack(token), w.sessions) == 0 ==>
      && (start.tokens[token].status == EXHAUSTED ==> w.books.tokens[token].status == EXHAUSTED)
      && (Total(Marks(token), w.sessions) > 0 ==> Drained(w.books, token))
      && (w.books.tokens[token].status == EXHAUSTED ==>
            || start.tokens[token].status == EXHAUSTED
            || (Drained(w.books, token) && Total(Finished(token), w.sessions) > 0))
  }

  lemma StepStaysTruthful(start: Books, w: World, a: Action, token: int)
    requires Truthful(start, w, token) && Sane(w)
    ensures Truthful(start, Step(w, a), token)
  {
    hide Total;
    var next := Step(w, a);
    if a.Ask? {
      if next != w {
        var s := next.sessions[|w.sessions|];
        TotalSnoc(GivenBack(token), w.sessions, s);
        TotalSnoc(Marks(token), w.sessions, s);
        TotalSnoc(Finished(token), w.sessions, s);
      }
    } else if !a.SetUnlimited? && a.i < |w.sessions| {
      assert NonNegative(w.sessions[a.i].stage);
      TurnTotal(w, a, GivenBack(token));
      TurnTotal(w, a, Marks(token));
      TurnTotal(w, a, Finished(token));
      TotalPositive(GivenBack(token), w.sessions);
      TotalPositive(Marks(token), w.sessions);
      if w.sessions[a.i].stage.Marking? && Limits(w.sessions[a.i], token) {
        MarkerCounts(w, a.i, token);
      }
      TotalPositive(Finished(token), w.sessions);
    }
  }

  lemma MarkerCounts(w: World, i: nat, token: int)
    requires i < |w.sessions| && Limits(w.sessions[i], token) && w.sessions[i].stage.Marking?
    ensures Total(Marks(token), w.sessions) > 0
  {
    TotalPositive(Marks(token), w.sessions);
    assert w.sessions[i] in w.sessions && Marks(token)(w.sessions[i]) > 0;
  }

  lemma {:induction false} RunStaysTruthful(start: Books, actions: seq<Action>, token: int)
    ensures Truthful(start, Run(start, actions), token)
  {
    if actions != [] {
      var n := |actions| - 1;
      RunStaysTruthful(start, actions[..n], token);
      OverdraftBound(start, actions[..n]);
      StepStaysTruthful(start, Run(start, actions[..n]), actions[n], token);
    }
  }

  /** The action is a settled request's look at a drained token. */
  predicate Finds(w: World, a: Action, token: int) {
    && a.Read? && a.i < |w.sessions| && Limits(w.sessions[a.i], token) && w.sessions[a.i].stage.Settling?
    && token in w.books.tokens && w.books.tokens[token].remain <= 0
  }

  /** Some request looked after its settlement and found the token drained. */
  predicate EverFound(start: Books, actions: seq<Action>, token: int) {
    actions != [] &&
    var n := |actions| - 1;
    EverFound(start, actions[..n], token) || Finds(Run(start, actions[..n]), actions[n], token)
  }

  /** A look that found the token drained has led to a mark or is about to; nothing else leads to one. */
  ghost predicate Recorded(start: Books, w: World, token: int, found: bool) {
    token in w.books.tokens && token in start.tokens ==>
      && (w.books.tokens[token].status == EXHAUSTED || Total(Marks(token), w.sessions) > 0
          <==> start.tokens[token].status == EXHAUSTED || found)
      && (Total(Marks(token), w.sessions) > 0 ==> found)
      && (start.tokens[token].status == EXHAUSTED ==> w.books.tokens[token].status == EXHAUSTED)
      && (found ==> Total(Marks(token), w.sessions) + Total(Finished(token), w.sessions) > 0)
  }

  lemma StepRecords(start: Books, w: World, a: Action, token: int, found: bool)
    requires Recorded(start, w, token, found) && Sane(w)
    ensures Recorded(start, Step(w, a), token, found || Finds(w, a, token))
  {
    hide Total;
    var next := Step(w, a);
    if a.Ask? {
      if next != w {
        var s := next.sessions[|w.sessions|];
        TotalSnoc(Marks(token), w.sessions, s);
        TotalSnoc(Finished(token), w.sessions, s);
      }
    } else if !a.SetUnlimited? && a.i < |w.sessions| {
      TurnTotal(w, a, Marks(token));
      TurnTotal(w, a, Finished(token));
      TotalPositive(Marks(token), w.sessions);
      TotalPositive(Finished(token), w.sessions);
      TotalPositive(Marks(token), next.sessions);
      if w.sessions[a.i].stage.Marking? && Limits(w.sessions[a.i], token) {
        MarkerCounts(w, a.i, token);
      }
    }
  }

  lemma {:induction false} RunRecords(start: Books, actions: seq<Action>, token: int)
    ensures Recorded(start, Run(start, actions), token, EverFound(start, actions, token))
  {
    if actions != [] {
      var n := |actions| - 1;
      RunRecords(start, actions[..n], token);
      OverdraftBound(start, actions[..n]);
      StepRecords(start, Run(start, actions[..n]), actions[n], token, EverFound(start, actions[..n], token));
    }
  }

  /** In every run, once no request is under way: status 3 means that it was there from the start or that some
      request found the token drained; and it says exactly what it is meant to say, that the token is drained and
      was settled on, if and only if a token found drained is drained still. */
  lemma MarkAtRest(start: Books, actions: seq<Action>, token: int)
    requires AtRest(Run(start, actions)) && token in Run(start, actions).books.tokens && token in start.tokens
    ensures var w := Run(start, actions);
            var status, left := w.books.tokens[token].status, w.books.tokens[token].remain;
            && (status == 3 <==> start.tokens[token].status == 3 || EverFound(start, actions, token))
            && (start.tokens[token].status != 3 ==>
                  ((status == 3 <==> left <= 0 && SettledOn(w, token))
                   <==> (EverFound(start, actions, token) ==> left <= 0)))
  {
    var w := Run(start, actions);
    RunRecords(start, actions, token);
    SettledCounts(w, token);
    TotalZero(Marks(token), w.sessions);
    if Drained(w.books, token) && SettledOn(w, token) {
      ExhaustedAtRest(start, actions, token);
    }
  }

  /** In particular the mark is exact when no request got anything back from the token. */
  lemma MarkIsExact(start: Books, actions: seq<Action>, token: int)
    requires var w := Run(start, actions);
             && AtRest(w) && token in w.books.tokens && token in start.tokens
             && Total(GivenBack(token), w.sessions) == 0
    ensures var w := Run(start, actions);
            w.books.tokens[token].status == 3 <==>
            start.tokens[token].status == 3 || (w.books.tokens[token].remain <= 0 && SettledOn(w, token))
  {
    RunStaysTruthful(start, actions, token);
    MarkAtRest(start, actions, token);
  }

  // ---- who is turned away ----

  /** The session asks to be charged what one of its two layers does not hold. */
  predicate Short(w: World, a: Action, i: nat) {
    && a == Charge(i) && i < |w.sessions| && w.sessions[i].stage.Asked?
    && var s, amount := w.sessions[i], w.sessions[i].stage.estimate;
       || s.user !in w.books.users || w.books.users[s.user].quota - w.books.users[s.user].used < amount
       || (s.limited && (s.token !in w.books.tokens || w.books.tokens[s.token].remain < amount))
  }

  predicate EverShort(start: Books, actions: seq<Action>, i: nat) {
    actions != [] &&
    var n := |actions| - 1;
    EverShort(start, actions[..n], i) || Short(Run(start, actions[..n]), actions[n], i)
  }

  lemma StepRefuses(w: World, a: Action, i: nat)
    ensures var next := Step(w, a);
            i < |next.sessions| ==>
              (next.sessions[i].stage.Refused? <==>
               (i < |w.sessions| && w.sessions[i].stage.Refused?) || Short(w, a, i))
  {
    if !a.Ask? && !a.SetUnlimited? && a.i < |w.sessions| {
      TurnMovesHeld(w, a);
    }
  }

  /** In every run, whoever else is billing meanwhile: a request is refused if and only if, when it was charged, the
      user's quota or a limited token's remainder was less than its estimate. */
  lemma {:induction false} RefusedIff(start: Books, actions: seq<Action>, i: nat)
    requires i < |Run(start, actions).sessions|
    ensures Run(start, actions).sessions[i].stage.Refused? <==> EverShort(start, actions, i)
  {
    if actions != [] {
      var n := |actions| - 1;
      var before := Run(start, actions[..n]);
      StepRefuses(before, actions[n], i);
      if i < |before.sessions| {
        RefusedIff(start, actions[..n], i);
      } else {
        NeverShort(start, actions[..n], i);
      }
    }
  }

  lemma SessionsStay(w: World, a: Action)
    ensures |Step(w, a).sessions| >= |w.sessions|
  {
  }

  lemma {:induction false} NeverShort(start: Books, actions: seq<Action>, i: nat)
    requires i >= |Run(start, actions).sessions|
    ensures !EverShort(start, actions, i)
  {
    if actions != [] {
      var n := |actions| - 1;
      SessionsStay(Run(start, actions[..n]), actions[n]);
      NeverShort(start, actions[..n], i);
      hide Step;
    }
  }

  // ---- what billing leaves alone ----

  /** The unlimited flag as the administrator last set it. */
  function FlagSet(start: Books, actions: seq<Action>, token: int): bool
    requires token in start.tokens
  {
    if actions == [] then start.tokens[token].unlimited
    else
      match actions[|actions| - 1]
      case SetUnlimited(t, unlimited) =>
        if t == token then unlimited else FlagSet(start, actions[..|actions| - 1], token)
      case _ => FlagSet(start, actions[..|actions| - 1], token)
  }

  /** In every run a token's flag is the administrator's alone, and its status is either the one it had or 3. */
  lemma {:induction false} OnlyMarksAndFlags(start: Books, actions: seq<Action>, token: int)
    requires token in start.tokens
    ensures var tokens := Run(start, actions).books.tokens;
            && token in tokens && tokens[token].unlimited == FlagSet(start, actions, token)
            && (tokens[token].status == start.tokens[token].status || tokens[token].status == 3)
  {
    if actions != [] {
      OnlyMarksAndFlags(start, actions[..|actions| - 1], token);
    }
  }

  lemma TwoSteps(w: World, actions: seq<Action>)
    requires |actions| == 2
    ensures Fold(Step, w, actions) == Step(Step(w, actions[0]), actions[1])
  {
    hide Step;
    FoldSnoc(Step, w, [], actions[0]);
    FoldSnoc(Step, w, [actions[0]], actions[1]);
    assert actions == [actions[0]] + [actions[1]];
    assert [actions[0]] == [] + [actions[0]];
  }

  lemma ThreeSteps(w: World, actions: seq<Action>)
    requires |actions| == 3
    ensures Fold(Step, w, actions) == Step(Step(Step(w, actions[0]), actions[1]), actions[2])
  {
    hide Step;
    TwoSteps(w, actions[..2]);
    FoldSnoc(Step, w, actions[..2], actions[2]);
    assert actions == actions[..2] + [actions[2]];
  }

  /** Two requests on one token of 5, of which `taken` is charged. */
  function Pair(taken: int, status: int, first: Stage, second: Stage): World {
    World(Books(map[1 := User(10, taken)], map[1 := Token(5 - taken, taken, status, false)]),
          [Session(1, 1, true, first), Session(1, 1, true, second)])
  }

  lemma BothAsk(start: Books)
    requires start == Books(map[1 := User(10, 0)], map[1 := Token(5, 0, 1, false)])
    ensures Run(start, [Ask(1, 1, 5), Charge(0), Ask(1, 1, 0)]) == Pair(5, 1, Open(5), Open(0))
  {
    var w := World(start, []);
    ThreeSteps(w, [Ask(1, 1, 5), Charge(0), Ask(1, 1, 0)]);
    var asked := Step(w, Ask(1, 1, 5));
    assert asked.sessions == [Session(1, 1, true, Asked(5))];
    assert Step(asked, Charge(0)).sessions == [Session(1, 1, true, Open(5))];
    assert Step(asked, Charge(0)).books == Pair(5, 1, Open(5), Open(0)).books;
  }

  lemma SecondLooks()
    ensures Fold(Step, Pair(5, 1, Open(5), Open(0)), [Settle(1, 0), Read(1)]) == Pair(5, 1, Open(5), Marking(0, 0))
  {
    TwoSteps(Pair(5, 1, Open(5), Open(0)), [Settle(1, 0), Read(1)]);
    assert Step(Pair(5, 1, Open(5), Open(0)), Settle(1, 0)) == Pair(5, 1, Open(5), Settling(0, 0));
    assert Step(Pair(5, 1, Open(5), Settling(0, 0)), Read(1)) == Pair(5, 1, Open(5), Marking(0, 0));
  }

  lemma FirstIsRefunded()
    ensures Fold(Step, Pair(5, 1, Open(5), Marking(0, 0)), [Refund(0), Mark(1)])
            == Pair(0, EXHAUSTED, Refunded(5), Settled(0, 0))
  {
    TwoSteps(Pair(5, 1, Open(5), Marking(0, 0)), [Refund(0), Mark(1)]);
    assert Step(Pair(5, 1, Open(5), Marking(0, 0)), Refund(0)) == Pair(0, 1, Refunded(5), Marking(0, 0));
    assert Step(Pair(0, 1, Refunded(5), Marking(0, 0)), Mark(1)) == Pair(0, EXHAUSTED, Refunded(5), Settled(0, 0));
  }

  /** A mark can be stale: one request drains the token, a free one sees it drained,
      the first is refunded, and only then does the second write the mark, on a token with 5 left. */
  lemma MarkCanBeStale() returns (start: Books, actions: seq<Action>)
    ensures var w := Run(start, actions);
            && AtRest(w) && start.tokens == map[1 := Token(5, 0, 1, false)]
            && w.books.tokens == map[1 := Token(5, 0, EXHAUSTED, false)]
  {
    hide Step, Fold;
    start := Books(map[1 := User(10, 0)], map[1 := Token(5, 0, 1, false)]);
    var asked := [Ask(1, 1, 5), Charge(0), Ask(1, 1, 0)];
    BothAsk(start);
    FoldAppend(Step, World(start, []), asked, [Settle(1, 0), Read(1)]);
    SecondLooks();
    FoldAppend(Step, World(start, []), asked + [Settle(1, 0), Read(1)], [Refund(0), Mark(1)]);
    FirstIsRefunded();
    actions := asked + [Settle(1, 0), Read(1)] + [Refund(0), Mark(1)];
  }

  // ---- one request at a time ----

  /** A request is closed once: nothing that happens later moves it again. */
  lemma {:induction false} ClosedStaysClosed(w: World, actions: seq<Action>, i: nat)
    requires i < |w.sessions| && Closed(w.sessions[i])
    ensures var later := Fold(Step, w, actions);
            i < |later.sessions| && later.sessions[i] == w.sessions[i]
  {
    if actions != [] {
      var n := |actions| - 1;
      ClosedStaysClosed(w, actions[..n], i);
    }
  }

  /** Three transactions that nothing interrupts are the settlement of the billing manager. */
  lemma UninterruptedSettlement(w: World, i: nat, actual: int)
    requires i < |w.sessions| && w.sessions[i].stage.Open? && actual >= 0
    ensures var s := w.sessions[i];
            var done := Step(Step(Step(w, Settle(i, actual)), Read(i)), Mark(i));
            && done.books == SettledBooks(w.books, s.user, s.token, s.stage.pre, actual, s.limited, NO_GAP)
            && done.sessions == w.sessions[i := s.(stage := Settled(s.stage.pre, actual))]
  {
    var s := w.sessions[i];
    var one := Step(w, Settle(i, actual));
    assert one.sessions[i].limited == s.limited && one.sessions[i].token == s.token;
    var two := Step(one, Read(i));
    if s.limited {
      assert two.sessions == w.sessions[i := two.sessions[i]];
    }
  }

  /** Asking and charging without interruption are the billing manager's pre-charge: a session is opened under
      exactly its condition, with its effect; otherwise the books are left alone. */
  lemma UninterruptedCharge(w: World, user: int, token: int, estimate: int)
    ensures var b, i := w.books, |w.sessions|;
            var done := Step(Step(w, Ask(user, token, estimate)), Charge(i));
            var granted := && estimate >= 0 && token in b.tokens
                           && (estimate > 0 ==>
                                 && user in b.users && b.users[user].quota - b.users[user].used >= estimate
                                 && (b.tokens[token].unlimited || b.tokens[token].remain >= estimate));
            if granted then
              var limited := !b.tokens[token].unlimited;
              && done.books == Adjusted(b, user, token, estimate, limited)
              && done.sessions == w.sessions + [Session(user, token, limited, Open(estimate))]
            else
              && done.books == b
              && (done.sessions == w.sessions || (|done.sessions| == i + 1 && done.sessions[i].stage == Refused))
  {
    var one := Step(w, Ask(user, token, estimate));
    if one != w {
      var s := one.sessions[|w.sessions|];
      NoShift(w.books, user, token, s.limited);
      var two := Step(one, Charge(|w.sessions|));
      assert two.sessions == w.sessions + [two.sessions[|w.sessions|]];
    }
  }

  /** One transaction is the manager's refund. */
  lemma UninterruptedRefund(w: World, i: nat)
    requires i < |w.sessions| && w.sessions[i].stage.Open?
    ensures var s, done := w.sessions[i], Step(w, Refund(i));
            && done.books == Adjusted(w.books, s.user, s.token, -s.stage.pre, s.limited)
            && done.sessions == w.sessions[i := s.(stage := Refunded(s.stage.pre))]
  {
  }

  // ---- what others see of an action ----

  function TransactionsOf(w: World, a: Action): seq<Transaction> {
    match a
    case Ask(_, _, _) => []
    case SetUnlimited(token, unlimited) => [FlagTx(token, unlimited)]
    case _ => if a.i < |w.sessions| then TurnTransactions(a, w.sessions[a.i]) else []
  }

  function TurnTransactions(a: Action, s: Session): seq<Transaction> {
    match (a, s.stage)
    case (Charge(_), Asked(estimate)) => [ChargeTx(s.user, s.token, estimate, s.limited)]
    case (Settle(_, actual), Open(pre)) =>
      if actual < 0 then [] else [AdjustTx(s.user, s.token, actual - pre, s.limited)]
    case (Mark(_), Marking(_, _)) => [MarkTx(s.token, EXHAUSTED)]
    case (Refund(_), Open(pre)) => [AdjustTx(s.user, s.token, -pre, s.limited)]
    case _ => []
  }

  function Transactions(w: World, actions: seq<Action>): seq<Transaction> {
    if actions == [] then []
    else
      var n := |actions| - 1;
      Transactions(w, actions[..n]) + TransactionsOf(Fold(Step, w, actions[..n]), actions[n])
  }

  lemma StepTransacts(w: World, a: Action)
    ensures Step(w, a).books == Fold(Applied, w.books, TransactionsOf(w, a))
  {
    var ts := TransactionsOf(w, a);
    if ts != [] {
      FoldSnoc(Applied, w.books, [], ts[0]);
      assert [] + [ts[0]] == ts;
    }
  }

  /** The books of a run are what its transactions make of them, one by one. */
  lemma {:induction false} RunTransacts(w: World, actions: seq<Action>)
    ensures Fold(Step, w, actions).books == Fold(Applied, w.books, Transactions(w, actions))
  {
    if actions != [] {
      var n := |actions| - 1;
      RunTransacts(w, actions[..n]);
      var before, last := Fold(Step, w, actions[..n]), actions[n];
      StepTransacts(before, last);
      FoldAppend(Applied, w.books, Transactions(w, actions[..n]), TransactionsOf(before, last));
    }
  }

  /** The action is another request's, or an administrator's. */
  predicate LeavesAlone(a: Action, i: nat) {
    a.Ask? || a.SetUnlimited? || a.i != i
  }

  /** Only its own actions move a request. */
  lemma {:induction false} OthersLeaveAlone(w: World, actions: seq<Action>, i: nat)
    requires i < |w.sessions| && forall a <- actions :: LeavesAlone(a, i)
    ensures var later := Fold(Step, w, actions);
            i < |later.sessions| && later.sessions[i] == w.sessions[i]
  {
    if actions != [] {
      var n := |actions| - 1;
      OthersLeaveAlone(w, actions[..n], i);
      assert LeavesAlone(actions[n], i);
    }
  }
}
