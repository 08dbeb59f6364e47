/** The two balances behind billing: the storage transactions, and the manager that calls them. */
module Ledger {
  import opened Folds

  datatype User = User(quota: int, used: int)
  datatype Token = Token(remain: int, used: int, status: int, unlimited: bool)

  /** The rows of both tables. */
  datatype Books = Books(users: map<int, User>, tokens: map<int, Token>)

  const EXHAUSTED := 3

  // ---- the transactions, on values ----

  /** An UPDATE on one row; no row, no change. */
  function ShiftUser(users: map<int, User>, id: int, delta: int): map<int, User> {
    if id in users then users[id := users[id].(used := users[id].used + delta)] else users
  }

  function ShiftToken(tokens: map<int, Token>, id: int, delta: int): map<int, Token> {
    if id in tokens
    then tokens[id := tokens[id].(remain := tokens[id].remain - delta, used := tokens[id].used + delta)] else tokens
  }

  /** Moves both layers by `delta`, the token layer only for a limited token. */
  function Adjusted(b: Books, user: int, token: int, delta: int, limited: bool): Books {
    Books(ShiftUser(b.users, user, delta), if limited then ShiftToken(b.tokens, token, delta) else b.tokens)
  }

  /** Both layers hold `amount`. */
  predicate Affordable(b: Books, user: int, token: int, amount: int, limited: bool) {
    && user in b.users && b.users[user].quota - b.users[user].used >= amount
    && (limited ==> token in b.tokens && b.tokens[token].remain >= amount)
  }

  function Marked(b: Books, token: int, status: int): Books {
    if token in b.tokens then b.(tokens := b.tokens[token := b.tokens[token].(status := status)]) else b
  }

  /** A transaction of any request, as another one sees it. */
  datatype Transaction =
    | ChargeTx(user: int, token: int, amount: int, limited: bool)
    | AdjustTx(user: int, token: int, delta: int, limited: bool)
    | MarkTx(token: int, status: int)
    | FlagTx(token: int, unlimited: bool)

  function Applied(b: Books, t: Transaction): Books {
    match t
    case ChargeTx(user, token, amount, limited) =>
      if Affordable(b, user, token, amount, limited) then Adjusted(b, user, token, amount, limited) else b
    case AdjustTx(user, token, delta, limited) => Adjusted(b, user, token, delta, limited)
    case MarkTx(token, status) => Marked(b, token, status)
    case FlagTx(token, unlimited) =>
      if token in b.tokens then b.(tokens := b.tokens[token := b.tokens[token].(unlimited := unlimited)]) else b
  }

  // ---- the storage adapter ----

  /** A call of the billing manager that had its effect. */
  datatype Call =
    | OpenCall(user: int, token: int, pre: int, limited: bool)
    | SettleCall(user: int, token: int, pre: int, actual: int, limited: bool)
    | RefundCall(user: int, token: int, pre: int, limited: bool)

  datatype Result<+T> = Ok(value: T) | Err(reason: string)

  class Store {
    var users: map<int, User>
    var tokens: map<int, Token>
    /** The manager's calls so far. */
    ghost var calls: seq<Call>

    ghost function View(): Books
      reads this
    {
      Books(users, tokens)
    }

    constructor (users: map<int, User>, tokens: map<int, Token>)
      ensures View() == Books(users, tokens)
    {
      this.users, this.tokens, calls := users, tokens, [];
    }

    /** Succeeds exactly when both layers can pay; otherwise the transaction rolls back. */
    method PreChargeAtomic(user: int, token: int, amount: int, tokenUnlimited: bool) returns (r: Result<()>)
      modifies this`users, this`tokens
      ensures r.Ok? <==>
              && user in old(users) && old(users)[user].quota - old(users)[user].used >= amount
              && (!tokenUnlimited ==> token in old(tokens) && old(tokens)[token].remain >= amount)
      ensures View() == if r.Ok? then Adjusted(old(View()), user, token, amount, !tokenUnlimited) else old(View())
    {
      var savedUsers, savedTokens := users, tokens;
      if user !in users || users[user].quota - users[user].used < amount {
        return Err("insufficient user quota");
      }
      users := ShiftUser(users, user, amount);
      if !tokenUnlimited {
        if token !in tokens || tokens[token].remain < amount {
          users, tokens := savedUsers, savedTokens;
          return Err("insufficient token quota");
        }
        tokens := ShiftToken(tokens, token, amount);
      }
      r := Ok(());
    }

    method SettleAtomic(user: int, token: int, delta: int, tokenUnlimited: bool)
      modifies this`users, this`tokens
      ensures View() == Adjusted(old(View()), user, token, delta, !tokenUnlimited)
    {
      users := ShiftUser(users, user, delta);
      if !tokenUnlimited {
        tokens := ShiftToken(tokens, token, delta);
      }
    }

    /** Gives `amount` back, the inverse of a successful pre-charge. */
    method RefundAtomic(user: int, token: int, amount: int, tokenUnlimited: bool)
      modifies this`users, this`tokens
      ensures View() == Adjusted(old(View()), user, token, -amount, !tokenUnlimited)
    {
      if user in users {
        users := users[user := users[user].(used := users[user].used - amount)];
      }
      if !tokenUnlimited && token in tokens {
        var row := tokens[token];
        tokens := tokens[token := row.(remain := row.remain + amount, used := row.used - amount)];
      }
    }

    /** The transaction of some other request. */
    method Perform(t: Transaction)
      modifies this`users, this`tokens
      ensures View() == Applied(old(View()), t)
    {
      match t {
        case ChargeTx(user, token, amount, limited) => var r := PreChargeAtomic(user, token, amount, !limited);
        case AdjustTx(user, token, delta, limited) => SettleAtomic(user, token, delta, !limited);
        case MarkTx(token, status) => UpdateTokenStatus(token, status);
        case FlagTx(token, unlimited) =>
          if token in tokens {
            tokens := tokens[token := tokens[token].(unlimited := unlimited)];
          }
      }
    }

    method UpdateTokenStatus(token: int, status: int)
      modifies this`tokens
      ensures View() == Marked(old(View()), token, status)
    {
      if token in tokens {
        tokens := tokens[token := tokens[token].(status := status)];
      }
    }
  }

  // ---- the billing manager ----

  /** Other requests at work on the books. */
  method MeanwhileOnBooks(repo: Store, transactions: seq<Transaction>)
    modifies repo
    ensures repo.View() == Fold(Applied, old(repo.View()), transactions) && repo.calls == old(repo.calls)
  {
    var i := 0;
    while i < |transactions|
      invariant 0 <= i <= |transactions|
      invariant repo.View() == Fold(Applied, old(repo.View()), transactions[..i]) && repo.calls == old(repo.calls)
    {
      assert transactions[..i + 1] == transactions[..i] + [transactions[i]];
      FoldSnoc(Applied, old(repo.View()), transactions[..i], transactions[i]);
      repo.Perform(transactions[i]);
      i := i + 1;
    }
    assert transactions[..i] == transactions;
  }

  /** What other requests do to the books inside a settlement: before the look at the remainder, before the mark. */
  datatype Gap = Gap(beforeLook: seq<Transaction>, beforeMark: seq<Transaction>)

  const NO_GAP := Gap([], [])

  /** The books after a settlement: the difference is moved, and a limited token then seen with nothing left is
      marked exhausted, whatever has happened to it since. */
  function SettledBooks(b: Books, user: int, token: int, pre: int, actual: int, limited: bool, gap: Gap): Books {
    var a := Fold(Applied, Adjusted(b, user, token, actual - pre, limited), gap.beforeLook);
    var c := Fold(Applied, a, gap.beforeMark);
    if limited && token in a.tokens && a.tokens[token].remain <= 0 then Marked(c, token, EXHAUSTED) else c
  }

  class BillingSession {
    const userId: int
    const tokenId: int
    const preCharged: int
    const tokenUnlimited: bool
    var settled: bool

    constructor (userId: int, tokenId: int, preCharged: int, tokenUnlimited: bool)
      ensures this.userId == userId && this.tokenId == tokenId && this.preCharged == preCharged
      ensures this.tokenUnlimited == tokenUnlimited && !settled
    {
      this.userId, this.tokenId, this.preCharged, this.tokenUnlimited := userId, tokenId, preCharged, tokenUnlimited;
      settled := false;
    }
  }

  lemma NoShift(b: Books, user: int, token: int, limited: bool)
    ensures Adjusted(b, user, token, 0, limited) == b
  {
  }

  method PreCharge(repo: Store, userId: int, tokenId: int, estimatedCost: int) returns (r: Result<BillingSession>)
    modifies repo
    ensures var b := old(repo.View());
            r.Ok? <==> && estimatedCost >= 0 && tokenId in b.tokens
                       && (estimatedCost > 0 ==>
                             && userId in b.users && b.users[userId].quota - b.users[userId].used >= estimatedCost
                             && (b.tokens[tokenId].unlimited || b.tokens[tokenId].remain >= estimatedCost))
    ensures r.Ok? ==>
              && fresh(r.value) && !r.value.settled
              && r.value.userId == userId && r.value.tokenId == tokenId && r.value.preCharged == estimatedCost
              && r.value.tokenUnlimited == old(repo.View()).tokens[tokenId].unlimited
              && repo.View() == Adjusted(old(repo.View()), userId, tokenId, estimatedCost, !r.value.tokenUnlimited)
    ensures r.Err? ==> repo.View() == old(repo.View()) && repo.calls == old(repo.calls)
    ensures r.Ok? ==>
              repo.calls == old(repo.calls) + [OpenCall(userId, tokenId, estimatedCost, !r.value.tokenUnlimited)]
  {
    if estimatedCost < 0 {
      return Err("estimated_cost must be non-negative");
    }
    if tokenId !in repo.tokens {
      return Err("token not found");
    }
    var unlimited := repo.tokens[tokenId].unlimited;
    if estimatedCost != 0 {
      var charged := repo.PreChargeAtomic(userId, tokenId, estimatedCost, unlimited);
      if charged.Err? {
        return Err(charged.reason);
      }
    } else {
      NoShift(repo.View(), userId, tokenId, !unlimited);
    }
    var session := new BillingSession(userId, tokenId, estimatedCost, unlimited);
    repo.calls := repo.calls + [OpenCall(userId, tokenId, estimatedCost, !unlimited)];
    r := Ok(session);
  }

  method Settle(repo: Store, session: BillingSession, actualCost: int, gap: Gap) returns (r: Result<()>)
    modifies repo, session
    ensures r.Ok? <==> !old(session.settled) && actualCost >= 0
    ensures session.settled <==> old(session.settled) || r.Ok?
    ensures repo.View() ==
              if r.Ok? then
                SettledBooks(old(repo.View()), session.userId, session.tokenId, session.preCharged, actualCost,
                             !session.tokenUnlimited, gap)
              else old(repo.View())
    ensures repo.calls ==
              if r.Ok? then
                old(repo.calls) + [SettleCall(session.userId, session.tokenId, session.preCharged, actualCost,
                                              !session.tokenUnlimited)]
              else old(repo.calls)
  {
    if session.settled {
      return Err("billing session already settled");
    }
    if actualCost < 0 {
      return Err("actual_cost must be non-negative");
    }
    var delta := actualCost - session.preCharged;
    if delta != 0 {
      repo.SettleAtomic(session.userId, session.tokenId, delta, session.tokenUnlimited);
    } else {
      NoShift(repo.View(), session.userId, session.tokenId, !session.tokenUnlimited);
    }
    MeanwhileOnBooks(repo, gap.beforeLook);
    var drained := false;
    if !session.tokenUnlimited {
      drained := session.tokenId in repo.tokens && repo.tokens[session.tokenId].remain <= 0;
    }
    MeanwhileOnBooks(repo, gap.beforeMark);
    if drained {
      repo.UpdateTokenStatus(session.tokenId, EXHAUSTED);
    }
    repo.calls := repo.calls + [SettleCall(session.userId, session.tokenId, session.preCharged, actualCost,
                                           !session.tokenUnlimited)];
    session.settled := true;
    r := Ok(());
  }

  /** Takes the whole pre-charge back; the session is not used afterwards. */
  method Refund(repo: Store, session: BillingSession)
    modifies repo
    ensures repo.View() ==
              Adjusted(old(repo.View()), session.userId, session.tokenId, -session.preCharged, !session.tokenUnlimited)
    ensures repo.calls == old(repo.calls) + [RefundCall(session.userId, session.tokenId, session.preCharged,
                                                        !session.tokenUnlimited)]
  {
    repo.calls := repo.calls + [RefundCall(session.userId, session.tokenId, session.preCharged,
                                           !session.tokenUnlimited)];
    if session.preCharged == 0 {
      NoShift(repo.View(), session.userId, session.tokenId, !session.tokenUnlimited);
      return;
    }
    repo.RefundAtomic(session.userId, session.tokenId, session.preCharged, session.tokenUnlimited);
  }

  // ---- one request alone ----

  lemma AdjustedTwice(b: Books, user: int, token: int, x: int, y: int, limited: bool)
    ensures Adjusted(Adjusted(b, user, token, x, limited), user, token, y, limited)
            == Adjusted(b, user, token, x + y, limited)
  {
    var c := Adjusted(Adjusted(b, user, token, x, limited), user, token, y, limited);
    assert c.users == Adjusted(b, user, token, x + y, limited).users;
    assert c.tokens == Adjusted(b, user, token, x + y, limited).tokens;
  }

  /** A pre-charge followed by a refund leaves the books untouched; followed by a settlement it costs both
      layers exactly the actual cost, whatever the estimate was. */
  lemma NetCharge(b: Books, user: int, token: int, pre: int, actual: int, limited: bool, gap: Gap)
    ensures var open := Adjusted(b, user, token, pre, limited);
            && Adjusted(open, user, token, -pre, limited) == b
            && SettledBooks(open, user, token, pre, actual, limited, gap)
               == SettledBooks(b, user, token, 0, actual, limited, gap)
  {
    AdjustedTwice(b, user, token, pre, -pre, limited);
    AdjustedTwice(b, user, token, pre, actual - pre, limited);
    NoShift(b, user, token, limited);
  }
}
