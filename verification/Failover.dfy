/** The two-level retry loop of the executor: bindings outside, keys inside. */
module Failover {
  import opened Folds
  import opened Ledger
  import opened Routing
  import opened Wire
  import H = Health

  const MAX_BINDING_ATTEMPTS := 3

  // ---- failures ----

  /** For an upstream error, whether its body mentions context_length_exceeded. */
  datatype ProxyError =
    | Upstream(status: int, contextExceeded: bool)
    | UpstreamTimeout
    | InvalidRequest
    | OtherError

  datatype FailureAction = Cooldown | Disable | ReturnToClient | SkipBinding

  function ClassifyFailure(e: ProxyError): FailureAction {
    match e
    case Upstream(status, contextExceeded) =>
      if status == 404 || (status == 400 && contextExceeded) then SkipBinding
      else if status == 400 || status == 422 then ReturnToClient
      else if status == 401 || status == 403 then Disable
      else Cooldown
    case InvalidRequest => ReturnToClient
    case UpstreamTimeout => Cooldown
    case OtherError => Cooldown
  }

  function StatusIn(e: ProxyError): Option<int> {
    if e.Upstream? then Some(e.status) else None
  }

  // ---- the world outside ----

  /** What comes of trying one key: the request cannot be translated, it times out, it fails, or a reply
      arrives, which may turn out not to be translatable back. */
  datatype Answer =
    | Unprepared
    | TimedOut
    | Failed(error: ProxyError)
    | Replied(status: int, usage: Usage, readable: bool)
  {
    /** What the attempt fails with, if it fails. */
    function Error(): Option<ProxyError> {
      match this
      case TimedOut => Some(UpstreamTimeout)
      case Failed(e) => Some(e)
      case _ => None
    }
  }

  /** What the world does while the loop is at a key: the operations other requests (and the background purge) have
      done on the health table before the availability check, their transactions on the books, the clock at the
      check, what others do to the health table while the answer is awaited, the clock at the failure, and the
      answer. */
  datatype Moment =
    Moment(others: seq<H.Op>, transactions: seq<Transaction>, checkedAt: int,
           during: seq<H.Op>, failedAt: int, answer: Answer)

  type Script = (nat, nat) -> Moment

  // ---- the reference: one position at a time ----

  datatype Visit = Visit(b: nat, k: nat, tried: bool)

  datatype Ending =
    | Exhausted
    | Rejected(error: ProxyError)
    | Served(status: int, usage: Usage, readable: bool)

  /** The visits so far, the health table, the next position, and how it ended, once it has. */
  datatype Front = Front(visits: seq<Visit>, states: H.States, b: nat, k: nat, ending: Option<Ending>)

  function Limit(grid: Grid): nat {
    if |grid| < MAX_BINDING_ATTEMPTS then |grid| else MAX_BINDING_ATTEMPTS
  }

  /** What an attempt does to the health table. */
  function MarkOf(rk: RoutedKey, m: Moment): seq<H.Op> {
    match m.answer.Error()
    case None => []
    case Some(e) =>
      match ClassifyFailure(e)
      case Cooldown => [H.Fail(rk.key.id, rk.upstream, m.failedAt)]
      case Disable => [H.Disable(rk.key.id)]
      case _ => []
  }

  /** What happens to the health table from the check of a key that is tried up to its mark. */
  function AttemptOps(rk: RoutedKey, m: Moment): seq<H.Op> { m.during + MarkOf(rk, m) }

  predicate CanTry(states: H.States, rk: RoutedKey, m: Moment) {
    H.Available(Fold(H.Apply, states, m.others), rk.key.id, rk.upstream, m.checkedAt)
  }

  /** Where an attempt leads: an ending, the next binding, or the next key. */
  function After(f: Front, answer: Answer): Front {
    match answer
    case Unprepared => f.(ending := Some(Rejected(OtherError)))
    case Replied(status, usage, readable) => f.(ending := Some(Served(status, usage, readable)))
    case _ =>
      match ClassifyFailure(answer.Error().value)
      case ReturnToClient => f.(ending := Some(Rejected(answer.Error().value)))
      case SkipBinding => f.(b := f.b + 1, k := 0)
      case _ => f.(k := f.k + 1)
  }

  function Advance(grid: Grid, script: Script, f: Front): Front {
    if f.ending.Some? then f
    else if f.b >= Limit(grid) then f.(ending := Some(Exhausted))
    else if f.k >= |grid[f.b]| then f.(b := f.b + 1, k := 0)
    else
      var rk, m := grid[f.b][f.k], script(f.b, f.k);
      var seen := Fold(H.Apply, f.states, m.others);
      if !CanTry(f.states, rk, m)
      then f.(visits := f.visits + [Visit(f.b, f.k, false)], states := seen, k := f.k + 1)
      else
        After(f.(visits := f.visits + [Visit(f.b, f.k, true)], states := Fold(H.Apply, seen, AttemptOps(rk, m))),
              m.answer)
  }

  function BindingsLeft(grid: Grid, f: Front): nat {
    if f.b < Limit(grid) then Limit(grid) - f.b else 0
  }

  function KeysLeft(grid: Grid, f: Front): nat {
    if f.b < Limit(grid) && f.k < |grid[f.b]| then |grid[f.b]| - f.k else 0
  }

  function Walk(grid: Grid, script: Script, f: Front): (end: Front)
    ensures end.ending.Some?
    decreases f.ending.None?, BindingsLeft(grid, f), KeysLeft(grid, f)
  {
    if f.ending.Some? then f else Walk(grid, script, Advance(grid, script, f))
  }

  function Start(states: H.States): Front {
    Front([], states, 0, 0, None)
  }

  function Run(grid: Grid, script: Script, states: H.States): Front {
    Walk(grid, script, Start(states))
  }

  // ---- what the caller is told ----

  predicate Within(grid: Grid, v: Visit) {
    v.b < Limit(grid) && v.k < |grid[v.b]|
  }

  function KeyTried(grid: Grid): Visit -> seq<RoutedKey> {
    (v: Visit) => if v.tried && Within(grid, v) then [grid[v.b][v.k]] else []
  }

  function Tried(grid: Grid, visits: seq<Visit>): seq<RoutedKey> { Gather(KeyTried(grid), visits) }

  /** The error of the last key tried. */
  function LastError(script: Script, visits: seq<Visit>): Option<ProxyError> {
    if visits == [] then None
    else
      var v := visits[|visits| - 1];
      if v.tried then script(v.b, v.k).answer.Error() else LastError(script, visits[..|visits| - 1])
  }

  function LastKey(tried: seq<RoutedKey>): Option<RoutedKey> {
    if tried == [] then None else Some(tried[|tried| - 1])
  }

  // ---- prices ----

  datatype Lookup = Found(pricing: Option<int>) | LookupFailed

  /** Prices by channel and upstream model. */
  type PriceList = (int, string) -> Lookup

  /** The price list when the request is charged and when its reply is in, and the two cost formulas. */
  datatype Shop = Shop(atCharge: PriceList, atReply: PriceList,
                       estimate: Option<int> -> nat, cost: (Usage, Option<int>) -> nat)

  /** The price of the binding a key belongs to; free when it cannot be looked up. */
  function PricingOf(list: PriceList, rk: RoutedKey): Option<int> {
    var found := list(rk.channel.id, rk.upstream);
    if found.Found? then found.pricing else None
  }

  /** The list that prices the reply of a key: the earlier one for the binding that was charged for. */
  function ListFor(grid: Grid, shop: Shop, rk: RoutedKey): PriceList {
    if grid != [] && grid[0] != [] && SameBinding(rk, grid[0][0]) then shop.atCharge else shop.atReply
  }

  predicate SameBinding(rk: RoutedKey, other: RoutedKey) {
    rk.channel.id == other.channel.id && rk.upstream == other.upstream
  }

  function ServingPrice(grid: Grid, shop: Shop, rk: RoutedKey): Option<int> {
    PricingOf(ListFor(grid, shop, rk), rk)
  }

  /** The reply is priced as of now unless its binding is the one charged for and the price has changed since. */
  lemma PriceIsCurrentIff(grid: Grid, shop: Shop, rk: RoutedKey)
    ensures ServingPrice(grid, shop, rk) == PricingOf(shop.atReply, rk) <==>
            || grid == [] || grid[0] == [] || !SameBinding(rk, grid[0][0])
            || PricingOf(shop.atCharge, rk) == PricingOf(shop.atReply, rk)
  {
  }

  datatype Refusal = AllKeysExhausted(lastError: Option<ProxyError>) | Surfaced(error: ProxyError) | NotStarted

  datatype Reply =
    | Success(rk: RoutedKey, attempted: seq<RoutedKey>, status: Option<int>, cost: nat)
    | Failure(last: Option<RoutedKey>, attempted: seq<RoutedKey>, status: Option<int>, refusal: Refusal)

  const NO_ATTEMPT := Failure(None, [], None, NotStarted)

  function Report(grid: Grid, script: Script, shop: Shop, end: Front): Reply
    requires end.ending.Some?
  {
    var tried := Tried(grid, end.visits);
    match end.ending.value
    case Exhausted =>
      var e := LastError(script, end.visits);
      Failure(LastKey(tried), tried, if e.Some? then StatusIn(e.value) else None, AllKeysExhausted(e))
    case Rejected(e) => Failure(LastKey(tried), tried, StatusIn(e), Surfaced(e))
    case Served(status, usage, readable) =>
      if tried == [] then NO_ATTEMPT
      else if readable
      then
        var rk := tried[|tried| - 1];
        Success(rk, tried, Some(status), shop.cost(usage, ServingPrice(grid, shop, rk)))
      else Failure(LastKey(tried), tried, Some(status), Surfaced(OtherError))
  }

  /** The request may start: there are candidates, the first one's price is known, and the pre-charge goes through. */
  predicate Starts(b: Books, user: int, token: int, grid: Grid, shop: Shop)
    requires grid != [] ==> grid[0] != []
  {
    && grid != []
    && shop.atCharge(grid[0][0].channel.id, grid[0][0].upstream).Found?
    && token in b.tokens
    && var estimate := shop.estimate(shop.atCharge(grid[0][0].channel.id, grid[0][0].upstream).pricing);
       estimate > 0 ==>
         && user in b.users && b.users[user].quota - b.users[user].used >= estimate
         && (b.tokens[token].unlimited || b.tokens[token].remain >= estimate)
  }

  // ---- the books ----

  /** What a request is charged under. */
  datatype Terms = Terms(user: int, token: int, pre: int, limited: bool)

  function TermsOf(b: Books, user: int, token: int, grid: Grid, shop: Shop): Terms
    requires grid != [] && grid[0] != [] && token in b.tokens
  {
    Terms(user, token, shop.estimate(PricingOf(shop.atCharge, grid[0][0])), !b.tokens[token].unlimited)
  }

  function Charged(b: Books, t: Terms): Books { Adjusted(b, t.user, t.token, t.pre, t.limited) }

  function TransactionsAt(script: Script): Visit -> seq<Transaction> {
    (v: Visit) => script(v.b, v.k).transactions
  }

  /** The books after everything other requests did to them during these visits. */
  function Disturbed(b: Books, script: Script, visits: seq<Visit>): Books {
    Fold(Applied, b, Gather(TransactionsAt(script), visits))
  }

  lemma DisturbedSnoc(b: Books, script: Script, visits: seq<Visit>, v: Visit)
    ensures Disturbed(b, script, visits + [v])
            == Fold(Applied, Disturbed(b, script, visits), script(v.b, v.k).transactions)
  {
    GatherSnoc(TransactionsAt(script), visits, v);
    FoldAppend(Applied, b, Gather(TransactionsAt(script), visits), script(v.b, v.k).transactions);
  }

  /** The cost to settle, if a reply arrived. */
  function CostOf(grid: Grid, shop: Shop, end: Front): Option<nat>
    requires end.ending.Some?
  {
    var tried := Tried(grid, end.visits);
    if end.ending.value.Served? && tried != []
    then Some(shop.cost(end.ending.value.usage, ServingPrice(grid, shop, tried[|tried| - 1]))) else None
  }

  /** What others do to the books between the last key and the close, and inside a settlement. */
  datatype Wait = Wait(before: seq<Transaction>, inside: Gap)

  const NO_WAIT := Wait([], NO_GAP)

  /** The books after the close, which comes on top of whatever others have done since the charge. */
  function Closed(b: Books, t: Terms, cost: Option<nat>, wait: Wait): Books {
    var late := Fold(Applied, b, wait.before);
    match cost
    case Some(actual) => SettledBooks(late, t.user, t.token, t.pre, actual, t.limited, wait.inside)
    case None => Adjusted(late, t.user, t.token, -t.pre, t.limited)
  }

  function Billed(b: Books, t: Terms, grid: Grid, script: Script, shop: Shop, end: Front, wait: Wait): Books
    requires end.ending.Some?
  {
    Closed(Disturbed(Charged(b, t), script, end.visits), t, CostOf(grid, shop, end), wait)
  }

  function Opening(t: Terms): Call { OpenCall(t.user, t.token, t.pre, t.limited) }

  function Closing(t: Terms, cost: Option<nat>): Call {
    match cost
    case Some(actual) => SettleCall(t.user, t.token, t.pre, actual, t.limited)
    case None => RefundCall(t.user, t.token, t.pre, t.limited)
  }

  /** When nobody else touches the books, the whole request costs the reply's actual cost or nothing. */
  lemma UndisturbedBill(b: Books, t: Terms, grid: Grid, script: Script, shop: Shop, end: Front)
    requires end.ending.Some? && Gather(TransactionsAt(script), end.visits) == []
    ensures Billed(b, t, grid, script, shop, end, NO_WAIT) ==
              match CostOf(grid, shop, end)
              case Some(actual) => SettledBooks(b, t.user, t.token, 0, actual, t.limited, NO_GAP)
              case None => b
  {
    NetCharge(b, t.user, t.token, t.pre, CostOf(grid, shop, end).GetOr(0), t.limited, NO_GAP);
  }

  lemma WalkStep(grid: Grid, script: Script, f: Front)
    ensures Walk(grid, script, f) == Walk(grid, script, Advance(grid, script, f))
  {
  }

  lemma TriedSnoc(grid: Grid, visits: seq<Visit>, v: Visit)
    ensures Tried(grid, visits + [v]) == Tried(grid, visits) + KeyTried(grid)(v)
  {
    GatherSnoc(KeyTried(grid), visits, v);
  }

  // ---- the loops ----

  /** The session is open under these terms. */
  ghost predicate Holds(session: BillingSession, t: Terms)
    reads session
  {
    !session.settled && t == Terms(session.userId, session.tokenId, session.preCharged, !session.tokenUnlimited)
  }

  method Charge(repo: Store, user: int, token: int, grid: Grid, shop: Shop) returns (r: Option<BillingSession>)
    requires grid != [] ==> grid[0] != []
    modifies repo
    ensures r.Some? <==> Starts(old(repo.View()), user, token, grid, shop)
    ensures r.None? ==> repo.View() == old(repo.View()) && repo.calls == old(repo.calls)
    ensures r.Some? ==>
              var t := TermsOf(old(repo.View()), user, token, grid, shop);
              && fresh(r.value) && Holds(r.value, t)
              && t == Terms(user, token,
                            shop.estimate(shop.atCharge(grid[0][0].channel.id, grid[0][0].upstream).pricing),
                            !old(repo.tokens)[token].unlimited)
              && repo.View() == Charged(old(repo.View()), t) && repo.calls == old(repo.calls) + [Opening(t)]
  {
    if grid == [] {
      return None;
    }
    var found := shop.atCharge(grid[0][0].channel.id, grid[0][0].upstream);
    if found.LookupFailed? {
      return None;
    }
    var charged := PreCharge(repo, user, token, shop.estimate(found.pricing));
    if charged.Err? {
      return None;
    }
    r := Some(charged.value);
  }

  /** The price of the serving binding, looked up again only when it is not the binding charged for. */
  method ActualPricing(grid: Grid, shop: Shop, rk: RoutedKey) returns (pricing: Option<int>)
    requires grid != [] && grid[0] != []
    requires shop.atCharge(grid[0][0].channel.id, grid[0][0].upstream).Found?
    ensures pricing == ServingPrice(grid, shop, rk)
  {
    if rk.channel.id == grid[0][0].channel.id && rk.upstream == grid[0][0].upstream {
      return shop.atCharge(grid[0][0].channel.id, grid[0][0].upstream).pricing;
    }
    var found := shop.atReply(rk.channel.id, rk.upstream);
    match found {
      case Found(p) => pricing := p;
      case LookupFailed => pricing := None;
    }
  }

  /** Other requests at work on the health table. */
  method Meanwhile(health: H.HealthManager, others: seq<H.Op>)
    modifies health
    ensures health.states == Fold(H.Apply, old(health.states), others)
  {
    var i := 0;
    while i < |others|
      invariant 0 <= i <= |others|
      invariant health.states == Fold(H.Apply, old(health.states), others[..i])
    {
      assert others[..i + 1] == others[..i] + [others[i]];
      FoldSnoc(H.Apply, old(health.states), others[..i], others[i]);
      match others[i] {
        case Fail(key, model, now) => health.MarkCooldown(key, model, now);
        case Disable(key) => health.MarkDisabled(key);
        case Restore(keys) => health.RestoreDisabled(keys);
        case Sync(key, status) => health.SyncKeyFromDb(key, status);
        case Purge(now) => health.CheckRecoveries(now);
      }
      i := i + 1;
    }
    assert others[..i] == others;
  }

  method Mark(health: H.HealthManager, rk: RoutedKey, m: Moment)
    modifies health
    ensures health.states == Fold(H.Apply, old(health.states), MarkOf(rk, m))
  {
    FoldSnoc(H.Apply, health.states, [], H.Disable(rk.key.id));
    FoldSnoc(H.Apply, health.states, [], H.Fail(rk.key.id, rk.upstream, m.failedAt));
    assert [] + MarkOf(rk, m) == MarkOf(rk, m);
    if m.answer.Error().Some? {
      match ClassifyFailure(m.answer.Error().value) {
        case Cooldown => health.MarkCooldown(rk.key.id, rk.upstream, m.failedAt);
        case Disable => health.MarkDisabled(rk.key.id);
        case _ =>
      }
    }
  }

  /** The audit variables of the loop. */
  datatype Notes = Notes(attempted: seq<RoutedKey>, last: Option<RoutedKey>, lastError: Option<ProxyError>)

  function NotesOf(grid: Grid, script: Script, visits: seq<Visit>): Notes {
    Notes(Tried(grid, visits), LastKey(Tried(grid, visits)), LastError(script, visits))
  }

  lemma NotesSnoc(grid: Grid, script: Script, visits: seq<Visit>, v: Visit)
    requires Within(grid, v)
    ensures var notes, next := NotesOf(grid, script, visits), NotesOf(grid, script, visits + [v]);
            if v.tried
            then
              next == Notes(notes.attempted + [grid[v.b][v.k]], Some(grid[v.b][v.k]), script(v.b, v.k).answer.Error())
            else next == notes
  {
    TriedSnoc(grid, visits, v);
    assert Tried(grid, visits) + [] == Tried(grid, visits);
  }

  datatype Turn = NextKey | NextBinding | Leave(how: Ending)

  /** What the loop does next is where the reference goes next. */
  ghost predicate Follows(turn: Turn, f: Front, next: Front) {
    match turn
    case NextKey => next.ending.None? && next.b == f.b && next.k == f.k + 1
    case NextBinding => next.ending.None? && next.b == f.b + 1 && next.k == 0
    case Leave(how) => next.ending == Some(how) && !how.Exhausted?
  }

  method Decide(answer: Answer, ghost f: Front) returns (turn: Turn)
    requires f.ending.None?
    ensures var next := After(f, answer);
            Follows(turn, f, next) && next.visits == f.visits && next.states == f.states
  {
    match answer {
      case Unprepared => turn := Leave(Rejected(OtherError));
      case Replied(status, usage, readable) => turn := Leave(Served(status, usage, readable));
      case TimedOut => turn := NextKey;
      case Failed(e) =>
        match ClassifyFailure(e) {
          case ReturnToClient => turn := Leave(Rejected(e));
          case SkipBinding => turn := NextBinding;
          case _ => turn := NextKey;
        }
    }
  }

  /** A position within the grid is either passed over or tried. */
  lemma AdvanceHere(grid: Grid, script: Script, f: Front)
    requires f.ending.None? && f.b < Limit(grid) && f.k < |grid[f.b]|
    ensures var rk, m := grid[f.b][f.k], script(f.b, f.k);
            var seen := Fold(H.Apply, f.states, m.others);
            var next := Advance(grid, script, f);
            if H.Available(seen, rk.key.id, rk.upstream, m.checkedAt)
            then
              next == After(f.(visits := f.visits + [Visit(f.b, f.k, true)],
                               states := Fold(H.Apply, seen, AttemptOps(rk, m))), m.answer)
            else next == f.(visits := f.visits + [Visit(f.b, f.k, false)], states := seen, k := f.k + 1)
  {
  }

  lemma PassedOver(f: Front, next: Front)
    ensures f.ending.None? && next == Front(next.visits, next.states, f.b, f.k + 1, None) ==> Follows(NextKey, f, next)
  {
  }

  /** One pass through the loop body, up to the point where billing comes in. */
  method TryKey(grid: Grid, script: Script, i: nat, k: nat, health: H.HealthManager, repo: Store, notes: Notes,
                ghost f: Front, ghost b: Books)
    returns (turn: Turn, notes': Notes)
    requires f == Front(f.visits, health.states, i, k, None) && i < Limit(grid) && k < |grid[i]|
    requires notes == NotesOf(grid, script, f.visits) && repo.View() == Disturbed(b, script, f.visits)
    modifies health, repo
    ensures var next := Advance(grid, script, f);
            && Follows(turn, f, next) && health.states == next.states
            && notes' == NotesOf(grid, script, next.visits) && repo.View() == Disturbed(b, script, next.visits)
            && (turn.Leave? ==> notes'.last.Some?)
    ensures repo.calls == old(repo.calls)
  {
    var rk, m := grid[i][k], script(i, k);
    NotesSnoc(grid, script, f.visits, Visit(i, k, false));
    NotesSnoc(grid, script, f.visits, Visit(i, k, true));
    DisturbedSnoc(b, script, f.visits, Visit(i, k, false));
    DisturbedSnoc(b, script, f.visits, Visit(i, k, true));
    AdvanceHere(grid, script, f);
    PassedOver(f, Advance(grid, script, f));
    assert AttemptOps(rk, m) == m.during + MarkOf(rk, m);
    hide *;
    notes' := notes;
    Meanwhile(health, m.others);
    MeanwhileOnBooks(repo, m.transactions);
    ghost var seen := health.states;
    var available := health.IsAvailable(rk.key.id, rk.upstream, m.checkedAt);
    if !available {
      return NextKey, notes';
    }
    notes' := Notes(notes.attempted + [rk], Some(rk), m.answer.Error());
    Meanwhile(health, m.during);
    Mark(health, rk, m);
    FoldAppend(H.Apply, seen, m.during, MarkOf(rk, m));
    ghost var tried := f.(visits := f.visits + [Visit(i, k, true)], states := health.states);
    assert Advance(grid, script, f) == After(tried, m.answer);
    turn := Decide(m.answer, tried);
  }

  lemma EndOfBinding(grid: Grid, script: Script, f: Front)
    requires f.ending.None? && f.b < Limit(grid) && f.k >= |grid[f.b]|
    ensures Walk(grid, script, f) == Walk(grid, script, f.(b := f.b + 1, k := 0))
  {
  }

  lemma EndOfGrid(grid: Grid, script: Script, f: Front)
    requires f.ending.None? && f.b >= Limit(grid)
    ensures Walk(grid, script, f) == f.(ending := Some(Exhausted))
  {
  }

  lemma ReportFromNotes(grid: Grid, script: Script, shop: Shop, end: Front, notes: Notes)
    requires end.ending.Some? && notes == NotesOf(grid, script, end.visits)
    ensures Report(grid, script, shop, end) ==
              match end.ending.value
              case Exhausted =>
                Failure(notes.last, notes.attempted,
                        if notes.lastError.Some? then StatusIn(notes.lastError.value) else None,
                        AllKeysExhausted(notes.lastError))
              case Rejected(e) => Failure(notes.last, notes.attempted, StatusIn(e), Surfaced(e))
              case Served(status, usage, readable) =>
                if notes.last.None? then NO_ATTEMPT
                else if readable
                then
                  Success(notes.last.value, notes.attempted, Some(status),
                          shop.cost(usage, ServingPrice(grid, shop, notes.last.value)))
                else Failure(notes.last, notes.attempted, Some(status), Surfaced(OtherError))
  {
  }

  lemma CostFromNotes(grid: Grid, script: Script, shop: Shop, end: Front, notes: Notes)
    requires end.ending.Some? && notes == NotesOf(grid, script, end.visits)
    ensures CostOf(grid, shop, end) ==
              if end.ending.value.Served? && notes.last.Some?
              then Some(shop.cost(end.ending.value.usage, ServingPrice(grid, shop, notes.last.value))) else None
  {
  }

  method GiveUp(repo: Store, session: BillingSession, wait: Wait, ghost t: Terms)
    requires Holds(session, t)
    modifies repo
    ensures repo.View() == Closed(old(repo.View()), t, None, wait)
    ensures repo.calls == old(repo.calls) + [Closing(t, None)]
  {
    MeanwhileOnBooks(repo, wait.before);
    Refund(repo, session);
  }

  method Conclude(repo: Store, session: BillingSession, cost: nat, wait: Wait, ghost t: Terms)
    requires Holds(session, t)
    modifies repo, session
    ensures session.settled
    ensures repo.View() == Closed(old(repo.View()), t, Some(cost), wait)
    ensures repo.calls == old(repo.calls) + [Closing(t, Some(cost))]
  {
    MeanwhileOnBooks(repo, wait.before);
    var settled := Settle(repo, session, cost, wait.inside);
  }

  /** The two loops, shared by both kinds of execution.  Of their own they touch nothing but the health table; how
      they are left decides how the session is closed. */
  method TryAll(grid: Grid, script: Script, health: H.HealthManager, repo: Store) returns (how: Ending, notes: Notes)
    modifies health, repo
    ensures var end := Run(grid, script, old(health.states));
            && health.states == end.states
            && notes == NotesOf(grid, script, end.visits)
            && end.ending == Some(how) && (how.Exhausted? || notes.last.Some?)
            && repo.View() == Disturbed(old(repo.View()), script, end.visits)
    ensures repo.calls == old(repo.calls)
  {
    ghost var f, end, b := Start(health.states), Run(grid, script, health.states), repo.View();
    notes := Notes([], None, None);
    assert notes == NotesOf(grid, script, []);
    assert repo.View() == Disturbed(b, script, []);
    hide *;
    var i := 0;
    while i < Limit(grid)
      invariant i <= Limit(grid) && f == Front(f.visits, health.states, i, 0, None)
      invariant end == Walk(grid, script, f) && notes == NotesOf(grid, script, f.visits)
      invariant repo.View() == Disturbed(b, script, f.visits) && repo.calls == old(repo.calls)
    {
      var k := 0;
      while k < |grid[i]|
        invariant k <= |grid[i]| && f == Front(f.visits, health.states, i, k, None)
        invariant end == Walk(grid, script, f) && notes == NotesOf(grid, script, f.visits)
        invariant repo.View() == Disturbed(b, script, f.visits) && repo.calls == old(repo.calls)
      {
        WalkStep(grid, script, f);
        var turn;
        turn, notes := TryKey(grid, script, i, k, health, repo, notes, f, b);
        f := Advance(grid, script, f);
        match turn {
          case NextKey => k := k + 1;
          case NextBinding => break;
          case Leave(leaving) =>
            EndedWalk(grid, script, f);
            return leaving, notes;
        }
      }
      if f.b == i {
        EndOfBinding(grid, script, f);
        f := f.(b := i + 1, k := 0);
      }
      i := i + 1;
    }
    EndOfGrid(grid, script, f);
    how := Exhausted;
  }

  /** Non-streaming execution: a charge, then the loops while others go on billing, then exactly one close, which
      settles the reply's actual cost on the serving binding or gives the pre-charge back. */
  method Execute(user: int, token: int, grid: Grid, script: Script, shop: Shop, wait: Wait, health: H.HealthManager,
                 repo: Store)
    returns (reply: Reply)
    requires grid != [] ==> grid[0] != []
    modifies health, repo
    ensures !Starts(old(repo.View()), user, token, grid, shop) ==>
              && reply == NO_ATTEMPT && health.states == old(health.states)
              && repo.View() == old(repo.View()) && repo.calls == old(repo.calls)
    ensures Starts(old(repo.View()), user, token, grid, shop) ==>
              var t := TermsOf(old(repo.View()), user, token, grid, shop);
              var end := Run(grid, script, old(health.states));
              && reply == Report(grid, script, shop, end)
              && health.states == end.states
              && repo.View() == Billed(old(repo.View()), t, grid, script, shop, end, wait)
              && repo.calls == old(repo.calls) + [Opening(t), Closing(t, CostOf(grid, shop, end))]
  {
    var charged := Charge(repo, user, token, grid, shop);
    if charged.None? {
      return NO_ATTEMPT;
    }
    var session := charged.value;
    ghost var t := TermsOf(old(repo.View()), user, token, grid, shop);
    ghost var end := Run(grid, script, health.states);
    hide Run, Report, NotesOf, SettledBooks, Adjusted, ServingPrice, PricingOf, Disturbed, Closed, CostOf, TermsOf;
    var how, notes := TryAll(grid, script, health, repo);
    ReportFromNotes(grid, script, shop, end, notes);
    CostFromNotes(grid, script, shop, end, notes);
    match how {
      case Served(status, usage, readable) =>
        var pricing := ActualPricing(grid, shop, notes.last.value);
        var cost := shop.cost(usage, pricing);
        Conclude(repo, session, cost, wait, t);
        if !readable {
          return Failure(notes.last, notes.attempted, Some(status), Surfaced(OtherError));
        }
        reply := Success(notes.last.value, notes.attempted, Some(status), cost);
      case Rejected(e) =>
        GiveUp(repo, session, wait, t);
        reply := Failure(notes.last, notes.attempted, StatusIn(e), Surfaced(e));
      case Exhausted =>
        GiveUp(repo, session, wait, t);
        reply := Failure(notes.last, notes.attempted,
                         if notes.lastError.Some? then StatusIn(notes.lastError.value) else None,
                         AllKeysExhausted(notes.lastError));
    }
  }

  datatype Bootstrap =
    | Streaming(session: BillingSession, rk: RoutedKey, pricing: Option<int>)
    | NotStreaming(failure: Reply)

  /** Streaming execution: either the pre-charge is given back, or one unsettled session is handed out with
      the price of the serving binding. */
  method ExecuteStream(user: int, token: int, grid: Grid, script: Script, shop: Shop, wait: Wait,
                       health: H.HealthManager, repo: Store)
    returns (r: Bootstrap)
    requires grid != [] ==> grid[0] != []
    modifies health, repo
    ensures !Starts(old(repo.View()), user, token, grid, shop) ==>
              && r == NotStreaming(NO_ATTEMPT) && health.states == old(health.states)
              && repo.View() == old(repo.View()) && repo.calls == old(repo.calls)
    ensures Starts(old(repo.View()), user, token, grid, shop) ==>
              var t := TermsOf(old(repo.View()), user, token, grid, shop);
              var end := Run(grid, script, old(health.states));
              && health.states == end.states
              && (r.Streaming? <==> end.ending.value.Served?)
              && (r.NotStreaming? ==>
                    && r.failure == Report(grid, script, shop, end)
                    && repo.View() == Billed(old(repo.View()), t, grid, script, shop, end, wait)
                    && repo.calls == old(repo.calls) + [Opening(t), Closing(t, None)])
              && (r.Streaming? ==>
                    && repo.View() == Disturbed(Charged(old(repo.View()), t), script, end.visits)
                    && repo.calls == old(repo.calls) + [Opening(t)]
                    && LastKey(Tried(grid, end.visits)) == Some(r.rk) && r.pricing == ServingPrice(grid, shop, r.rk))
    ensures r.Streaming? ==>
              && fresh(r.session) && Starts(old(repo.View()), user, token, grid, shop)
              && Holds(r.session, TermsOf(old(repo.View()), user, token, grid, shop))
  {
    var charged := Charge(repo, user, token, grid, shop);
    if charged.None? {
      return NotStreaming(NO_ATTEMPT);
    }
    var session := charged.value;
    ghost var t := TermsOf(old(repo.View()), user, token, grid, shop);
    ghost var end := Run(grid, script, health.states);
    hide Run, Report, Tried, Adjusted, ServingPrice, PricingOf, Disturbed, Closed, CostOf, TermsOf;
    var how, notes := TryAll(grid, script, health, repo);
    ReportFromNotes(grid, script, shop, end, notes);
    CostFromNotes(grid, script, shop, end, notes);
    match how {
      case Served(_, _, _) =>
        var pricing := ActualPricing(grid, shop, notes.last.value);
        r := Streaming(session, notes.last.value, pricing);
      case Rejected(e) =>
        GiveUp(repo, session, wait, t);
        r := NotStreaming(Failure(notes.last, notes.attempted, StatusIn(e), Surfaced(e)));
      case Exhausted =>
        GiveUp(repo, session, wait, t);
        r := NotStreaming(Failure(notes.last, notes.attempted,
                                  if notes.lastError.Some? then StatusIn(notes.lastError.value) else None,
                                  AllKeysExhausted(notes.lastError)));
    }
  }

  lemma EndedWalk(grid: Grid, script: Script, f: Front)
    requires f.ending.Some?
    ensures Walk(grid, script, f) == f
  {
  }

  // ---- the tail of a stream ----

  datatype Fate = Delivered | ClientGone | Untranslatable

  /** What comes from upstream: a piece with the usage found in it and what became of it, or a broken connection. */
  datatype Item = Piece(usage: Option<Usage>, fate: Fate) | Broken

  datatype Mode = Passthrough | FromOpenai | FromClaude

  /** What ends the forwarding depends on how the stream is translated. */
  predicate Stops(mode: Mode, item: Item) {
    match item
    case Broken => true
    case Piece(_, fate) => (mode.Passthrough? && fate.ClientGone?) || (mode.FromOpenai? && fate.Untranslatable?)
  }

  function Plus(a: Usage, b: Option<Usage>): Usage {
    if b.Some? then Usage(a.prompt + b.value.prompt, a.completion + b.value.completion) else a
  }

  /** All usage reported up to and including the item that stops the stream. */
  function Consumed(mode: Mode, items: seq<Item>): Usage {
    if items == [] then Usage(0, 0)
    else
      var rest := if Stops(mode, items[0]) then Usage(0, 0) else Consumed(mode, items[1..]);
      Plus(rest, if items[0].Piece? then items[0].usage else None)
  }

  /** However the stream ends, its session is settled once, on the usage that came through, while others go on. */
  method StreamTail(mode: Mode, items: seq<Item>, session: BillingSession, pricing: Option<int>, shop: Shop,
                    wait: Wait, repo: Store, ghost t: Terms)
    requires Holds(session, t)
    modifies repo, session
    ensures session.settled
    ensures repo.View() == Closed(old(repo.View()), t, Some(shop.cost(Consumed(mode, items), pricing)), wait)
    ensures repo.calls == old(repo.calls) + [Closing(t, Some(shop.cost(Consumed(mode, items), pricing)))]
  {
    var acc := Forward(mode, items);
    Conclude(repo, session, shop.cost(acc, pricing), wait, t);
  }

  lemma ConsumedStep(mode: Mode, items: seq<Item>, i: nat, acc: Usage)
    requires i < |items|
    ensures var next := Plus(acc, if items[i].Piece? then items[i].usage else None);
            Plus(acc, Some(Consumed(mode, items[i..])))
            == if Stops(mode, items[i]) then next else Plus(next, Some(Consumed(mode, items[i + 1..])))
  {
    assert items[i..][1..] == items[i + 1..];
  }

  lemma ConsumedNothing(mode: Mode)
    ensures Consumed(mode, []) == Usage(0, 0)
  {
  }

  method Forward(mode: Mode, items: seq<Item>) returns (acc: Usage)
    ensures acc == Consumed(mode, items)
  {
    hide Consumed;
    acc := Usage(0, 0);
    var i := 0;
    assert items[0..] == items;
    ConsumedNothing(mode);
    while i < |items|
      invariant 0 <= i <= |items|
      invariant Consumed(mode, items) == Plus(acc, Some(Consumed(mode, items[i..])))
    {
      ConsumedStep(mode, items, i, acc);
      match items[i] {
        case Broken => return;
        case Piece(usage, fate) =>
          acc := Plus(acc, usage);
          if mode.Passthrough? && fate.ClientGone? {
            return;
          }
          if mode.FromOpenai? && fate.Untranslatable? {
            return;
          }
      }
      i := i + 1;
    }
    assert items[i..] == [];
  }
}
