/** What every run of the failover loop looks like from outside. */
module FailoverTrail {
  import opened Folds
  import opened Routing
  import opened Wire
  import opened Failover
  import H = Health

  ghost predicate Earlier(v: Visit, w: Visit) {
    v.b < w.b || (v.b == w.b && v.k < w.k)
  }

  // ---- what a failure means, status by status ----

  /** The key was refused: 401 or 403. */
  predicate KeyIsBad(e: ProxyError) { e.Upstream? && e.status in {401, 403} }

  /** The binding cannot serve the request: 404, or 400 because the context is too long. */
  predicate BindingIsBad(e: ProxyError) {
    e.Upstream? && (e.status == 404 || (e.status == 400 && e.contextExceeded))
  }

  /** The request itself is at fault: any other 400, or 422, or found invalid before it was sent. */
  predicate RequestIsBad(e: ProxyError) {
    e.InvalidRequest? || (e.Upstream? && (e.status == 422 || (e.status == 400 && !e.contextExceeded)))
  }

  /** Everything else passes: other statuses (429 and 5xx among them), time-outs, broken connections. */
  predicate IsTransient(e: ProxyError) { !KeyIsBad(e) && !BindingIsBad(e) && !RequestIsBad(e) }

  /** What an attempt failed with, if it failed. */
  function FailureOf(answer: Answer): Option<ProxyError> {
    match answer
    case TimedOut => Some(UpstreamTimeout)
    case Failed(e) => Some(e)
    case _ => None
  }

  function FailureAt(script: Script, v: Visit): Option<ProxyError> {
    if v.tried then FailureOf(script(v.b, v.k).answer) else None
  }

  predicate Disables(script: Script, v: Visit) {
    FailureAt(script, v).Some? && KeyIsBad(FailureAt(script, v).value)
  }

  predicate Skips(script: Script, v: Visit) {
    FailureAt(script, v).Some? && BindingIsBad(FailureAt(script, v).value)
  }

  /** The loop goes on after this visit. */
  predicate GoesOn(script: Script, v: Visit) {
    !v.tried || (FailureAt(script, v).Some? && !RequestIsBad(FailureAt(script, v).value))
  }

  /** One move of the loop, forgetting about health. */
  ghost predicate Moves(grid: Grid, script: Script, f: Front, next: Front) {
    if f.b >= Limit(grid) then next == f.(ending := Some(Exhausted))
    else if f.k >= |grid[f.b]| then next == f.(b := f.b + 1, k := 0)
    else
      exists tried: bool ::
        var v := Visit(f.b, f.k, tried);
        && next.visits == f.visits + [v]
        && if !GoesOn(script, v)
           then next.ending.Some? && !next.ending.value.Exhausted? && next.b == f.b && next.k == f.k
           else
             && next.ending.None?
             && if Skips(script, v) then next.b == f.b + 1 && next.k == 0 else next.b == f.b && next.k == f.k + 1
  }

  /** Where an answer leads, from the position it was given at. */
  lemma AnswerLeads(f: Front, answer: Answer)
    requires f.ending.None?
    ensures var next := After(f, answer);
            && next.visits == f.visits && next.states == f.states
            && match FailureOf(answer)
               case None => next.b == f.b && next.k == f.k && next.ending.Some? && !next.ending.value.Exhausted?
               case Some(e) =>
                 if RequestIsBad(e) then next == f.(ending := Some(Rejected(e)))
                 else if BindingIsBad(e) then next == f.(b := f.b + 1, k := 0)
                 else next == f.(k := f.k + 1)
  {
  }

  lemma AdvanceMoves(grid: Grid, script: Script, f: Front)
    requires f.ending.None?
    ensures Moves(grid, script, f, Advance(grid, script, f))
  {
    if f.b < Limit(grid) && f.k < |grid[f.b]| {
      var rk, m := grid[f.b][f.k], script(f.b, f.k);
      var seen := Fold(H.Apply, f.states, m.others);
      AdvanceHere(grid, script, f);
      var tried := f.(visits := f.visits + [Visit(f.b, f.k, true)], states := Fold(H.Apply, seen, AttemptOps(rk, m)));
      AnswerLeads(tried, m.answer);
      hide Advance, After, H.Apply, H.Available, Fold, AttemptOps, FailureOf, RequestIsBad, BindingIsBad;
      var next := Advance(grid, script, f);
      var v := next.visits[|f.visits|];
      assert v == Visit(f.b, f.k, v.tried);
      assert FailureAt(script, Visit(f.b, f.k, true)) == FailureOf(m.answer);
    }
  }

  // ---- order ----

  /** Where the loop stands after its last visit. */
  ghost predicate Behind(v: Visit, f: Front) {
    v.b < f.b || (v.b == f.b && (v.k < f.k || (v.k == f.k && f.ending.Some? && !f.ending.value.Exhausted?)))
  }

  ghost predicate InOrder(grid: Grid, f: Front) {
    && (forall i :: 0 <= i < |f.visits| ==> Within(grid, f.visits[i]) && Behind(f.visits[i], f))
    && (forall i, j :: 0 <= i < j < |f.visits| ==> Earlier(f.visits[i], f.visits[j]))
  }

  /** Nothing more happens in a binding after it was skipped. */
  ghost predicate SkipsClose(script: Script, f: Front) {
    && (forall i, j :: 0 <= i < j < |f.visits| && Skips(script, f.visits[i]) ==> f.visits[i].b < f.visits[j].b)
    && (forall i :: 0 <= i < |f.visits| && Skips(script, f.visits[i]) ==> f.visits[i].b < f.b)
  }

  /** Only the last visit can be final. */
  ghost predicate LastIsFinal(script: Script, f: Front) {
    && (forall i :: 0 <= i < |f.visits| - 1 ==> GoesOn(script, f.visits[i]))
    && (f.visits != [] ==>
          (GoesOn(script, f.visits[|f.visits| - 1]) <==> f.ending.None? || f.ending.value.Exhausted?))
    && (f.visits == [] ==> f.ending.None? || f.ending.value.Exhausted?)
  }

  ghost predicate Seen(visits: seq<Visit>, b: nat, k: nat) {
    exists v :: v in visits && v.b == b && v.k == k
  }

  ghost predicate SkippedBefore(script: Script, visits: seq<Visit>, b: nat, k: nat) {
    exists v :: v in visits && v.b == b && v.k < k && Skips(script, v)
  }

  /** Every position the loop has passed was visited, unless its binding had been skipped. */
  ghost predicate Covers(grid: Grid, script: Script, f: Front) {
    forall b: nat, k: nat :: b < Limit(grid) && k < |grid[b]| && (b < f.b || (b == f.b && k < f.k)) ==>
                               Seen(f.visits, b, k) || SkippedBefore(script, f.visits, b, k)
  }

  lemma MoveKeepsOrder(grid: Grid, script: Script, f: Front, next: Front)
    requires InOrder(grid, f) && f.ending.None? && Moves(grid, script, f, next)
    ensures InOrder(grid, next)
  {
    hide GoesOn, Skips, FailureAt;
  }

  lemma MoveKeepsSkips(grid: Grid, script: Script, f: Front, next: Front)
    requires SkipsClose(script, f) && f.ending.None? && Moves(grid, script, f, next)
    ensures SkipsClose(script, next)
  {
    hide FailureAt;
  }

  lemma MoveKeepsLast(grid: Grid, script: Script, f: Front, next: Front)
    requires LastIsFinal(script, f) && f.ending.None? && Moves(grid, script, f, next)
    ensures LastIsFinal(script, next)
  {
    hide FailureAt, GoesOn, Skips;
  }

  lemma MoveCovers(grid: Grid, script: Script, f: Front, next: Front)
    requires Covers(grid, script, f) && f.ending.None? && Moves(grid, script, f, next)
    ensures Covers(grid, script, next)
  {
    hide FailureAt, GoesOn;
    assert forall v :: v in f.visits ==> v in next.visits;
    forall b: nat, k: nat | b < Limit(grid) && k < |grid[b]| && (b < next.b || (b == next.b && k < next.k))
      ensures Seen(next.visits, b, k) || SkippedBefore(script, next.visits, b, k)
    {
      if b < f.b || (b == f.b && k < f.k) {
        assert Seen(f.visits, b, k) || SkippedBefore(script, f.visits, b, k);
      } else {
        var v := next.visits[|f.visits|];
        assert v in next.visits;
      }
    }
  }

  /** An ending other than running out of keys is the answer to the last attempt. */
  ghost predicate EndsOnAnswer(script: Script, f: Front) {
    f.ending.Some? && !f.ending.value.Exhausted? ==>
      && f.visits != []
      && var v := f.visits[|f.visits| - 1];
         var answer := script(v.b, v.k).answer;
         && v.tried
         && match f.ending.value
            case Served(status, usage, readable) => answer == Replied(status, usage, readable)
            case Rejected(e) =>
              || (answer.Unprepared? && e == OtherError)
              || (FailureAt(script, v) == Some(e) && RequestIsBad(e))
            case Exhausted => true
  }

  lemma AdvanceEndsOnAnswer(grid: Grid, script: Script, f: Front)
    requires f.ending.None?
    ensures EndsOnAnswer(script, Advance(grid, script, f))
  {
    if f.b < Limit(grid) && f.k < |grid[f.b]| {
      var rk, m := grid[f.b][f.k], script(f.b, f.k);
      var seen := Fold(H.Apply, f.states, m.others);
      AdvanceHere(grid, script, f);
      var g := f.(visits := f.visits + [Visit(f.b, f.k, true)], states := Fold(H.Apply, seen, AttemptOps(rk, m)));
      hide Advance, H.Apply, Fold, AttemptOps;
      assert EndsOnAnswer(script, After(g, m.answer));
    }
  }

  ghost predicate Shaped(grid: Grid, script: Script, f: Front) {
    && InOrder(grid, f) && SkipsClose(script, f) && LastIsFinal(script, f) && Covers(grid, script, f)
    && EndsOnAnswer(script, f)
    && (f.ending == Some(Exhausted) ==> f.b >= Limit(grid))
  }

  lemma MoveShapes(grid: Grid, script: Script, f: Front)
    requires Shaped(grid, script, f) && f.ending.None?
    ensures Shaped(grid, script, Advance(grid, script, f))
  {
    var next := Advance(grid, script, f);
    AdvanceMoves(grid, script, f);
    MoveKeepsOrder(grid, script, f, next);
    MoveKeepsSkips(grid, script, f, next);
    MoveKeepsLast(grid, script, f, next);
    MoveCovers(grid, script, f, next);
    AdvanceEndsOnAnswer(grid, script, f);
    hide EndsOnAnswer, InOrder, SkipsClose, LastIsFinal, Covers, GoesOn, Skips, Advance;
  }

  lemma AdvanceShrinks(grid: Grid, script: Script, f: Front)
    requires f.ending.None?
    ensures var next := Advance(grid, script, f);
            || next.ending.Some?
            || BindingsLeft(grid, next) < BindingsLeft(grid, f)
            || (BindingsLeft(grid, next) == BindingsLeft(grid, f) && KeysLeft(grid, next) < KeysLeft(grid, f))
  {
  }

  lemma {:induction false} WalkShapes(grid: Grid, script: Script, f: Front)
    requires Shaped(grid, script, f)
    ensures Shaped(grid, script, Walk(grid, script, f))
    decreases f.ending.None?, BindingsLeft(grid, f), KeysLeft(grid, f)
  {
    if f.ending.None? {
      MoveShapes(grid, script, f);
      WalkStep(grid, script, f);
      AdvanceShrinks(grid, script, f);
      hide *;
      WalkShapes(grid, script, Advance(grid, script, f));
    }
  }

  /** Attempts run through the first three bindings in order, nothing more happens in a binding once it was
      skipped, no attempt follows one that ended the request, and a request that used up every key has
      looked at each key of those bindings whose binding had not been skipped before, and at no other. */
  lemma RunTrail(grid: Grid, script: Script, states: H.States)
    ensures var end := Run(grid, script, states);
            && InOrder(grid, end) && SkipsClose(script, end) && LastIsFinal(script, end) && EndsOnAnswer(script, end)
            && (forall v <- end.visits :: v.b < |grid| && v.b < 3 && v.k < |grid[v.b]|)
            && (end.ending == Some(Exhausted) ==>
                  forall b: nat, k: nat :: b < |grid| && b < 3 && k < |grid[b]| ==>
                                             (Seen(end.visits, b, k) <==> !SkippedBefore(script, end.visits, b, k)))
  {
    var end := Run(grid, script, states);
    WalkShapes(grid, script, Start(states));
    if end.ending == Some(Exhausted) {
      forall b: nat, k: nat | b < Limit(grid) && k < |grid[b]|
        ensures Seen(end.visits, b, k) <==> !SkippedBefore(script, end.visits, b, k)
      {
        NotBoth(script, end, b, k, grid);
      }
    }
  }

  /** The price of a binding as it was looked up: at the charge for the binding of the very first key, after the reply
      for any other; none when that lookup failed. */
  function PriceFound(grid: Grid, shop: Shop, rk: RoutedKey): Option<int>
    requires grid != []
  {
    var charged := && grid[0] != [] && rk.channel.id == grid[0][0].channel.id && rk.upstream == grid[0][0].upstream;
    match if charged then shop.atCharge(rk.channel.id, rk.upstream) else shop.atReply(rk.channel.id, rk.upstream)
    case Found(price) => price
    case LookupFailed => None
  }

  lemma PriceIsFound(grid: Grid, shop: Shop, rk: RoutedKey)
    requires grid != []
    ensures ServingPrice(grid, shop, rk) == PriceFound(grid, shop, rk)
  {
  }

  /** A reply is charged at the price of the binding that gave it, the last one tried; and nothing else is. */
  lemma ReplyIsCharged(grid: Grid, script: Script, states: H.States, end: Front, shop: Shop)
    requires end == Run(grid, script, states)
    ensures CostOf(grid, shop, end).Some? <==> end.ending.value.Served?
    ensures end.ending.value.Served? ==>
              && end.visits != []
              && var v := end.visits[|end.visits| - 1];
              && Within(grid, v) && script(v.b, v.k).answer.Replied?
              && CostOf(grid, shop, end)
                 == Some(shop.cost(script(v.b, v.k).answer.usage, PriceFound(grid, shop, grid[v.b][v.k])))
  {
    RunTrail(grid, script, states);
    if end.ending.value.Served? {
      ServedLast(grid, script, end);
      var v := end.visits[|end.visits| - 1];
      PriceIsFound(grid, shop, grid[v.b][v.k]);
      hide ServingPrice, PriceFound, Run, Tried, InOrder, SkipsClose, LastIsFinal, Seen, SkippedBefore, EndsOnAnswer;
    }
  }

  lemma ServedLast(grid: Grid, script: Script, end: Front)
    requires InOrder(grid, end) && EndsOnAnswer(script, end) && end.ending.Some? && end.ending.value.Served?
    ensures end.visits != []
    ensures var v, served := end.visits[|end.visits| - 1], end.ending.value;
            && Within(grid, v) && script(v.b, v.k).answer == Replied(served.status, served.usage, served.readable)
            && LastKey(Tried(grid, end.visits)) == Some(grid[v.b][v.k])
  {
    var n := |end.visits| - 1;
    var v := end.visits[n];
    assert end.visits == end.visits[..n] + [v];
    TriedSnoc(grid, end.visits[..n], v);
    hide Tried;
  }

  /** The keys tried, first to last. */
  function KeysTried(grid: Grid, visits: seq<Visit>): seq<RoutedKey>
    requires forall v <- visits :: Within(grid, v)
  {
    if visits == [] then []
    else
      assert Within(grid, visits[0]);
      (if visits[0].tried then [grid[visits[0].b][visits[0].k]] else []) + KeysTried(grid, visits[1..])
  }

  lemma {:induction false} TriedInOrder(grid: Grid, visits: seq<Visit>)
    requires forall v <- visits :: Within(grid, v)
    ensures Tried(grid, visits) == KeysTried(grid, visits)
  {
    if visits != [] {
      GatherFirst(KeyTried(grid), visits);
      assert Within(grid, visits[0]);
      TriedInOrder(grid, visits[1..]);
    }
  }

  /** The last visit at which a key was tried. */
  function LastTry(visits: seq<Visit>): (last: Option<Visit>)
    ensures last.Some? ==> last.value in visits && last.value.tried
  {
    if visits == [] then None
    else if visits[|visits| - 1].tried then Some(visits[|visits| - 1])
    else LastTry(visits[..|visits| - 1])
  }

  function StatusOf(e: Option<ProxyError>): Option<int> {
    match e case Some(Upstream(status, _)) => Some(status) case _ => None
  }

  lemma {:induction false} LastErrorIs(grid: Grid, script: Script, visits: seq<Visit>)
    requires forall v <- visits :: Within(grid, v)
    ensures var last := LastTry(visits);
            && LastError(script, visits)
               == (if last.None? then None else FailureOf(script(last.value.b, last.value.k).answer))
            && (last.Some? ==> Within(grid, last.value))
            && LastKey(Tried(grid, visits)) == if last.None? then None else Some(grid[last.value.b][last.value.k])
  {
    if visits != [] {
      var n := |visits| - 1;
      assert visits == visits[..n] + [visits[n]] && Within(grid, visits[n]);
      LastErrorIs(grid, script, visits[..n]);
      TriedSnoc(grid, visits[..n], visits[n]);
      hide Tried;
    }
  }

  /** What the caller and the audit log are told, in every run: all keys tried in order, the last of them, and the
      status and outcome of its attempt; when all keys are used up, of the last attempt that was made. */
  lemma ReplyTells(grid: Grid, script: Script, states: H.States, shop: Shop)
    ensures var end := Run(grid, script, states);
            var r := Report(grid, script, shop, end);
            && (forall v <- end.visits :: Within(grid, v))
            && r.attempted == KeysTried(grid, end.visits)
            && var last := LastTry(end.visits);
               var key := if last.None? then None else Some(grid[last.value.b][last.value.k]);
               var failure := if last.None? then None else FailureOf(script(last.value.b, last.value.k).answer);
               match end.ending.value
               case Served(status, usage, readable) =>
                 && last.Some? && script(last.value.b, last.value.k).answer == Replied(status, usage, readable)
                 && r.status == Some(status)
                 && if readable then r.Success? && r.rk == key.value && Some(r.cost) == CostOf(grid, shop, end)
                    else r == Failure(key, r.attempted, Some(status), Surfaced(OtherError))
               case Rejected(e) =>
                 && last.Some? && r == Failure(key, r.attempted, StatusOf(Some(e)), Surfaced(e))
                 && if script(last.value.b, last.value.k).answer.Unprepared? then e == OtherError
                    else failure == Some(e) && RequestIsBad(e)
               case Exhausted => r == Failure(key, r.attempted, StatusOf(failure), AllKeysExhausted(failure))
  {
    var end := Run(grid, script, states);
    RunTrail(grid, script, states);
    assert forall v <- end.visits :: Within(grid, v);
    TriedInOrder(grid, end.visits);
    LastErrorIs(grid, script, end.visits);
    hide Run, Tried, InOrder, SkipsClose, LastIsFinal, Seen, SkippedBefore, LastError, KeysTried, ServingPrice;
  }

  // ---- one attempt ----

  /** What the mark of an attempt does to the table. */
  ghost predicate Marks(states: H.States, after: H.States, rk: RoutedKey, failure: Option<ProxyError>) {
    match failure
    case None => after == states
    case Some(e) =>
      if KeyIsBad(e) then
        && H.KeyAt(after, rk.key.id) == H.KeyState(H.Disabled, map[])
        && forall key: int :: key != rk.key.id ==> H.KeyAt(after, key) == H.KeyAt(states, key)
      else if BindingIsBad(e) || RequestIsBad(e) then after == states
      else
        && (forall key: int :: H.KeyAt(after, key).status == H.KeyAt(states, key).status)
        && (forall key: int, model: string :: key != rk.key.id || model != rk.upstream ==>
              H.PairOf(after, key, model) == H.PairOf(states, key, model))
        && FailedOnceMore(H.PairOf(states, rk.key.id, rk.upstream), H.PairOf(after, rk.key.id, rk.upstream))
  }

  predicate FailedOnceMore(before: Option<H.Entry>, after: Option<H.Entry>) {
    && after.Some?
    && after.value.failures == H.Min((if before.Some? then before.value.failures else 0) + 1, 0xFFFF_FFFF)
  }

  lemma DisablingDoes(states: H.States, rk: RoutedKey, e: ProxyError)
    requires KeyIsBad(e)
    ensures Marks(states, H.Apply(states, H.Disable(rk.key.id)), rk, Some(e))
  {
  }

  lemma FailingDoes(states: H.States, rk: RoutedKey, now: int, e: ProxyError)
    requires IsTransient(e)
    ensures Marks(states, H.Apply(states, H.Fail(rk.key.id, rk.upstream, now)), rk, Some(e))
  {
    hide KeyIsBad, BindingIsBad, RequestIsBad, H.Window;
  }

  lemma OneMark(states: H.States, op: H.Op)
    ensures Fold(H.Apply, states, [op]) == H.Apply(states, op) && Fold(H.Apply, states, []) == states
  {
    FoldSnoc(H.Apply, states, [], op);
    assert [] + [op] == [op];
  }

  lemma MarkDoes(states: H.States, rk: RoutedKey, m: Moment)
    ensures Marks(states, Fold(H.Apply, states, MarkLeft(rk, m)), rk, FailureOf(m.answer))
  {
    OneMark(states, H.Disable(rk.key.id));
    OneMark(states, H.Fail(rk.key.id, rk.upstream, m.failedAt));
    hide FailureOf, KeyIsBad, BindingIsBad, RequestIsBad, Fold, H.Apply;
    if FailureOf(m.answer).Some? {
      var e := FailureOf(m.answer).value;
      if KeyIsBad(e) {
        hide Marks;
        DisablingDoes(states, rk, e);
      } else if IsTransient(e) {
        hide Marks;
        FailingDoes(states, rk, m.failedAt, e);
      }
    }
  }

  /** What trying a key leads to, for every answer: a bad key is disabled and the next one tried; a transient failure is
      recorded for this pair alone, no status touched, and the next key tried; a bad binding leaves no mark and the next
      binding is tried; a bad request leaves no mark and ends the request with its error. */
  lemma AttemptLeads(grid: Grid, script: Script, f: Front)
    requires f.ending.None? && f.b < Limit(grid) && f.k < |grid[f.b]|
    requires CanTry(f.states, grid[f.b][f.k], script(f.b, f.k))
    ensures var rk, m, next := grid[f.b][f.k], script(f.b, f.k), Advance(grid, script, f);
            var awaited := Fold(H.Apply, Fold(H.Apply, f.states, m.others), m.during);
            && Marks(awaited, next.states, rk, FailureOf(m.answer))
            && match FailureOf(m.answer)
               case None => next.ending.Some? && !next.ending.value.Exhausted?
               case Some(e) =>
                 if RequestIsBad(e) then next.ending == Some(Rejected(e))
                 else if BindingIsBad(e) then next.b == f.b + 1 && next.k == 0 && next.ending.None?
                 else next.b == f.b && next.k == f.k + 1 && next.ending.None?
  {
    var rk, m := grid[f.b][f.k], script(f.b, f.k);
    var seen := Fold(H.Apply, f.states, m.others);
    var tried := f.(visits := f.visits + [Visit(f.b, f.k, true)], states := Fold(H.Apply, seen, AttemptOps(rk, m)));
    AdvanceHere(grid, script, f);
    assert Advance(grid, script, f) == After(tried, m.answer);
    hide *;
    AnswerLeads(tried, m.answer);
    MarkIsLeft(rk, m);
    FoldAppend(H.Apply, seen, m.during, MarkLeft(rk, m));
    MarkDoes(Fold(H.Apply, seen, m.during), rk, m);
  }

  lemma SkipIsLast(script: Script, f: Front, i: nat, j: nat, grid: Grid)
    requires InOrder(grid, f) && SkipsClose(script, f)
    requires i < |f.visits| && j < |f.visits| && Skips(script, f.visits[j]) && f.visits[i].b == f.visits[j].b
    ensures f.visits[i].k <= f.visits[j].k
  {
    if i < j {
      assert Earlier(f.visits[i], f.visits[j]);
    }
  }

  lemma NotBoth(script: Script, f: Front, b: nat, k: nat, grid: Grid)
    requires InOrder(grid, f) && SkipsClose(script, f)
    ensures !(Seen(f.visits, b, k) && SkippedBefore(script, f.visits, b, k))
  {
    forall i: nat, j: nat | i < |f.visits| && j < |f.visits| && Skips(script, f.visits[j])
                            && f.visits[i].b == f.visits[j].b
      ensures f.visits[i].k <= f.visits[j].k
    {
      SkipIsLast(script, f, i, j, grid);
    }
  }

  // ---- health ----

  /** The mark an attempt leaves: the key disabled when it is bad, one failure of this pair when the failure is
      transient, and none otherwise. */
  function MarkLeft(rk: RoutedKey, m: Moment): seq<H.Op> {
    match FailureOf(m.answer)
    case None => []
    case Some(e) =>
      if KeyIsBad(e) then [H.Disable(rk.key.id)]
      else if IsTransient(e) then [H.Fail(rk.key.id, rk.upstream, m.failedAt)]
      else []
  }

  /** What happened to the health table around one visit. */
  function OpsAt(grid: Grid, script: Script): Visit -> seq<H.Op> {
    (v: Visit) =>
      var m := script(v.b, v.k);
      m.others + (if v.tried && Within(grid, v) then m.during + MarkLeft(grid[v.b][v.k], m) else [])
  }

  lemma MarkIsLeft(rk: RoutedKey, m: Moment)
    ensures AttemptOps(rk, m) == m.during + MarkLeft(rk, m)
  {
  }

  function HealthAfter(grid: Grid, script: Script, states: H.States, visits: seq<Visit>): H.States {
    Fold(H.Apply, states, Gather(OpsAt(grid, script), visits))
  }

  /** The key is neither disabled nor out of quota, and the pair's window, if it has one, is over. */
  predicate Ready(states: H.States, rk: RoutedKey, now: int) {
    var status, entry := H.KeyAt(states, rk.key.id).status, H.PairOf(states, rk.key.id, rk.upstream);
    (status == H.Active || status == H.Cooldown) && (entry.Some? ==> entry.value.until <= now)
  }

  /** The table when the key of a visit is checked. */
  function AtCheck(grid: Grid, script: Script, states: H.States, visits: seq<Visit>, v: Visit): H.States {
    Fold(H.Apply, HealthAfter(grid, script, states, visits), script(v.b, v.k).others)
  }

  /** Each key visited was tried exactly when it was available then. */
  ghost predicate TriedRightly(grid: Grid, script: Script, states: H.States, visits: seq<Visit>) {
    forall i :: 0 <= i < |visits| ==>
                  && Within(grid, visits[i])
                  && (visits[i].tried <==>
                        Ready(AtCheck(grid, script, states, visits[..i], visits[i]), grid[visits[i].b][visits[i].k],
                              script(visits[i].b, visits[i].k).checkedAt))
  }

  lemma TriedRightlySnoc(grid: Grid, script: Script, states: H.States, visits: seq<Visit>, v: Visit)
    requires TriedRightly(grid, script, states, visits) && Within(grid, v)
    requires v.tried <==>
             Ready(AtCheck(grid, script, states, visits, v), grid[v.b][v.k], script(v.b, v.k).checkedAt)
    ensures TriedRightly(grid, script, states, visits + [v])
  {
    hide AtCheck, Ready, Within;
    var all := visits + [v];
    assert all[..|visits|] == visits;
    assert forall i :: 0 <= i < |visits| ==> all[..i] == visits[..i] && all[i] == visits[i];
  }

  /** The table is what the other requests' operations and this one's marks make of it. */
  ghost predicate Logged(grid: Grid, script: Script, states: H.States, f: Front) {
    f.states == HealthAfter(grid, script, states, f.visits) && TriedRightly(grid, script, states, f.visits)
  }

  lemma HealthSnoc(grid: Grid, script: Script, states: H.States, visits: seq<Visit>, v: Visit)
    ensures HealthAfter(grid, script, states, visits + [v])
            == Fold(H.Apply, HealthAfter(grid, script, states, visits), OpsAt(grid, script)(v))
  {
    GatherSnoc(OpsAt(grid, script), visits, v);
    FoldAppend(H.Apply, states, Gather(OpsAt(grid, script), visits), OpsAt(grid, script)(v));
  }

  lemma AfterKeeps(f: Front, answer: Answer)
    ensures After(f, answer).visits == f.visits && After(f, answer).states == f.states
  {
  }

  /** One visit: what it adds to the trail and does to the table. */
  lemma AdvanceVisits(grid: Grid, script: Script, f: Front)
    requires f.ending.None? && f.b < Limit(grid) && f.k < |grid[f.b]|
    ensures var v := Visit(f.b, f.k, CanTry(f.states, grid[f.b][f.k], script(f.b, f.k)));
            var next := Advance(grid, script, f);
            next.visits == f.visits + [v] && next.states == Fold(H.Apply, f.states, OpsAt(grid, script)(v))
  {
    var rk, m := grid[f.b][f.k], script(f.b, f.k);
    var seen := Fold(H.Apply, f.states, m.others);
    AdvanceHere(grid, script, f);
    var visits := f.visits + [Visit(f.b, f.k, true)];
    AfterKeeps(f.(visits := visits, states := Fold(H.Apply, seen, AttemptOps(rk, m))), m.answer);
    FoldAppend(H.Apply, f.states, m.others, AttemptOps(rk, m));
    MarkIsLeft(rk, m);
    assert m.others + [] == m.others;
    hide H.Apply, Fold, Advance, After, AttemptOps;
  }

  lemma AdvanceLogs(grid: Grid, script: Script, states: H.States, f: Front)
    requires Logged(grid, script, states, f) && f.ending.None?
    ensures Logged(grid, script, states, Advance(grid, script, f))
  {
    if f.b < Limit(grid) && f.k < |grid[f.b]| {
      var next := Advance(grid, script, f);
      var v := Visit(f.b, f.k, CanTry(f.states, grid[f.b][f.k], script(f.b, f.k)));
      AdvanceVisits(grid, script, f);
      HealthSnoc(grid, script, states, f.visits, v);
      TriedRightlySnoc(grid, script, states, f.visits, v);
      hide HealthAfter, Advance, CanTry, TriedRightly;
    }
  }

  lemma {:induction false} WalkLogs(grid: Grid, script: Script, states: H.States, f: Front)
    requires Logged(grid, script, states, f)
    ensures Logged(grid, script, states, Walk(grid, script, f))
    decreases f.ending.None?, BindingsLeft(grid, f), KeysLeft(grid, f)
  {
    if f.ending.None? {
      AdvanceLogs(grid, script, states, f);
      WalkStep(grid, script, f);
      AdvanceShrinks(grid, script, f);
      hide *;
      WalkLogs(grid, script, states, Advance(grid, script, f));
    }
  }

  /** In every run a key is tried exactly when it is available at that moment, and the only marks left behind are
      one cooldown per transient failure and one disabling per bad key: nothing for a skipped binding, a
      request handed back, or a reply. */
  lemma RunIsLogged(grid: Grid, script: Script, states: H.States)
    ensures Logged(grid, script, states, Run(grid, script, states))
  {
    WalkLogs(grid, script, states, Start(states));
  }

  // ---- a disabled key ----

  /** The operation may put the key back into use. */
  predicate Revives(op: H.Op, key: int) {
    match op
    case Restore(keys) => key in keys
    case Sync(k, status) => k == key && H.Usable(status)
    case _ => false
  }

  predicate NoneRevives(ops: seq<H.Op>, key: int) {
    forall op <- ops :: !Revives(op, key)
  }

  /** Neither before the check nor while the answer is awaited. */
  predicate NobodyRevives(m: Moment, key: int) {
    NoneRevives(m.others, key) && NoneRevives(m.during, key)
  }

  lemma {:induction false} StaysUnusable(states: H.States, ops: seq<H.Op>, key: int)
    requires !H.Usable(H.KeyAt(states, key).status) && NoneRevives(ops, key)
    ensures !H.Usable(H.KeyAt(Fold(H.Apply, states, ops), key).status)
  {
    if ops != [] {
      var n := |ops| - 1;
      StaysUnusable(states, ops[..n], key);
      H.StepProjects(Fold(H.Apply, states, ops[..n]), ops[n], key, "");
      assert !Revives(ops[n], key);
    }
  }

  lemma DisablingMark(grid: Grid, script: Script, states: H.States, v: Visit)
    requires Within(grid, v) && Disables(script, v)
    ensures !H.Usable(H.KeyAt(Fold(H.Apply, states, OpsAt(grid, script)(v)), grid[v.b][v.k].key.id).status)
  {
    var key, m := grid[v.b][v.k].key.id, script(v.b, v.k);
    assert OpsAt(grid, script)(v) == m.others + m.during + [H.Disable(key)];
    FoldSnoc(H.Apply, states, m.others + m.during, H.Disable(key));
    H.StepProjects(Fold(H.Apply, states, m.others + m.during), H.Disable(key), key, "");
  }

  lemma MarksReviveNothing(grid: Grid, script: Script, v: Visit, key: int)
    requires NobodyRevives(script(v.b, v.k), key)
    ensures NoneRevives(OpsAt(grid, script)(v), key)
  {
  }

  /** From a disabling attempt on, the key is unusable, as long as nobody revives it. */
  lemma {:induction false} StaysDisabled(grid: Grid, script: Script, states: H.States, visits: seq<Visit>, i: nat,
                                         j: nat, key: int)
    requires i < j <= |visits| && Within(grid, visits[i]) && Disables(script, visits[i])
    requires key == grid[visits[i].b][visits[i].k].key.id
    requires forall p :: i < p < j ==> NobodyRevives(script(visits[p].b, visits[p].k), key)
    ensures !H.Usable(H.KeyAt(HealthAfter(grid, script, states, visits[..j]), key).status)
    decreases j
  {
    var v := visits[j - 1];
    assert visits[..j] == visits[..j - 1] + [v];
    HealthSnoc(grid, script, states, visits[..j - 1], v);
    var before := HealthAfter(grid, script, states, visits[..j - 1]);
    hide *;
    if j == i + 1 {
      DisablingMark(grid, script, before, v);
    } else {
      StaysDisabled(grid, script, states, visits, i, j - 1, key);
      MarksReviveNothing(grid, script, v, key);
      StaysUnusable(before, OpsAt(grid, script)(v), key);
    }
  }

  /** A key that was disabled is not tried again, in this binding or another, unless somebody else revives it. */
  lemma DisabledKeyIsDone(grid: Grid, script: Script, states: H.States, i: nat, j: nat)
    requires var visits := Run(grid, script, states).visits;
             && i < j < |visits| && Within(grid, visits[i]) && Within(grid, visits[j])
             && Disables(script, visits[i])
             && var key := grid[visits[i].b][visits[i].k].key.id;
                && grid[visits[j].b][visits[j].k].key.id == key
                && NoneRevives(script(visits[j].b, visits[j].k).others, key)
                && forall p :: i < p < j ==> NobodyRevives(script(visits[p].b, visits[p].k), key)
    ensures !Run(grid, script, states).visits[j].tried
  {
    var visits := Run(grid, script, states).visits;
    var key := grid[visits[i].b][visits[i].k].key.id;
    RunIsLogged(grid, script, states);
    StaysDisabled(grid, script, states, visits, i, j, key);
    StaysUnusable(HealthAfter(grid, script, states, visits[..j]), script(visits[j].b, visits[j].k).others, key);
    hide Run;
  }

  // ---- what a stream consumes ----

  /** The item ends the forwarding. */
  predicate EndsIt(mode: Mode, item: Item) {
    match (mode, item)
    case (_, Broken) => true
    case (Passthrough, Piece(_, ClientGone)) => true
    case (FromOpenai, Piece(_, Untranslatable)) => true
    case _ => false
  }

  function Prompts(): Item -> int {
    (item: Item) => if item.Piece? && item.usage.Some? then item.usage.value.prompt else 0
  }

  function Completions(): Item -> int {
    (item: Item) => if item.Piece? && item.usage.Some? then item.usage.value.completion else 0
  }

  lemma TotalFirst(share: Item -> int, items: seq<Item>)
    requires items != []
    ensures Total(share, items) == share(items[0]) + Total(share, items[1..])
  {
    assert items == [items[0]] + items[1..] && [] + [items[0]] == [items[0]];
    TotalAppend(share, [items[0]], items[1..]);
    TotalSnoc(share, [], items[0]);
  }

  /** The tokens charged for a stream are the sums, in both columns, over all items up to and including the first that
      ends the forwarding, or over all of them. */
  lemma {:induction false} ConsumedIsSum(mode: Mode, items: seq<Item>) returns (n: nat)
    ensures n <= |items| && (n < |items| ==> n > 0 && EndsIt(mode, items[n - 1]))
    ensures forall i :: 0 <= i < n - 1 ==> !EndsIt(mode, items[i])
    ensures Consumed(mode, items).prompt == Total(Prompts(), items[..n])
    ensures Consumed(mode, items).completion == Total(Completions(), items[..n])
  {
    if items == [] {
      n := 0;
    } else {
      if EndsIt(mode, items[0]) {
        n := 1;
      } else {
        var m := ConsumedIsSum(mode, items[1..]);
        n := m + 1;
      }
      assert items[..n][1..] == items[1..][..n - 1] && items[..n][0] == items[0];
      TotalFirst(Prompts(), items[..n]);
      TotalFirst(Completions(), items[..n]);
      hide Total;
      assert items[1..][..0] == [];
      TotalNothing();
    }
  }

  lemma TotalNothing()
    ensures Total(Prompts(), []) == 0 && Total(Completions(), []) == 0
  {
  }
}
