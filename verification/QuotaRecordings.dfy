/** What becomes of every successful request in the stored counter of a small model. */
module QuotaRecordings {
  import opened Folds
  import opened Wire
  import opened QuotaCounter

  /** What a request is to add to the counter; nothing when it is not counted. */
  function Worth(start: Quota, tokens: nat): nat { DeltaOf(start, tokens).GetOr(0) }

  function WorthOf(start: Quota): Action -> int {
    (a: Action) => if a.Record? then Worth(start, a.tokens) else 0
  }

  /** What all requests begun so far were to add. */
  function Owed(start: Quota, actions: seq<Action>): int { Total(WorthOf(start), actions) }

  /** A request that counts looks for the entry while nothing is cached. */
  predicate Blind(start: Quota, w: World, a: Action) {
    && a.Look? && a.i < |w.tasks| && w.tasks[a.i].Begun? && DeltaOf(start, w.tasks[a.i].tokens).Some?
    && w.cached.None?
  }

  predicate EverBlind(start: Quota, actions: seq<Action>) {
    exists n :: 0 <= n < |actions| && Blind(start, Run(start, actions[..n]), actions[n])
  }

  /** What the requests that looked blindly were to add. */
  function Lost(start: Quota, actions: seq<Action>): nat {
    if actions == [] then 0
    else
      var n := |actions| - 1;
      var w := Run(start, actions[..n]);
      Lost(start, actions[..n]) + if Blind(start, w, actions[n]) then Worth(start, w.tasks[actions[n].i].tokens) else 0
  }

  /** What a request has yet to add to the stored counter. */
  function Due(start: Quota): Task -> int {
    (t: Task) =>
      match t
      case Begun(tokens) => Worth(start, tokens)
      case Decided(delta, _, _) => delta
      case CacheWritten(delta, _) => delta
      case _ => 0
  }

  /** Whatever is cached has the limit and the unit the run began with. */
  ghost predicate CachedCounts(start: Quota, w: World) {
    w.cached.Some? ==> forall tokens :: DeltaOf(w.cached.value, tokens) == DeltaOf(start, tokens)
  }

  lemma TurnPays(start: Quota, w: World, a: Action)
    requires CachedCounts(start, w) && !a.Record? && !a.Load? && !a.Invalidate? && a.i < |w.tasks|
    ensures var next := Step(w, a);
            next.row.used + Due(start)(next.tasks[a.i]) ==
            w.row.used + Due(start)(w.tasks[a.i])
            - if Blind(start, w, a) then Worth(start, w.tasks[a.i].tokens) else 0
  {
  }

  lemma StepPays(start: Quota, w: World, a: Action)
    requires CachedCounts(start, w)
    ensures var next := Step(w, a);
            next.row.used + Total(Due(start), next.tasks) ==
            w.row.used + Total(Due(start), w.tasks) + WorthOf(start)(a)
            - if Blind(start, w, a) then Worth(start, w.tasks[a.i].tokens) else 0
  {
    if a.Record? || a.Load? {
      TotalSnoc(Due(start), w.tasks, if a.Record? then Begun(a.tokens) else Loading);
    } else if !a.Invalidate? && a.i < |w.tasks| {
      TurnPays(start, w, a);
      TurnTotals(w, a, Due(start));
      hide *;
    }
  }

  /** In every run: what is stored and what is still to be stored is what was owed, less what was lost by looking
      while nothing was cached. */
  lemma {:induction false} RunPays(start: Quota, actions: seq<Action>)
    ensures var w := Run(start, actions);
            w.row.used + Total(Due(start), w.tasks) == start.used + Owed(start, actions) - Lost(start, actions)
  {
    if actions != [] {
      var n := |actions| - 1;
      RunPays(start, actions[..n]);
      RunLags(start, actions[..n]);
      StepPays(start, Run(start, actions[..n]), actions[n]);
      hide Lags, Due, WorthOf, Step, Blind, Worth;
    }
  }

  lemma EverBlindSnoc(start: Quota, before: seq<Action>, a: Action)
    ensures EverBlind(start, before + [a]) <==> EverBlind(start, before) || Blind(start, Run(start, before), a)
  {
    hide Run, Blind;
    var all, n := before + [a], |before|;
    assert all[..n] == before && all[n] == a;
    assert forall m :: 0 <= m < n ==> all[..m] == before[..m] && all[m] == before[m];
    if m :| 0 <= m < n && Blind(start, Run(start, before[..m]), before[m]) {
      assert Blind(start, Run(start, all[..m]), all[m]);
    }
    if Blind(start, Run(start, before), a) {
      assert Blind(start, Run(start, all[..n]), all[n]);
    }
  }

  lemma {:induction false} LostIffBlind(start: Quota, actions: seq<Action>)
    ensures Lost(start, actions) > 0 <==> EverBlind(start, actions)
  {
    if actions != [] {
      var n := |actions| - 1;
      LostIffBlind(start, actions[..n]);
      assert actions == actions[..n] + [actions[n]];
      hide Run, EverBlind;
      EverBlindSnoc(start, actions[..n], actions[n]);
    }
  }

  /** Every request has been written down, or has been passed over. */
  predicate AllWritten(w: World) {
    forall t <- w.tasks :: !t.Begun? && !t.Decided? && !t.CacheWritten?
  }

  /** In every run, once no recording is under way, the stored counter has grown by what was owed, less what was
      lost; and it has grown by all that was owed if and only if no request that counts looked while nothing was
      cached. */
  lemma RecordedIff(start: Quota, actions: seq<Action>)
    requires AllWritten(Run(start, actions))
    ensures var used := Run(start, actions).row.used;
            && used == start.used + Owed(start, actions) - Lost(start, actions)
            && (used == start.used + Owed(start, actions) <==> !EverBlind(start, actions))
  {
    RunPays(start, actions);
    TotalZero(Due(start), Run(start, actions).tasks);
    LostIffBlind(start, actions);
    hide EverBlind, Run;
  }

  /** It happens: a request that succeeds before anything is cached is not counted. */
  lemma BlindLoses()
    ensures var actions := [] + [Record(6)] + [Look(0)];
            && AllWritten(Run(TEN, actions)) && Run(TEN, actions).row.used == 0 && Owed(TEN, actions) == 6
  {
    Then(TEN, [], Record(6));
    Then(TEN, [] + [Record(6)], Look(0));
    TotalSnoc(WorthOf(TEN), [], Record(6));
    TotalSnoc(WorthOf(TEN), [] + [Record(6)], Look(0));
  }
}
