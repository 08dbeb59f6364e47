/** Which keys may be used: permanent key status, and a backoff per (key, upstream model). */
module Health {
  import opened Folds
  import opened Wire

  datatype Status = Active | Cooldown | Disabled | QuotaExhausted

  /** A cooldown is never stored without its end. */
  datatype Entry = Entry(until: int, failures: nat)

  datatype KeyState = KeyState(status: Status, cooldowns: map<string, Entry>)

  type States = map<int, KeyState>

  const FRESH := KeyState(Active, map[])

  const MAX_COOLDOWN_SECS := 1800
  const SECOND := 1_000_000_000
  const U32_MAX := 0xFFFF_FFFF

  function Pow2(n: nat): nat {
    if n == 0 then 1 else 2 * Pow2(n - 1)
  }

  function Min(a: nat, b: nat): nat {
    if a < b then a else b
  }

  /** The length of the cooldown after the n-th failure in a row, in seconds. */
  function Window(n: nat): nat {
    Min(Pow2(Min(n, 31)), MAX_COOLDOWN_SECS)
  }

  function KeyAt(states: States, key: int): KeyState {
    if key in states then states[key] else FRESH
  }

  function Failed(entry: Option<Entry>, now: int): Entry {
    var n := Min(if entry.Some? then entry.value.failures + 1 else 1, U32_MAX);
    Entry(now + Window(n) * SECOND, n)
  }

  function EntryAt(state: KeyState, model: string): Option<Entry> {
    if model in state.cooldowns then Some(state.cooldowns[model]) else None
  }

  function Live(cooldowns: map<string, Entry>, now: int): map<string, Entry> {
    map m | m in cooldowns && cooldowns[m].until > now :: cooldowns[m]
  }

  // ---- what each operation does to the table ----

  datatype Op =
    | Fail(key: int, model: string, now: int)
    | Disable(key: int)
    | Restore(keys: seq<int>)
    | Sync(key: int, status: Status)
    | Purge(now: int)

  function Apply(states: States, op: Op): States {
    match op
    case Fail(key, model, now) =>
      var state := KeyAt(states, key);
      states[key := state.(cooldowns := state.cooldowns[model := Failed(EntryAt(state, model), now)])]
    case Disable(key) => states[key := KeyState(Disabled, map[])]
    case Restore(keys) => states + map k | k in keys :: FRESH
    case Sync(key, status) =>
      states[key := if status == Active then FRESH else KeyAt(states, key).(status := status)]
    case Purge(now) => map k | k in states :: states[k].(cooldowns := Live(states[k].cooldowns, now))
  }

  lemma RestoreSnoc(states: States, keys: seq<int>, key: int)
    ensures Apply(states, Restore(keys + [key])) == Apply(states, Restore(keys))[key := FRESH]
  {
    assert forall k :: k in keys + [key] <==> k in keys || k == key;
  }

  lemma HasMember(s: set<int>)
    requires s != {}
    ensures exists k :: k in s
  {
    if forall k :: k !in s {
      assert false;
    }
  }

  lemma PurgeByKey(states: States, purged: States, now: int)
    requires purged.Keys == states.Keys
    requires forall k <- states :: purged[k] == states[k].(cooldowns := Live(states[k].cooldowns, now))
    ensures purged == Apply(states, Purge(now))
  {
    var other := Apply(states, Purge(now));
    assert forall k :: k in states <==> k in other;
    assert purged.Keys == other.Keys;
    assert forall k <- states :: purged[k] == other[k];
  }

  function Run(ops: seq<Op>): States {
    Fold(Apply, map[], ops)
  }

  predicate Usable(status: Status) {
    status == Active || status == Cooldown
  }

  predicate Available(states: States, key: int, model: string, now: int) {
    var state := KeyAt(states, key);
    Usable(state.status) && !(model in state.cooldowns && state.cooldowns[model].until > now)
  }

  class HealthManager {
    var states: States

    constructor ()
      ensures states == map[]
    {
      states := map[];
    }

    /** An unseen key is available; otherwise the key must not be disabled and the pair not cooling down. */
    method IsAvailable(key: int, model: string, now: int) returns (yes: bool)
      ensures yes == Available(states, key, model, now)
    {
      if key !in states {
        return true;
      }
      var state := states[key];
      if state.status != Active && state.status != Cooldown {
        return false;
      }
      if model in state.cooldowns {
        if state.cooldowns[model].until > now {
          return false;
        }
      }
      return true;
    }

    method MarkCooldown(key: int, model: string, now: int)
      modifies this
      ensures states == Apply(old(states), Fail(key, model, now))
    {
      var state := if key in states then states[key] else FRESH;
      var failures: nat := if model in state.cooldowns then state.cooldowns[model].failures else 0;
      if failures < U32_MAX {
        failures := failures + 1;
      } else {
        failures := U32_MAX;
      }
      var secs := Pow2(if failures < 31 then failures else 31);
      if secs > MAX_COOLDOWN_SECS {
        secs := MAX_COOLDOWN_SECS;
      }
      var entry := Entry(now + secs * SECOND, failures);
      states := states[key := state.(cooldowns := state.cooldowns[model := entry])];
    }

    method MarkDisabled(key: int)
      modifies this
      ensures states == Apply(old(states), Disable(key))
    {
      states := states[key := KeyState(Disabled, map[])];
    }

    method RestoreDisabled(keys: seq<int>)
      modifies this
      ensures states == Apply(old(states), Restore(keys))
    {
      var i := 0;
      while i < |keys|
        invariant 0 <= i <= |keys|
        invariant states == Apply(old(states), Restore(keys[..i]))
      {
        RestoreSnoc(old(states), keys[..i], keys[i]);
        assert keys[..i + 1] == keys[..i] + [keys[i]];
        states := states[keys[i] := KeyState(Active, map[])];
        i := i + 1;
      }
      assert keys[..i] == keys;
    }

    method SyncKeyFromDb(key: int, status: Status)
      modifies this
      ensures states == Apply(old(states), Sync(key, status))
    {
      var state := if key in states then states[key] else FRESH;
      state := state.(status := status);
      if status == Active {
        state := state.(cooldowns := map[]);
      }
      states := states[key := state];
    }

    /** Drops expired cooldowns, key by key. */
    method CheckRecoveries(now: int)
      modifies this
      ensures states == Apply(old(states), Purge(now))
    {
      hide Apply;
      var todo := states.Keys;
      while todo != {}
        invariant todo <= states.Keys
        invariant states.Keys == old(states).Keys
        invariant forall k <- states :: states[k] ==
                                        if k in todo then old(states)[k]
                                        else old(states)[k].(cooldowns := Live(old(states)[k].cooldowns, now))
        decreases |todo|
      {
        HasMember(todo);
        var k :| k in todo;
        states := states[k := states[k].(cooldowns := Live(states[k].cooldowns, now))];
        todo := todo - {k};
      }
      PurgeByKey(old(states), states, now);
    }
  }

  // ---- the reference: one pair, one key status, read off the history alone ----

  /** The backoff of one pair: no cooldown on record, or the n-th failure in a row and when its window ends. */
  function PairStep(key: int, model: string): (Option<Entry>, Op) -> Option<Entry> {
    (p: Option<Entry>, op: Op) =>
      match op
      case Fail(k, m, now) => if k == key && m == model then Some(Failed(p, now)) else p
      case Disable(k) => if k == key then None else p
      case Restore(keys) => if key in keys then None else p
      case Sync(k, status) => if k == key && status == Active then None else p
      case Purge(now) => if p.Some? && p.value.until <= now then None else p
  }

  function StatusStep(key: int): (Status, Op) -> Status {
    (s: Status, op: Op) =>
      match op
      case Disable(k) => if k == key then Disabled else s
      case Restore(keys) => if key in keys then Active else s
      case Sync(k, status) => if k == key then status else s
      case _ => s
  }

  function PairOf(states: States, key: int, model: string): Option<Entry> {
    EntryAt(KeyAt(states, key), model)
  }

  lemma StepProjects(states: States, op: Op, key: int, model: string)
    ensures PairOf(Apply(states, op), key, model) == PairStep(key, model)(PairOf(states, key, model), op)
    ensures KeyAt(Apply(states, op), key).status == StatusStep(key)(KeyAt(states, key).status, op)
  {
  }

  /** The table is nothing but its pairs and its statuses, each evolving on its own. */
  lemma {:induction false} TableProjects(states: States, ops: seq<Op>, key: int, model: string)
    ensures PairOf(Fold(Apply, states, ops), key, model)
            == Fold(PairStep(key, model), PairOf(states, key, model), ops)
    ensures KeyAt(Fold(Apply, states, ops), key).status == Fold(StatusStep(key), KeyAt(states, key).status, ops)
  {
    if ops != [] {
      var n := |ops| - 1;
      TableProjects(states, ops[..n], key, model);
      StepProjects(Fold(Apply, states, ops[..n]), ops[n], key, model);
    }
  }

  /** The operations that concern one pair: its own failures, changes to its key, and purges. */
  predicate Concerns(op: Op, key: int, model: string) {
    match op
    case Fail(k, m, _) => k == key && m == model
    case Disable(k) => k == key
    case Restore(keys) => key in keys
    case Sync(k, _) => k == key
    case Purge(_) => true
  }

  function Concerning(ops: seq<Op>, key: int, model: string): seq<Op> {
    if ops == [] then []
    else
      var rest := Concerning(ops[..|ops| - 1], key, model);
      if Concerns(ops[|ops| - 1], key, model) then rest + [ops[|ops| - 1]] else rest
  }

  lemma {:induction false} OthersDoNotMatter(ops: seq<Op>, key: int, model: string)
    ensures forall now :: Available(Run(ops), key, model, now)
                          == Available(Run(Concerning(ops, key, model)), key, model, now)
    ensures PairOf(Run(ops), key, model) == PairOf(Run(Concerning(ops, key, model)), key, model)
    ensures KeyAt(Run(ops), key).status == KeyAt(Run(Concerning(ops, key, model)), key).status
  {
    if ops != [] {
      var n := |ops| - 1;
      var before, after := ops[..n], Concerning(ops[..n], key, model);
      OthersDoNotMatter(before, key, model);
      StepProjects(Run(before), ops[n], key, model);
      StepProjects(Run(after), ops[n], key, model);
      FoldSnoc(Apply, map[], after, ops[n]);
    }
  }

  // ---- windows ----

  lemma {:induction false} Pow2Grows(m: nat, n: nat)
    requires m <= n
    ensures Pow2(m) <= Pow2(n)
    decreases n
  {
    if m < n {
      Pow2Grows(m, n - 1);
    }
  }

  /** Two seconds after the first failure, doubling up to eleven failures, half an hour from there on. */
  lemma WindowBounds(m: nat, n: nat)
    requires 1 <= m <= n
    ensures 2 <= Window(m) <= Window(n) <= 1800
    ensures n <= 10 ==> Window(n) == Pow2(n)
    ensures n >= 11 ==> Window(n) == 1800
    ensures Window(1) == 2 && (n < 10 ==> Window(n + 1) == 2 * Window(n))
  {
    assert Pow2(10) == 1024 && Pow2(11) == 2048 && Pow2(1) == 2 by {
      assert Pow2(5) == 32;
      assert Pow2(8) == 256;
    }
    if n < 10 {
      Pow2Grows(n + 1, 10);
    }
    Pow2Grows(1, Min(m, 31));
    Pow2Grows(Min(m, 31), Min(n, 31));
    if n <= 10 {
      Pow2Grows(n, 10);
    } else {
      Pow2Grows(11, Min(n, 31));
    }
  }

  /** When the pair failed last, whatever happened since. */
  function LastFailure(ops: seq<Op>, key: int, model: string): Option<int> {
    if ops == [] then None
    else
      match ops[|ops| - 1]
      case Fail(k, m, now) =>
        if k == key && m == model then Some(now) else LastFailure(ops[..|ops| - 1], key, model)
      case _ => LastFailure(ops[..|ops| - 1], key, model)
  }

  /** How many times in a row the pair has failed: since the start, its key's last reset, or the last purge
      that found its window over. */
  function Streak(ops: seq<Op>, key: int, model: string): nat
    decreases |ops|, 0
  {
    if ops == [] then 0
    else
      var before, op := ops[..|ops| - 1], ops[|ops| - 1];
      match op
      case Fail(k, m, _) =>
        if k == key && m == model then Streak(before, key, model) + 1 else Streak(before, key, model)
      case Disable(k) => if k == key then 0 else Streak(before, key, model)
      case Restore(keys) => if key in keys then 0 else Streak(before, key, model)
      case Sync(k, status) => if k == key && status == Active then 0 else Streak(before, key, model)
      case Purge(now) => if CoolingDown(before, key, model, now) then Streak(before, key, model) else 0
  }

  predicate CoolingDown(ops: seq<Op>, key: int, model: string, now: int)
    decreases |ops|, 1
  {
    var last, n := LastFailure(ops, key, model), Streak(ops, key, model);
    n > 0 && last.Some? && last.value + Window(n) * SECOND > now
  }

  /** What is on record for a pair, in every run: nothing without a failure streak, otherwise the streak's
      length and a window of min(2^n, 1800) seconds from the last failure. */
  lemma {:induction false} RecordIsStreak(ops: seq<Op>, key: int, model: string)
    ensures var n := Streak(ops, key, model);
            && (n > 0 ==> LastFailure(ops, key, model).Some?)
            && PairOf(Run(ops), key, model)
               == if n == 0 then None
                  else Some(Entry(LastFailure(ops, key, model).value + Window(n) * 1_000_000_000, Min(n, 0xFFFF_FFFF)))
  {
    if ops != [] {
      var n := |ops| - 1;
      RecordIsStreak(ops[..n], key, model);
      StepProjects(Run(ops[..n]), ops[n], key, model);
    }
  }

  function StatusOf(ops: seq<Op>, key: int): Status {
    Fold(StatusStep(key), Active, ops)
  }

  /** In every run a pair may be used exactly when its key is neither disabled nor out of quota and the window of its
      current failure streak is over; half an hour after its last failure nothing but the key's status can hold it
      back. */
  lemma AvailabilityIsHistory(ops: seq<Op>, key: int, model: string, now: int)
    ensures Available(Run(ops), key, model, now)
            <==> (StatusOf(ops, key) == Active || StatusOf(ops, key) == Cooldown) && !CoolingDown(ops, key, model, now)
    ensures var last := LastFailure(ops, key, model);
            (last.Some? ==> last.value + 1800 * 1_000_000_000 <= now) ==> !CoolingDown(ops, key, model, now)
  {
    TableProjects(map[], ops, key, model);
    RecordIsStreak(ops, key, model);
    var n := Streak(ops, key, model);
    if n > 0 {
      WindowBounds(n, n);
    }
  }

  // ---- within a streak ----

  /** As long as a streak is not cut, its windows never get shorter. */
  lemma {:induction false} WindowsNeverShrink(ops: seq<Op>, i: nat, j: nat, key: int, model: string)
    requires i <= j <= |ops|
    requires forall p :: i <= p <= j ==> Streak(ops[..p], key, model) > 0
    ensures Streak(ops[..i], key, model) <= Streak(ops[..j], key, model)
    ensures Window(Streak(ops[..i], key, model)) <= Window(Streak(ops[..j], key, model))
    decreases j
  {
    if i < j {
      WindowsNeverShrink(ops, i, j - 1, key, model);
      assert ops[..j][..j - 1] == ops[..j - 1];
    }
    WindowBounds(Streak(ops[..i], key, model), Streak(ops[..j], key, model));
  }

  // ---- purging ----

  predicate FailsNot(ops: seq<Op>, key: int, model: string) {
    forall op <- ops :: !(op.Fail? && op.key == key && op.model == model)
  }

  /** A record that was already over by `p` makes no difference, for as long as the pair does not fail. */
  lemma {:induction false} OverIsAsGood(a: Option<Entry>, b: Option<Entry>, p: int, more: seq<Op>, key: int,
                                        model: string)
    requires FailsNot(more, key, model)
    requires a == b || (b.None? && a.Some? && a.value.until <= p)
    ensures var a', b' := Fold(PairStep(key, model), a, more), Fold(PairStep(key, model), b, more);
            a' == b' || (b'.None? && a'.Some? && a'.value.until <= p)
  {
    if more != [] {
      OverIsAsGood(a, b, p, more[..|more| - 1], key, model);
    }
  }

  /** Purging changes no answer, then or later, until the pair fails again. */
  lemma PurgeIsUnseen(states: States, p: int, more: seq<Op>, key: int, model: string, now: int)
    requires FailsNot(more, key, model) && p <= now
    ensures Available(Fold(Apply, Apply(states, Purge(p)), more), key, model, now)
            == Available(Fold(Apply, states, more), key, model, now)
  {
    var purged := Apply(states, Purge(p));
    StepProjects(states, Purge(p), key, model);
    TableProjects(states, more, key, model);
    TableProjects(purged, more, key, model);
    OverIsAsGood(PairOf(states, key, model), PairOf(purged, key, model), p, more, key, model);
  }

  /** What a purge does change is the window after the next failure: it starts over at two seconds, unless the
      pair was still cooling down or had no streak to forget. */
  lemma PurgeForgives(ops: seq<Op>, p: int, key: int, model: string, now: int)
    ensures var failure := Fail(key, model, now);
            Window(Streak(ops + [Purge(p)] + [failure], key, model)) == Window(Streak(ops + [failure], key, model))
            <==> CoolingDown(ops, key, model, p) || Streak(ops, key, model) == 0
  {
    var failure := Fail(key, model, now);
    var purged := ops + [Purge(p)];
    assert (purged + [failure])[..|purged|] == purged;
    assert (ops + [failure])[..|ops|] == ops && purged[..|ops|] == ops;
    var n := Streak(ops, key, model);
    if n > 0 {
      WindowBounds(2, n + 1);
      WindowBounds(1, 1);
      assert Pow2(2) == 4;
    }
  }
}
