/** The quota counter of a small model, kept twice: in the cached configuration and in the database. */
module QuotaCounter {
  import opened Folds
  import opened Wire

  datatype Unit = Token | Call

  datatype Quota = Quota(limit: Option<int>, unit: Option<Unit>, used: int, exhausted: bool)

  /** What one successful request adds; None when it is not counted at all. */
  function DeltaOf(q: Quota, tokens: nat): Option<nat> {
    if q.limit.None? then None
    else
      match q.unit
      case Some(Token) => if tokens == 0 then None else Some(tokens)
      case Some(Call) => Some(1)
      case None => None
  }

  /** A success counts when there is a limit and a unit to count in: its tokens, unless there are none, or one call. */
  lemma CountsWhen(q: Quota, tokens: nat, delta: nat)
    ensures DeltaOf(q, tokens) == Some(delta) <==>
            && q.limit.Some?
            && ((q.unit == Some(Token) && tokens > 0 && delta == tokens) || (q.unit == Some(Call) && delta == 1))
  {
  }

  predicate Reaches(q: Quota, used: int) {
    q.limit.Some? && used >= q.limit.value
  }

  // ---- the objects ----

  type Model = (int, string)

  class ConfigCache {
    var data: Option<map<Model, Quota>>

    constructor ()
      ensures data.None?
    {
      data := None;
    }

    method Invalidate()
      modifies this
      ensures data.None?
    {
      data := None;
    }

    /** Loads only when nothing is cached. */
    method Get(loaded: map<Model, Quota>) returns (snapshot: map<Model, Quota>)
      modifies this
      ensures data == Some(snapshot) && snapshot == old(data).GetOr(loaded)
    {
      if data.Some? {
        return data.value;
      }
      data := Some(loaded);
      snapshot := loaded;
    }

    method GetSmallModelQuota(m: Model) returns (q: Option<Quota>)
      ensures q == Entry(data, m)
    {
      q := if data.Some? && m in data.value then Some(data.value[m]) else None;
    }

    /** Touches nothing but an existing entry's counter and status. */
    method UpdateSmallModelQuota(m: Model, used: int, exhausted: bool)
      modifies this
      ensures data == Updated(old(data), m, used, exhausted)
    {
      if data.Some? && m in data.value {
        data := Some(data.value[m := data.value[m].(used := used, exhausted := exhausted)]);
      }
    }
  }

  function Entry(data: Option<map<Model, Quota>>, m: Model): Option<Quota> {
    if data.Some? && m in data.value then Some(data.value[m]) else None
  }

  function Updated(data: Option<map<Model, Quota>>, m: Model, used: int, exhausted: bool): Option<map<Model, Quota>> {
    if data.Some? && m in data.value
    then Some(data.value[m := data.value[m].(used := used, exhausted := exhausted)]) else data
  }

  class QuotaTable {
    var rows: map<Model, Quota>

    constructor (rows: map<Model, Quota>)
      ensures this.rows == rows
    {
      this.rows := rows;
    }

    method AddUsage(m: Model, delta: int, exhausted: bool)
      modifies this
      ensures rows == Added(old(rows), m, delta, exhausted)
    {
      if m in rows {
        rows := rows[m := rows[m].(used := rows[m].used + delta, exhausted := exhausted)];
      }
    }
  }

  function Added(rows: map<Model, Quota>, m: Model, delta: int, exhausted: bool): map<Model, Quota> {
    if m in rows then rows[m := rows[m].(used := rows[m].used + delta, exhausted := exhausted)] else rows
  }

  /** One recording that nothing interrupts: both counters move by the same amount, and the mark is written
      exactly when the cached counter has reached the limit. */
  method Accumulate(cache: ConfigCache, table: QuotaTable, m: Model, tokens: nat)
    modifies cache, table
    ensures var q := Entry(old(cache.data), m);
            if q.None? || DeltaOf(q.value, tokens).None?
            then cache.data == old(cache.data) && table.rows == old(table.rows)
            else
              var delta := DeltaOf(q.value, tokens).value;
              var reached := q.value.used + delta >= q.value.limit.value;
              && cache.data == Updated(old(cache.data), m, q.value.used + delta, reached)
              && table.rows == Added(old(table.rows), m, delta, reached)
  {
    var q := cache.GetSmallModelQuota(m);
    if q.None? {
      return;
    }
    if q.value.limit.None? {
      return;
    }
    var delta: int;
    match q.value.unit {
      case Some(Token) =>
        if tokens == 0 {
          return;
        }
        delta := tokens;
      case Some(Call) => delta := 1;
      case None => return;
    }
    var newUsed := q.value.used + delta;
    var exhausted := newUsed >= q.value.limit.value;
    cache.UpdateSmallModelQuota(m, newUsed, exhausted);
    table.AddUsage(m, delta, exhausted);
  }

  // ---- many requests at once, for one model ----

  /** A recording reads the cached entry, writes it, then writes the database; a load reads the database, then
      fills the cache. */
  datatype Task =
    | Begun(tokens: nat)
    | Decided(delta: nat, newUsed: int, exhausted: bool)
    | CacheWritten(delta: nat, exhausted: bool)
    | Recorded(delta: nat)
    | Skipped
    | Loading
    | Loaded(snapshot: Quota)
    | Installed

  datatype World = World(row: Quota, cached: Option<Quota>, tasks: seq<Task>)

  datatype Action =
    | Record(tokens: nat)
    | Look(i: nat)
    | WriteCache(i: nat)
    | WriteRow(i: nat)
    | Load
    | ReadRow(i: nat)
    | Install(i: nat)
    | Invalidate

  function Step(w: World, a: Action): World {
    match a
    case Record(tokens) => w.(tasks := w.tasks + [Begun(tokens)])
    case Load => if w.cached.Some? then w else w.(tasks := w.tasks + [Loading])
    case Invalidate => w.(cached := None)
    case _ => if a.i < |w.tasks| then Turn(w, a, w.tasks[a.i]) else w
  }

  function Turn(w: World, a: Action, task: Task): World
    requires !a.Record? && !a.Load? && !a.Invalidate? && a.i < |w.tasks| && task == w.tasks[a.i]
  {
    match (a, task)
    case (Look(i), Begun(tokens)) =>
      if w.cached.None? || DeltaOf(w.cached.value, tokens).None? then w.(tasks := w.tasks[i := Skipped])
      else
        var delta := DeltaOf(w.cached.value, tokens).value;
        var newUsed := w.cached.value.used + delta;
        w.(tasks := w.tasks[i := Decided(delta, newUsed, Reaches(w.cached.value, newUsed))])
    case (WriteCache(i), Decided(delta, newUsed, exhausted)) =>
      var cached := if w.cached.Some? then Some(w.cached.value.(used := newUsed, exhausted := exhausted)) else None;
      w.(cached := cached, tasks := w.tasks[i := CacheWritten(delta, exhausted)])
    case (WriteRow(i), CacheWritten(delta, exhausted)) =>
      w.(row := w.row.(used := w.row.used + delta, exhausted := exhausted), tasks := w.tasks[i := Recorded(delta)])
    case (ReadRow(i), Loading) => w.(tasks := w.tasks[i := Loaded(w.row)])
    case (Install(i), Loaded(snapshot)) => w.(cached := Some(snapshot), tasks := w.tasks[i := Installed])
    case _ => w
  }

  /** A fresh process: nothing cached yet. */
  function Run(row: Quota, actions: seq<Action>): World {
    Fold(Step, World(row, None, []), actions)
  }

  function Written(): Task -> int { (t: Task) => if t.Recorded? then t.delta else 0 }

  function Unwritten(): Task -> int { (t: Task) => if t.CacheWritten? then t.delta else 0 }

  /** The stored counter plus what the cache has been told but the database not yet. */
  function Promised(w: World): int {
    w.row.used + Total(Unwritten(), w.tasks)
  }

  lemma TurnTotals(w: World, a: Action, share: Task -> int)
    requires !a.Record? && !a.Load? && !a.Invalidate? && a.i < |w.tasks|
    ensures var next := Step(w, a);
            && |next.tasks| == |w.tasks|
            && next.tasks == w.tasks[a.i := next.tasks[a.i]]
            && Total(share, next.tasks) == Total(share, w.tasks) - share(w.tasks[a.i]) + share(next.tasks[a.i])
  {
    assert w.tasks == w.tasks[a.i := w.tasks[a.i]];
    TotalUpdate(share, w.tasks, a.i, Step(w, a).tasks[a.i]);
  }

  /** Three steps that nothing interrupts do to one model's entry and row what `Accumulate` does. */
  lemma UninterruptedRecording(data: Option<map<Model, Quota>>, rows: map<Model, Quota>, m: Model, w: World, i: nat)
    requires m in rows && w.row == rows[m] && w.cached == Entry(data, m)
    requires i < |w.tasks| && w.tasks[i].Begun?
    ensures var done := Step(Step(Step(w, Look(i)), WriteCache(i)), WriteRow(i));
            var q, tokens := Entry(data, m), w.tasks[i].tokens;
            if q.None? || DeltaOf(q.value, tokens).None? then done == w.(tasks := w.tasks[i := Skipped])
            else
              var delta := DeltaOf(q.value, tokens).value;
              var reached := Reaches(q.value, q.value.used + delta);
              && done.cached == Entry(Updated(data, m, q.value.used + delta, reached), m)
              && done.row == Added(rows, m, delta, reached)[m]
              && done.tasks == w.tasks[i := Recorded(delta)]
  {
    var one := Step(w, Look(i));
    assert one.tasks == w.tasks[i := one.tasks[i]];
    var two := Step(one, WriteCache(i));
    assert two.tasks == w.tasks[i := two.tasks[i]];
    var three := Step(two, WriteRow(i));
    assert three.tasks == w.tasks[i := three.tasks[i]];
  }

  // ---- the stored counter ----

  ghost predicate StoredIsSum(start: Quota, w: World) {
    w.row == start.(used := start.used + Total(Written(), w.tasks), exhausted := w.row.exhausted)
  }

  lemma StepKeepsSum(start: Quota, w: World, a: Action)
    requires StoredIsSum(start, w)
    ensures StoredIsSum(start, Step(w, a))
  {
    if a.Record? || a.Load? {
      TotalSnoc(Written(), w.tasks, if a.Record? then Begun(a.tokens) else Loading);
    } else if !a.Invalidate? && a.i < |w.tasks| {
      TurnTotals(w, a, Written());
    }
    hide Total;
  }

  /** No difference written is ever lost: updates of the row do not overwrite each other. */
  lemma {:induction false} StoredCounter(start: Quota, actions: seq<Action>)
    ensures StoredIsSum(start, Run(start, actions))
  {
    if actions != [] {
      var n := |actions| - 1;
      StoredCounter(start, actions[..n]);
      StepKeepsSum(start, Run(start, actions[..n]), actions[n]);
    }
  }

  lemma PromisedGrows(w: World, a: Action)
    ensures Promised(Step(w, a)) >= Promised(w)
    ensures a.WriteCache? && a.i < |w.tasks| && w.tasks[a.i].Decided? ==>
              Promised(Step(w, a)) == Promised(w) + w.tasks[a.i].delta
    ensures !a.WriteCache? ==> Promised(Step(w, a)) == Promised(w)
  {
    if a.Record? || a.Load? {
      TotalSnoc(Unwritten(), w.tasks, if a.Record? then Begun(a.tokens) else Loading);
    } else if !a.Invalidate? && a.i < |w.tasks| {
      TurnTotals(w, a, Unwritten());
    }
  }

  // ---- how far behind a reader is ----

  /** What a reader of the counter has missed, in units, and what the writer of the mark it read along with it
      has missed; None for the mark the run began with. */
  datatype Missed = Missed(used: nat, mark: Option<nat>)

  const NOTHING_MISSED := Missed(0, None)

  /** For the cached entry, the stored mark, and each task: how much was promised that it does not know of. */
  datatype Lag = Lag(cached: Missed, rowMark: Option<nat>, tasks: seq<Missed>)

  function More(missed: Option<nat>, delta: nat): Option<nat> {
    if missed.Some? then Some(missed.value + delta) else None
  }

  function Later(m: Missed, delta: nat): Missed { Missed(m.used + delta, More(m.mark, delta)) }

  /** The mark of a writer who missed that much. */
  predicate MarkAt(start: Quota, promised: int, missed: Option<nat>) {
    if missed.Some? then Reaches(start, promised - missed.value) else start.exhausted
  }

  /** Whoever reads inherits what the source has missed, whoever writes passes on what it missed itself, and
      everybody else misses what is written to the cache meanwhile.  No counter is looked at. */
  function LagStep(l: Lag, w: World, a: Action): (m: Lag)
    requires |l.tasks| == |w.tasks|
    ensures |m.tasks| == |Step(w, a).tasks|
  {
    match a
    case Record(_) => l.(tasks := l.tasks + [NOTHING_MISSED])
    case Load => if w.cached.Some? then l else l.(tasks := l.tasks + [NOTHING_MISSED])
    case Invalidate => l.(cached := NOTHING_MISSED)
    case _ => if a.i < |w.tasks| then LagTurn(l, w, a, w.tasks[a.i]) else l
  }

  function LagTurn(l: Lag, w: World, a: Action, task: Task): (m: Lag)
    requires !a.Record? && !a.Load? && !a.Invalidate? && a.i < |w.tasks| == |l.tasks| && task == w.tasks[a.i]
    ensures |m.tasks| == |l.tasks|
  {
    match (a, task)
    case (Look(i), Begun(_)) => l.(tasks := l.tasks[i := l.cached])
    case (WriteCache(i), Decided(delta, _, _)) =>
      var mine := l.tasks[i];
      Lag(if w.cached.Some? then Missed(mine.used, Some(mine.used)) else l.cached, More(l.rowMark, delta),
          seq(|l.tasks|, j requires 0 <= j < |l.tasks| => if j == i then mine else Later(l.tasks[j], delta)))
    case (WriteRow(i), CacheWritten(_, _)) => l.(rowMark := Some(l.tasks[i].used))
    case (ReadRow(i), Loading) => l.(tasks := l.tasks[i := Missed(Outstanding(w), l.rowMark)])
    case (Install(i), Loaded(_)) => l.(cached := l.tasks[i])
    case _ => l
  }

  /** What the cache has been told but the database not yet. */
  function Outstanding(w: World): nat {
    TotalPositive(Unwritten(), w.tasks);
    Total(Unwritten(), w.tasks)
  }

  function LagOf(start: Quota, actions: seq<Action>): (l: Lag)
    ensures |l.tasks| == |Run(start, actions).tasks|
  {
    if actions == [] then Lag(NOTHING_MISSED, None, [])
    else
      var n := |actions| - 1;
      LagStep(LagOf(start, actions[..n]), Run(start, actions[..n]), actions[n])
  }

  /** What a task holds is what was promised, short of what it missed. */
  ghost predicate TaskLags(start: Quota, promised: int, t: Task, m: Missed) {
    match t
    case Decided(delta, newUsed, _) =>
      delta > 0 && t == Decided(delta, promised + delta - m.used, Reaches(start, newUsed))
    case CacheWritten(delta, _) => delta > 0 && t == CacheWritten(delta, Reaches(start, promised - m.used))
    case Loaded(snapshot) => snapshot == start.(used := promised - m.used, exhausted := MarkAt(start, promised, m.mark))
    case _ => true
  }

  ghost predicate Lags(start: Quota, w: World, l: Lag) {
    && |l.tasks| == |w.tasks|
    && w.row == start.(used := w.row.used, exhausted := MarkAt(start, Promised(w), l.rowMark))
    && (if w.cached.None? then l.cached == NOTHING_MISSED
        else w.cached == Some(start.(used := Promised(w) - l.cached.used,
                                     exhausted := MarkAt(start, Promised(w), l.cached.mark))))
    && forall j :: 0 <= j < |w.tasks| ==> TaskLags(start, Promised(w), w.tasks[j], l.tasks[j])
  }

  lemma TaskLagsLater(start: Quota, promised: int, t: Task, m: Missed, delta: nat)
    requires TaskLags(start, promised, t, m)
    ensures TaskLags(start, promised + delta, t, Later(m, delta))
  {
  }

  lemma TurnLags(start: Quota, w: World, l: Lag, a: Action)
    requires Lags(start, w, l) && !a.Record? && !a.Load? && !a.Invalidate? && a.i < |w.tasks|
    ensures var next, m := Step(w, a), LagStep(l, w, a);
            TaskLags(start, Promised(next), next.tasks[a.i], m.tasks[a.i])
  {
    PromisedGrows(w, a);
    TotalPositive(Unwritten(), w.tasks);
    assert TaskLags(start, Promised(w), w.tasks[a.i], l.tasks[a.i]);
    hide Total;
  }

  lemma StepLags(start: Quota, w: World, l: Lag, a: Action)
    requires Lags(start, w, l)
    ensures Lags(start, Step(w, a), LagStep(l, w, a))
  {
    var next, m := Step(w, a), LagStep(l, w, a);
    PromisedGrows(w, a);
    if !a.Record? && !a.Load? && !a.Invalidate? && a.i < |w.tasks| {
      TurnLags(start, w, l, a);
      assert TaskLags(start, Promised(w), w.tasks[a.i], l.tasks[a.i]);
    }
    hide Promised, Total;
    forall j | 0 <= j < |next.tasks| ensures TaskLags(start, Promised(next), next.tasks[j], m.tasks[j]) {
      if j < |w.tasks| && (a.Record? || a.Load? || a.Invalidate? || j != a.i) {
        assert next.tasks[j] == w.tasks[j];
        TaskLagsLater(start, Promised(w), w.tasks[j], l.tasks[j], Promised(next) - Promised(w));
      }
    }
  }

  lemma {:induction false} RunLags(start: Quota, actions: seq<Action>)
    ensures Lags(start, Run(start, actions), LagOf(start, actions))
  {
    if actions != [] {
      var n := |actions| - 1;
      RunLags(start, actions[..n]);
      StepLags(start, Run(start, actions[..n]), LagOf(start, actions[..n]), actions[n]);
    }
  }

  /** A task that is about to write the cache will not overshoot either. */
  ghost predicate TaskIsModest(start: Quota, promised: int, t: Task) {
    match t
    case Decided(delta, newUsed, exhausted) =>
      newUsed <= promised + delta && (exhausted ==> Reaches(start, newUsed))
    case CacheWritten(_, exhausted) => exhausted ==> Reaches(start, promised)
    case Loaded(snapshot) =>
      && snapshot.used <= promised && snapshot.limit == start.limit
      && (snapshot.exhausted ==> start.exhausted || Reaches(start, promised))
    case _ => true
  }

  ghost predicate Modest(start: Quota, w: World) {
    && w.row.limit == start.limit
    && (w.cached.Some? ==>
          && w.cached.value.used <= Promised(w) && w.cached.value.limit == start.limit
          && (w.cached.value.exhausted ==> start.exhausted || Reaches(start, Promised(w))))
    && (w.row.exhausted ==> start.exhausted || Reaches(start, Promised(w)))
    && forall t <- w.tasks :: TaskIsModest(start, Promised(w), t)
  }

  /** Whoever is short by what he missed is never ahead. */
  lemma LagsAreModest(start: Quota, w: World, l: Lag)
    requires Lags(start, w, l)
    ensures Modest(start, w)
  {
    forall t <- w.tasks ensures TaskIsModest(start, Promised(w), t) {
      var j :| 0 <= j < |w.tasks| && w.tasks[j] == t;
      assert TaskLags(start, Promised(w), w.tasks[j], l.tasks[j]);
    }
  }

  /** The cached counter never runs ahead of the stored one by more than what is still to be written, and no
      mark of exhaustion, cached or stored, is set before the limit is reached. */
  lemma CachedCounter(start: Quota, actions: seq<Action>)
    ensures Modest(start, Run(start, actions))
  {
    RunLags(start, actions);
    LagsAreModest(start, Run(start, actions), LagOf(start, actions));
  }

  /** The mark says whether the limit is reached. */
  predicate Right(q: Quota) { q.exhausted <==> q.limit.Some? && q.used >= q.limit.value }

  /** In every run, when no write is outstanding: the stored mark is right exactly when its last writer had not
      missed so much that the limit lies in between (or, if nobody wrote it, when the mark the run began with is
      still right); and the cached counter and mark are those of somebody who missed what the cache missed. */
  lemma MarkIsRightIff(start: Quota, actions: seq<Action>)
    requires Outstanding(Run(start, actions)) == 0
    ensures var w, l := Run(start, actions), LagOf(start, actions);
            && (Right(w.row) <==>
                  if l.rowMark.None? then (start.exhausted <==> Reaches(start, w.row.used))
                  else Reaches(start, w.row.used) ==> Reaches(start, w.row.used - l.rowMark.value))
            && (w.cached.Some? ==>
                  && w.cached.value.used == w.row.used - l.cached.used
                  && (w.cached.value.exhausted <==> MarkAt(start, w.row.used, l.cached.mark)))
  {
    hide *;
    RunLags(start, actions);
    LagsAtRest(start, Run(start, actions), LagOf(start, actions));
  }

  lemma LagsAtRest(start: Quota, w: World, l: Lag)
    requires Lags(start, w, l) && Outstanding(w) == 0
    ensures Right(w.row) <==>
              if l.rowMark.None? then (start.exhausted <==> Reaches(start, w.row.used))
              else Reaches(start, w.row.used) ==> Reaches(start, w.row.used - l.rowMark.value)
    ensures w.cached.Some? ==>
              && w.cached.value.used == w.row.used - l.cached.used
              && (w.cached.value.exhausted <==> MarkAt(start, w.row.used, l.cached.mark))
  {
    assert Promised(w) == w.row.used;
    hide Promised, Outstanding;
  }

  // ---- who is up to date, by the order of steps alone ----

  /** Whether the cached entry, and what each task has read, is up to date. */
  datatype Track = Track(good: bool, tasks: seq<bool>)

  function TrackStep(t: Track, w: World, a: Action): (u: Track)
    requires |t.tasks| == |w.tasks|
    ensures |u.tasks| == |Step(w, a).tasks|
  {
    match a
    case Record(_) => t.(tasks := t.tasks + [true])
    case Load => if w.cached.Some? then t else t.(tasks := t.tasks + [true])
    case Invalidate => t.(good := true)
    case _ => if a.i < |w.tasks| then TrackTurn(t, w, a, w.tasks[a.i]) else t
  }

  function TrackTurn(t: Track, w: World, a: Action, task: Task): (u: Track)
    requires !a.Record? && !a.Load? && !a.Invalidate? && a.i < |w.tasks| == |t.tasks| && task == w.tasks[a.i]
    ensures |u.tasks| == |t.tasks|
  {
    match (a, task)
    case (Look(i), Begun(_)) => t.(tasks := t.tasks[i := t.good])
    case (WriteCache(i), Decided(_, _, _)) =>
      Track(if w.cached.Some? then t.tasks[i] else t.good,
            seq(|t.tasks|, j requires 0 <= j < |t.tasks| => j == i && t.tasks[i]))
    case (ReadRow(i), Loading) => t.(tasks := t.tasks[i := forall other <- w.tasks :: !other.CacheWritten?])
    case (Install(i), Loaded(_)) => t.(good := t.tasks[i])
    case _ => t
  }

  function TrackOf(start: Quota, actions: seq<Action>): (t: Track)
    ensures |t.tasks| == |Run(start, actions).tasks|
  {
    if actions == [] then Track(true, [])
    else
      var n := |actions| - 1;
      TrackStep(TrackOf(start, actions[..n]), Run(start, actions[..n]), actions[n])
  }

  /** Up to date is: has missed nothing. */
  ghost predicate Tracks(t: Track, l: Lag) {
    && |t.tasks| == |l.tasks| && (t.good <==> l.cached.used == 0)
    && forall j :: 0 <= j < |t.tasks| ==> (t.tasks[j] <==> l.tasks[j].used == 0)
  }

  lemma NoneUnwritten(tasks: seq<Task>)
    requires forall j :: 0 <= j < |tasks| && tasks[j].CacheWritten? ==> tasks[j].delta > 0
    ensures Total(Unwritten(), tasks) == 0 <==> forall u <- tasks :: !u.CacheWritten?
  {
    TotalPositive(Unwritten(), tasks);
    if u :| u in tasks && u.CacheWritten? {
      assert Unwritten()(u) > 0;
    }
  }

  lemma StepTracks(start: Quota, w: World, l: Lag, t: Track, a: Action)
    requires Lags(start, w, l) && Tracks(t, l)
    ensures Tracks(TrackStep(t, w, a), LagStep(l, w, a))
  {
    forall j | 0 <= j < |w.tasks| && w.tasks[j].CacheWritten? ensures w.tasks[j].delta > 0 {
      assert TaskLags(start, Promised(w), w.tasks[j], l.tasks[j]);
    }
    NoneUnwritten(w.tasks);
    if !a.Record? && !a.Load? && !a.Invalidate? && a.i < |w.tasks| {
      assert TaskLags(start, Promised(w), w.tasks[a.i], l.tasks[a.i]);
    }
    hide Promised, Total, Lags;
  }

  lemma {:induction false} RunTracks(start: Quota, actions: seq<Action>)
    ensures Tracks(TrackOf(start, actions), LagOf(start, actions))
  {
    if actions != [] {
      var n := |actions| - 1;
      RunTracks(start, actions[..n]);
      RunLags(start, actions[..n]);
      StepTracks(start, Run(start, actions[..n]), LagOf(start, actions[..n]), TrackOf(start, actions[..n]), actions[n]);
    }
  }

  /** Nothing cached, or the cached counter is exactly what was promised. */
  predicate Exact(w: World) {
    w.cached.Some? ==> w.cached.value.used == Promised(w)
  }

  /** In every run the cached counter is exact if and only if the order of the steps left it up to date. */
  lemma ExactIff(start: Quota, actions: seq<Action>)
    ensures Exact(Run(start, actions)) <==> TrackOf(start, actions).good
  {
    RunLags(start, actions);
    RunTracks(start, actions);
  }

  // ---- one at a time ----

  /** Between its first read and its last write. */
  function UnderWay(): Task -> int {
    (t: Task) => if t.Decided? || t.CacheWritten? || t.Loaded? then 1 else 0
  }

  /** At no moment are two recordings, two loads, or a recording and a load under way. */
  ghost predicate OneAtATime(start: Quota, actions: seq<Action>) {
    forall n :: 0 <= n <= |actions| ==> Total(UnderWay(), Run(start, actions[..n]).tasks) <= 1
  }

  /** What the one task under way has to finish. */
  ghost predicate InStep(w: World, t: Task) {
    match t
    case Decided(delta, newUsed, _) =>
      t == Decided(delta, w.row.used + delta, Reaches(w.row, newUsed)) && (w.cached.Some? ==> w.cached.value == w.row)
    case CacheWritten(delta, exhausted) =>
      w.cached.Some? ==> w.cached.value == w.row.(used := w.row.used + delta, exhausted := exhausted)
    case Loaded(snapshot) => snapshot == w.row && (w.cached.Some? ==> w.cached.value == w.row)
    case _ => true
  }

  ghost predicate Synchronised(w: World) {
    && (Total(UnderWay(), w.tasks) == 0 && w.cached.Some? ==> w.cached.value == w.row)
    && forall t <- w.tasks :: InStep(w, t)
  }

  lemma NoneUnderWay(tasks: seq<Task>, t: Task)
    requires t in tasks && UnderWay()(t) == 1
    ensures Total(UnderWay(), tasks) > 0
  {
    TotalPositive(UnderWay(), tasks);
  }

  lemma {:induction false} OnlyOne(tasks: seq<Task>, i: nat, t: Task)
    requires Total(UnderWay(), tasks) <= 1
    requires i < |tasks| && UnderWay()(tasks[i]) == 1 && t in tasks && UnderWay()(t) == 1
    ensures t == tasks[i]
  {
    var n := |tasks| - 1;
    if i == n {
      if t in tasks[..n] {
        NoneUnderWay(tasks[..n], t);
      }
    } else {
      NoneUnderWay(tasks[..n], tasks[..n][i]);
      assert t in tasks[..n];
      OnlyOne(tasks[..n], i, t);
    }
  }

  /** The task whose turn it was, and the cache once nothing is under way. */
  lemma TurnInStep(w: World, a: Action)
    requires Synchronised(w) && Total(UnderWay(), w.tasks) <= 1 && Total(UnderWay(), Step(w, a).tasks) <= 1
    requires !a.Record? && !a.Load? && !a.Invalidate? && a.i < |w.tasks|
    ensures var next := Step(w, a);
            && a.i < |next.tasks| && InStep(next, next.tasks[a.i])
            && (Total(UnderWay(), next.tasks) == 0 && next.cached.Some? ==> next.cached.value == next.row)
  {
    TurnTotals(w, a, UnderWay());
    var mine := Step(w, a).tasks[a.i];
    if UnderWay()(mine) == 1 {
      NoneUnderWay(Step(w, a).tasks, mine);
    }
    hide Total;
    assert InStep(w, w.tasks[a.i]);
  }

  lemma IdleInStep(w: World, t: Task)
    requires UnderWay()(t) == 0
    ensures InStep(w, t)
  {
  }

  lemma TurnSynchronises(w: World, a: Action)
    requires Synchronised(w) && Total(UnderWay(), w.tasks) <= 1 && Total(UnderWay(), Step(w, a).tasks) <= 1
    requires !a.Record? && !a.Load? && !a.Invalidate? && a.i < |w.tasks|
    ensures Synchronised(Step(w, a))
  {
    var next := Step(w, a);
    TurnTotals(w, a, UnderWay());
    TurnInStep(w, a);
    var mine := next.tasks[a.i];
    var idle := UnderWay()(w.tasks[a.i]) == 0 && UnderWay()(mine) == 0;
    assert idle ==> next.row == w.row && next.cached == w.cached;
    hide Step, Total, InStep;
    forall t <- next.tasks ensures InStep(next, t) {
      if UnderWay()(t) == 0 {
        IdleInStep(next, t);
      } else {
        NoneUnderWay(next.tasks, t);
        if UnderWay()(mine) == 1 {
          OnlyOne(next.tasks, a.i, t);
        } else {
          assert idle && t in w.tasks;
          SameInStep(w, next, t);
        }
      }
    }
  }

  lemma SameInStep(w: World, next: World, t: Task)
    requires InStep(w, t) && next.row == w.row && next.cached == w.cached
    ensures InStep(next, t)
  {
  }

  lemma StepSynchronises(w: World, a: Action)
    requires Synchronised(w) && Total(UnderWay(), w.tasks) <= 1 && Total(UnderWay(), Step(w, a).tasks) <= 1
    ensures Synchronised(Step(w, a))
  {
    if a.Record? || a.Load? {
      TotalSnoc(UnderWay(), w.tasks, if a.Record? then Begun(a.tokens) else Loading);
      hide Total;
    } else if !a.Invalidate? && a.i < |w.tasks| {
      TurnSynchronises(w, a);
      hide *;
    } else {
      hide Total;
    }
  }

  /** When nothing overlaps, the cached entry, counter and mark, is the stored row whenever no task is under way. */
  lemma {:induction false} SynchronisedWhenAlone(start: Quota, actions: seq<Action>)
    requires OneAtATime(start, actions)
    ensures Synchronised(Run(start, actions))
  {
    if actions != [] {
      var n := |actions| - 1;
      forall m | 0 <= m <= n ensures Total(UnderWay(), Run(start, actions[..n][..m]).tasks) <= 1 {
        assert actions[..n][..m] == actions[..m];
      }
      SynchronisedWhenAlone(start, actions[..n]);
      assert actions[..n + 1] == actions;
      assert Total(UnderWay(), Run(start, actions[..n]).tasks) <= 1;
      StepSynchronises(Run(start, actions[..n]), actions[n]);
    }
  }

  // ---- two at a time ----

  const TEN := Quota(Some(10), Some(Token), 0, false)

  lemma Then(start: Quota, actions: seq<Action>, a: Action)
    ensures Run(start, actions + [a]) == Step(Run(start, actions), a)
  {
    FoldSnoc(Step, World(start, None, []), actions, a);
  }

  lemma CacheIsFilled()
    ensures Run(TEN, [Load, ReadRow(0), Install(0)]) == World(TEN, Some(TEN), [Installed])
  {
    Then(TEN, [], Load);
    Then(TEN, [Load], ReadRow(0));
    Then(TEN, [Load, ReadRow(0)], Install(0));
    assert [Load] == [] + [Load] && [Load, ReadRow(0)] == [Load] + [ReadRow(0)];
    assert [Load, ReadRow(0), Install(0)] == [Load, ReadRow(0)] + [Install(0)];
    assert Run(TEN, []) == World(TEN, None, []);
    assert Run(TEN, [Load]).tasks == [Loading];
    assert Run(TEN, [Load, ReadRow(0)]).tasks == [Loaded(TEN)];
  }

  lemma BothLook(before: seq<Action>)
    requires Run(TEN, before) == World(TEN, Some(TEN), [Installed])
    ensures Run(TEN, before + [Record(6)] + [Record(6)] + [Look(1)] + [Look(2)])
            == World(TEN, Some(TEN), [Installed, Decided(6, 6, false), Decided(6, 6, false)])
  {
    var one := before + [Record(6)];
    Then(TEN, before, Record(6));
    Then(TEN, one, Record(6));
    Then(TEN, one + [Record(6)], Look(1));
    Then(TEN, one + [Record(6)] + [Look(1)], Look(2));
    hide Run;
    assert Run(TEN, one).tasks == [Installed, Begun(6)];
    assert Run(TEN, one + [Record(6)]).tasks == [Installed, Begun(6), Begun(6)];
    assert Run(TEN, one + [Record(6)] + [Look(1)]).tasks == [Installed, Decided(6, 6, false), Begun(6)];
    assert Run(TEN, one + [Record(6)] + [Look(1)] + [Look(2)]).tasks
        == [Installed, Decided(6, 6, false), Decided(6, 6, false)];
  }

  lemma BothWrite(before: seq<Action>)
    requires Run(TEN, before) == World(TEN, Some(TEN), [Installed, Decided(6, 6, false), Decided(6, 6, false)])
    ensures Run(TEN, before + [WriteCache(1)] + [WriteRow(1)] + [WriteCache(2)] + [WriteRow(2)])
            == World(TEN.(used := 12), Some(TEN.(used := 6)), [Installed, Recorded(6), Recorded(6)])
  {
    var one := before + [WriteCache(1)];
    Then(TEN, before, WriteCache(1));
    Then(TEN, one, WriteRow(1));
    Then(TEN, one + [WriteRow(1)], WriteCache(2));
    Then(TEN, one + [WriteRow(1)] + [WriteCache(2)], WriteRow(2));
    hide Run;
    assert Run(TEN, one).tasks == [Installed, CacheWritten(6, false), Decided(6, 6, false)];
    assert Run(TEN, one + [WriteRow(1)]).tasks == [Installed, Recorded(6), Decided(6, 6, false)];
    assert Run(TEN, one + [WriteRow(1)] + [WriteCache(2)]).tasks == [Installed, Recorded(6), CacheWritten(6, false)];
    assert Run(TEN, one + [WriteRow(1)] + [WriteCache(2)] + [WriteRow(2)]).tasks
        == [Installed, Recorded(6), Recorded(6)];
  }

  /** Two overlapping recordings of 6 against a limit of 10: the database counts 12, the cache 6, and neither is
      marked exhausted. */
  lemma OverlapLosesTheMark() returns (actions: seq<Action>)
    ensures var w := Run(TEN, actions);
            w.row == TEN.(used := 12) && w.cached == Some(TEN.(used := 6)) && Total(UnderWay(), w.tasks) == 0
  {
    var filled := [Load, ReadRow(0), Install(0)];
    CacheIsFilled();
    BothLook(filled);
    var looked := filled + [Record(6)] + [Record(6)] + [Look(1)] + [Look(2)];
    BothWrite(looked);
    actions := looked + [WriteCache(1)] + [WriteRow(1)] + [WriteCache(2)] + [WriteRow(2)];
    hide Run;
    assert Run(TEN, actions).tasks == [Installed] + [Recorded(6)] + [Recorded(6)];
    TotalSnoc(UnderWay(), [], Installed);
    TotalSnoc(UnderWay(), [Installed], Recorded(6));
    TotalSnoc(UnderWay(), [Installed] + [Recorded(6)], Recorded(6));
    assert [] + [Installed] == [Installed];
  }
}
