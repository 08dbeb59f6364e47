/** Which bindings and keys a request may use, and in what order (`Router`). */
module Routing {
  import opened Folds
  import opened Sorting
  import opened Text
  import opened Wire

  /** `group` is a comma-separated list of user groups. */
  datatype Channel = Channel(id: int, group: string)

  datatype Key = Key(id: int, channelId: int, name: Option<string>, priority: int)

  /** One binding of the model: a channel with its keys, and what the channel calls the model. */
  datatype Candidate = Candidate(channel: Channel, keys: seq<Key>, upstream: string, priority: int, weight: int)

  datatype RoutedKey = RoutedKey(channel: Channel, key: Key, upstream: string, bindingPriority: int, weight: int)

  datatype Strategy = Priority | LoadBalance

  type Grid = seq<seq<RoutedKey>>

  const I32_MAX := 0x7FFF_FFFF

  // ---- filtering ----

  predicate InGroup(channelGroup: string, userGroup: string) {
    exists g <- SplitBy(channelGroup, ',') :: Trim(g) == Trim(userGroup)
  }

  function Routed(c: Candidate, key: Key): RoutedKey {
    RoutedKey(c.channel, key, c.upstream, c.priority, c.weight)
  }

  function Offered(c: Candidate, available: (int, string) -> bool): Key -> seq<RoutedKey> {
    (key: Key) => if available(key.id, c.upstream) then [Routed(c, key)] else []
  }

  function Bucket(c: Candidate, available: (int, string) -> bool): seq<RoutedKey> {
    Gather(Offered(c, available), c.keys)
  }

  predicate Admitted(c: Candidate, userGroup: string, quotaOk: (int, string) -> bool) {
    InGroup(c.channel.group, userGroup) && quotaOk(c.channel.id, c.upstream)
  }

  function Surviving(userGroup: string, available: (int, string) -> bool, quotaOk: (int, string) -> bool)
    : Candidate -> Grid
  {
    (c: Candidate) =>
      if Admitted(c, userGroup, quotaOk) && Bucket(c, available) != [] then [Bucket(c, available)] else []
  }

  // ---- ordering ----

  function KeyRank(): RoutedKey -> int { (rk: RoutedKey) => rk.key.priority }

  function BindingRank(): seq<RoutedKey> -> int {
    (bucket: seq<RoutedKey>) => if bucket == [] then I32_MAX else bucket[0].bindingPriority
  }

  function SortedBucket(): seq<RoutedKey> -> Grid { (bucket: seq<RoutedKey>) => [Sort(KeyRank(), bucket)] }

  /** Keys sorted within each binding, then bindings sorted. */
  function Prepared(groups: Grid): Grid {
    Sort(BindingRank(), Gather(SortedBucket(), groups))
  }

  lemma SortedOneMore(groups: Grid, i: nat)
    requires i < |groups|
    ensures Gather(SortedBucket(), groups[..i + 1])
            == Gather(SortedBucket(), groups[..i]) + [Sort(KeyRank(), groups[i])]
  {
    GatherSnoc(SortedBucket(), groups[..i], groups[i]);
    assert groups[..i + 1] == groups[..i] + [groups[i]];
  }

  method SortKeys(groups: Grid) returns (sorted: Grid)
    ensures sorted == Gather(SortedBucket(), groups)
  {
    sorted := groups;
    var i := 0;
    assert Gather(SortedBucket(), groups[..i]) == [];
    hide *;
    while i < |groups|
      invariant 0 <= i <= |groups| == |sorted|
      invariant sorted[..i] == Gather(SortedBucket(), groups[..i])
      invariant sorted[i..] == groups[i..]
    {
      SortedOneMore(groups, i);
      assert sorted[i] == sorted[i..][0];
      ghost var before := sorted;
      sorted := sorted[i := Sort(KeyRank(), sorted[i])];
      assert sorted[..i + 1] == before[..i] + [Sort(KeyRank(), groups[i])];
      assert sorted[i + 1..] == before[i..][1..];
      i := i + 1;
    }
    assert groups[..i] == groups && sorted[..i] == sorted;
  }

  method RoutePriority(groups: Grid) returns (routed: Grid)
    ensures routed == Prepared(groups)
  {
    routed := SortKeys(groups);
    routed := Sort(BindingRank(), routed);
  }

  // ---- the weighted draw ----

  function Weight(bucket: seq<RoutedKey>): nat {
    if bucket == [] || bucket[0].weight < 1 then 1 else bucket[0].weight
  }

  function TotalWeight(groups: Grid): nat {
    if groups == [] then 0 else TotalWeight(groups[..|groups| - 1]) + Weight(groups[|groups| - 1])
  }

  /** The group whose stretch of [0, total) the pick falls into. */
  function Chosen(groups: Grid, pick: nat): (i: nat)
    requires pick < TotalWeight(groups)
    ensures i < |groups|
  {
    var n := |groups| - 1;
    if pick >= TotalWeight(groups[..n]) then n else Chosen(groups[..n], pick)
  }

  lemma ChosenStep(groups: Grid, pick: nat)
    requires pick < TotalWeight(groups)
    ensures var n := |groups| - 1;
            if pick >= TotalWeight(groups[..n]) then Chosen(groups, pick) == n
            else Chosen(groups, pick) == Chosen(groups[..n], pick)
  {
  }

  lemma {:induction false} ChosenStretch(groups: Grid, pick: nat)
    requires pick < TotalWeight(groups)
    ensures var i := Chosen(groups, pick);
            TotalWeight(groups[..i]) <= pick < TotalWeight(groups[..i + 1])
  {
    ChosenStep(groups, pick);
    hide *;
    var n := |groups| - 1;
    var i := Chosen(groups, pick);
    if pick >= TotalWeight(groups[..n]) {
      assert groups[..n + 1] == groups;
    } else {
      ChosenStretch(groups[..n], pick);
      assert groups[..n][..i] == groups[..i];
      assert groups[..n][..i + 1] == groups[..i + 1];
    }
  }

  lemma {:induction false} TotalGrows(groups: Grid, i: nat, j: nat)
    requires i <= j <= |groups|
    ensures TotalWeight(groups[..i]) <= TotalWeight(groups[..j])
    ensures i < j ==> TotalWeight(groups[..i]) < TotalWeight(groups[..j])
    decreases j
  {
    if i < j {
      TotalGrows(groups, i, j - 1);
      assert groups[..j][..j - 1] == groups[..j - 1];
    }
  }

  lemma ChosenIff(groups: Grid, pick: nat, i: nat)
    requires pick < TotalWeight(groups) && i < |groups|
    ensures Chosen(groups, pick) == i <==> TotalWeight(groups[..i]) <= pick < TotalWeight(groups[..i + 1])
  {
    var c := Chosen(groups, pick);
    ChosenStretch(groups, pick);
    if c < i {
      TotalGrows(groups, c + 1, i);
    } else if i < c {
      TotalGrows(groups, i + 1, c);
    }
  }

  function Stretch(lo: nat, hi: nat): (picks: set<nat>)
    requires lo <= hi
    ensures forall p: nat :: p in picks <==> lo <= p < hi
    ensures |picks| == hi - lo
  {
    if lo == hi then {} else Stretch(lo, hi - 1) + {hi - 1}
  }

  /** The picks that choose group `i`. */
  function Winners(groups: Grid, i: nat): set<nat> {
    set p: nat | p < TotalWeight(groups) && Chosen(groups, p) == i
  }

  lemma WinnersAreAStretch(groups: Grid, i: nat)
    requires i < |groups|
    ensures TotalWeight(groups[..i + 1]) == TotalWeight(groups[..i]) + Weight(groups[i])
    ensures forall p: nat :: p in Winners(groups, i) <==> TotalWeight(groups[..i]) <= p < TotalWeight(groups[..i + 1])
  {
    assert groups[..i + 1][..i] == groups[..i];
    assert groups[..|groups|] == groups;
    TotalGrows(groups, i + 1, |groups|);
    hide TotalWeight;
    forall p: nat | p < TotalWeight(groups) {
      ChosenIff(groups, p, i);
    }
  }

  /** A group is chosen by exactly max(weight, 1) of the picks. */
  lemma DrawIsFair(groups: Grid, i: nat)
    requires i < |groups|
    ensures |Winners(groups, i)| == if groups[i] == [] || groups[i][0].weight < 1 then 1 else groups[i][0].weight
  {
    WinnersAreAStretch(groups, i);
    hide TotalWeight, Winners;
    assert Winners(groups, i) == Stretch(TotalWeight(groups[..i]), TotalWeight(groups[..i + 1]));
  }

  function Without(groups: Grid, i: nat): (rest: Grid)
    requires i < |groups|
    ensures |rest| == |groups| - 1
    ensures forall j :: 0 <= j < |rest| ==> rest[j] == groups[if j < i then j else j + 1]
  {
    groups[..i] + groups[i + 1..]
  }

  /** One pick for every draw, each below the weight that is left. */
  ghost predicate Fit(groups: Grid, picks: seq<nat>) {
    if groups == [] then picks == []
    else picks != [] && picks[0] < TotalWeight(groups) && Fit(Without(groups, Chosen(groups, picks[0])), picks[1..])
  }

  ghost function Drawn(groups: Grid, picks: seq<nat>): Grid
    requires Fit(groups, picks)
  {
    if groups == [] then []
    else
      var i := Chosen(groups, picks[0]);
      [groups[i]] + Drawn(Without(groups, i), picks[1..])
  }

  lemma DrawnStep(groups: Grid, picks: seq<nat>)
    requires Fit(groups, picks)
    ensures groups == [] ==> Drawn(groups, picks) == []
    ensures groups != [] ==>
              && picks != [] && picks[0] < TotalWeight(groups)
              && Fit(Without(groups, Chosen(groups, picks[0])), picks[1..])
              && Drawn(groups, picks)
                 == [groups[Chosen(groups, picks[0])]] + Drawn(Without(groups, Chosen(groups, picks[0])), picks[1..])
  {
  }

  /** One walk over the running totals; it never falls through to the last group unasked. */
  method DrawOne(groups: Grid, pick: nat) returns (chosen: nat)
    requires pick < TotalWeight(groups)
    ensures chosen == Chosen(groups, pick)
  {
    chosen := |groups| - 1;
    var acc, i := 0, 0;
    while i < |groups|
      invariant 0 <= i <= |groups|
      invariant acc == TotalWeight(groups[..i]) <= pick
      invariant i == |groups| ==> acc == TotalWeight(groups)
    {
      assert groups[..i + 1][..i] == groups[..i];
      assert groups[..|groups|] == groups;
      acc := acc + Weight(groups[i]);
      if pick < acc {
        ChosenIff(groups, pick, i);
        return i;
      }
      i := i + 1;
    }
    assert false;
  }

  /** Draws without replacement until nothing is left. */
  method DrawAll(groups: Grid, picks: seq<nat>) returns (routed: Grid)
    requires Fit(groups, picks)
    ensures routed == Drawn(groups, picks)
  {
    hide *;
    var pool, draw := groups, 0;
    routed := [];
    assert picks[0..] == picks;
    while pool != []
      invariant draw <= |picks| && Fit(pool, picks[draw..])
      invariant Drawn(groups, picks) == routed + Drawn(pool, picks[draw..])
      decreases |pool|
    {
      DrawnStep(pool, picks[draw..]);
      var chosen := DrawOne(pool, picks[draw]);
      assert picks[draw..][1..] == picks[draw + 1..];
      routed := routed + [pool[chosen]];
      pool := Without(pool, chosen);
      draw := draw + 1;
    }
    DrawnStep(pool, picks[draw..]);
  }

  method RouteLoadBalance(groups: Grid, picks: seq<nat>) returns (routed: Grid)
    requires Fit(Prepared(groups), picks)
    ensures routed == Drawn(Prepared(groups), picks)
  {
    var pool := SortKeys(groups);
    pool := Sort(BindingRank(), pool);
    routed := DrawAll(pool, picks);
  }

  ghost predicate PicksFit(strategy: Strategy, groups: Grid, picks: seq<nat>) {
    strategy.LoadBalance? ==> Fit(Prepared(groups), picks)
  }

  ghost function Routes(strategy: Strategy, groups: Grid, picks: seq<nat>): Grid
    requires PicksFit(strategy, groups, picks)
  {
    if strategy.Priority? then Prepared(groups) else Drawn(Prepared(groups), picks)
  }

  lemma RoutesBy(strategy: Strategy, groups: Grid, picks: seq<nat>)
    requires PicksFit(strategy, groups, picks)
    ensures strategy.Priority? ==> Routes(strategy, groups, picks) == Prepared(groups)
    ensures strategy.LoadBalance? ==>
              Fit(Prepared(groups), picks) && Routes(strategy, groups, picks) == Drawn(Prepared(groups), picks)
  {
  }

  function Survivors(channels: seq<Candidate>, userGroup: string, available: (int, string) -> bool,
                     quotaOk: (int, string) -> bool): Grid
  {
    Gather(Surviving(userGroup, available, quotaOk), channels)
  }

  method Expand(c: Candidate, available: (int, string) -> bool) returns (bucket: seq<RoutedKey>)
    ensures bucket == Bucket(c, available)
  {
    bucket := [];
    var i := 0;
    while i < |c.keys|
      invariant 0 <= i <= |c.keys|
      invariant bucket == Gather(Offered(c, available), c.keys[..i])
    {
      GatherSnoc(Offered(c, available), c.keys[..i], c.keys[i]);
      assert c.keys[..i + 1] == c.keys[..i] + [c.keys[i]];
      var key := c.keys[i];
      i := i + 1;
      if !available(key.id, c.upstream) {
        continue;
      }
      bucket := bucket + [RoutedKey(c.channel, key, c.upstream, c.priority, c.weight)];
    }
    assert c.keys[..i] == c.keys;
  }

  lemma SurvivingOne(c: Candidate, userGroup: string, available: (int, string) -> bool,
                     quotaOk: (int, string) -> bool)
    ensures Surviving(userGroup, available, quotaOk)(c) ==
              if InGroup(c.channel.group, userGroup) && quotaOk(c.channel.id, c.upstream) && Bucket(c, available) != []
              then [Bucket(c, available)] else []
  {
    hide InGroup, Bucket;
  }

  lemma OneMoreSurvivor(channels: seq<Candidate>, userGroup: string, available: (int, string) -> bool,
                        quotaOk: (int, string) -> bool, i: nat)
    requires i < |channels|
    ensures var c, before := channels[i], Survivors(channels[..i], userGroup, available, quotaOk);
            Survivors(channels[..i + 1], userGroup, available, quotaOk) ==
              if InGroup(c.channel.group, userGroup) && quotaOk(c.channel.id, c.upstream) && Bucket(c, available) != []
              then before + [Bucket(c, available)] else before
  {
    var before, c := Survivors(channels[..i], userGroup, available, quotaOk), channels[i];
    var part := Surviving(userGroup, available, quotaOk);
    SurvivingOne(c, userGroup, available, quotaOk);
    assert before == Gather(part, channels[..i]);
    assert Survivors(channels[..i + 1], userGroup, available, quotaOk) == Gather(part, channels[..i + 1]);
    hide *;
    GatherSnoc(part, channels[..i], c);
    assert channels[..i + 1] == channels[..i] + [c];
    assert before + [] == before;
  }

  method Route(channels: seq<Candidate>, userGroup: string, available: (int, string) -> bool, strategy: Strategy,
               quotaOk: (int, string) -> bool, picks: seq<nat>) returns (routed: Grid)
    requires PicksFit(strategy, Survivors(channels, userGroup, available, quotaOk), picks)
    ensures routed == Routes(strategy, Survivors(channels, userGroup, available, quotaOk), picks)
  {
    var groups: Grid := [];
    var i := 0;
    assert groups == Survivors(channels[..i], userGroup, available, quotaOk);
    hide *;
    while i < |channels|
      invariant 0 <= i <= |channels|
      invariant groups == Survivors(channels[..i], userGroup, available, quotaOk)
    {
      OneMoreSurvivor(channels, userGroup, available, quotaOk, i);
      var c := channels[i];
      i := i + 1;
      if !InGroup(c.channel.group, userGroup) {
        continue;
      }
      if !quotaOk(c.channel.id, c.upstream) {
        continue;
      }
      var bucket := Expand(c, available);
      if bucket == [] {
        continue;
      }
      groups := groups + [bucket];
    }
    assert channels[..i] == channels;
    RoutesBy(strategy, groups, picks);
    match strategy {
      case Priority => routed := RoutePriority(groups);
      case LoadBalance => routed := RouteLoadBalance(groups, picks);
    }
  }

  // ---- what is routed ----

  /** Listing group names with commas, with or without blanks, admits exactly the users of those groups. */
  lemma GroupList(names: seq<string>, userGroup: string)
    requires names != [] && forall n <- names :: ',' !in n
    ensures InGroup(JoinBy(names, ','), userGroup) <==> exists n <- names :: Trim(n) == Trim(userGroup)
  {
    SplitOfJoin(names, ',');
  }

  lemma TakeOut(groups: Grid, i: nat)
    requires i < |groups|
    ensures multiset(groups) == multiset([groups[i]]) + multiset(Without(groups, i))
  {
    assert groups == groups[..i] + [groups[i]] + groups[i + 1..];
  }

  /** Drawing loses no binding and repeats none. */
  lemma {:induction false} DrawnPermutes(groups: Grid, picks: seq<nat>)
    requires Fit(groups, picks)
    ensures multiset(Drawn(groups, picks)) == multiset(groups)
    decreases |groups|
  {
    if groups != [] {
      DrawnStep(groups, picks);
      hide *;
      var i := Chosen(groups, picks[0]);
      TakeOut(groups, i);
      DrawnPermutes(Without(groups, i), picks[1..]);
    }
  }

  lemma FirstPick(groups: Grid, i: nat) returns (pick: nat)
    requires i < |groups|
    ensures pick < TotalWeight(groups) && Chosen(groups, pick) == i
  {
    WinnersAreAStretch(groups, i);
    pick := TotalWeight(groups[..i]);
    assert pick in Winners(groups, i);
  }

  lemma DrawThen(groups: Grid, pick: nat, rest: seq<nat>)
    requires groups != [] && pick < TotalWeight(groups) && Fit(Without(groups, Chosen(groups, pick)), rest)
    ensures Fit(groups, [pick] + rest)
    ensures var i := Chosen(groups, pick);
            Drawn(groups, [pick] + rest) == [groups[i]] + Drawn(Without(groups, i), rest)
  {
    assert ([pick] + rest)[1..] == rest;
  }

  lemma RestPermutes(groups: Grid, order: Grid, i: nat)
    requires multiset(order) == multiset(groups) && order != [] && i < |groups| && groups[i] == order[0]
    ensures multiset(order[1..]) == multiset(Without(groups, i))
  {
    TakeOut(groups, i);
    assert order == [order[0]] + order[1..];
    assert multiset(order[1..]) == multiset(order) - multiset([order[0]]);
    assert multiset(Without(groups, i)) == multiset(groups) - multiset([groups[i]]);
  }

  /** Every order of the bindings is the outcome of some picks. */
  lemma {:induction false} EveryOrderIsPossible(groups: Grid, order: Grid) returns (picks: seq<nat>)
    requires multiset(order) == multiset(groups)
    ensures Fit(groups, picks) && Drawn(groups, picks) == order
    decreases |groups|
  {
    SameSize(groups, order);
    if groups == [] {
      picks := [];
    } else {
      hide *;
      assert order[0] in multiset(order);
      assert order[0] in groups;
      var i: nat :| i < |groups| && groups[i] == order[0];
      RestPermutes(groups, order, i);
      var rest := EveryOrderIsPossible(Without(groups, i), order[1..]);
      var pick := FirstPick(groups, i);
      DrawThen(groups, pick, rest);
      picks := [pick] + rest;
      assert order == [order[0]] + order[1..];
    }
  }

  lemma RoutesPermutes(strategy: Strategy, groups: Grid, picks: seq<nat>)
    requires PicksFit(strategy, groups, picks)
    ensures multiset(Routes(strategy, groups, picks)) == multiset(Gather(SortedBucket(), groups))
  {
    SortSorts(BindingRank(), Gather(SortedBucket(), groups));
    if strategy.LoadBalance? {
      DrawnPermutes(Prepared(groups), picks);
    }
  }

  /** What the binding `c` contributes: nothing, or its available keys. */
  predicate Contributes(c: Candidate, userGroup: string, available: (int, string) -> bool,
                        quotaOk: (int, string) -> bool, bucket: seq<RoutedKey>)
  {
    Admitted(c, userGroup, quotaOk) && Bucket(c, available) != [] && bucket == Bucket(c, available)
  }

  predicate Yields(c: Candidate, userGroup: string, available: (int, string) -> bool, quotaOk: (int, string) -> bool,
                   group: seq<RoutedKey>)
  {
    && Contributes(c, userGroup, available, quotaOk, Bucket(c, available))
    && group == Sort(KeyRank(), Bucket(c, available))
  }

  lemma RoutedGroup(strategy: Strategy, groups: Grid, picks: seq<nat>, group: seq<RoutedKey>)
    requires PicksFit(strategy, groups, picks)
    ensures group in Routes(strategy, groups, picks)
            <==> exists bucket :: bucket in groups && group == Sort(KeyRank(), bucket)
  {
    RoutesPermutes(strategy, groups, picks);
    assert group in Routes(strategy, groups, picks) <==> group in multiset(Gather(SortedBucket(), groups));
    GatherMember(SortedBucket(), groups, group);
    hide Routes, PicksFit, Gather, Sort;
    assert forall bucket :: group in SortedBucket()(bucket) <==> group == Sort(KeyRank(), bucket);
  }

  lemma SurvivorMember(channels: seq<Candidate>, userGroup: string, available: (int, string) -> bool,
                       quotaOk: (int, string) -> bool, bucket: seq<RoutedKey>)
    ensures bucket in Survivors(channels, userGroup, available, quotaOk)
            <==> exists c :: c in channels && Contributes(c, userGroup, available, quotaOk, bucket)
  {
    GatherMember(Surviving(userGroup, available, quotaOk), channels, bucket);
    hide Gather, Bucket, InGroup;
    assert forall c :: bucket in Surviving(userGroup, available, quotaOk)(c)
                       <==> Contributes(c, userGroup, available, quotaOk, bucket);
  }

  /** Each group routed is what one binding contributes, and every contribution is routed. */
  lemma GroupsAreBindings(channels: seq<Candidate>, userGroup: string, available: (int, string) -> bool,
                          strategy: Strategy, quotaOk: (int, string) -> bool, picks: seq<nat>, group: seq<RoutedKey>)
    requires PicksFit(strategy, Survivors(channels, userGroup, available, quotaOk), picks)
    ensures group in Routes(strategy, Survivors(channels, userGroup, available, quotaOk), picks)
            <==> exists c :: c in channels && Yields(c, userGroup, available, quotaOk, group)
  {
    var groups := Survivors(channels, userGroup, available, quotaOk);
    hide *;
    RoutedGroup(strategy, groups, picks, group);
    if bucket :| bucket in groups && group == Sort(KeyRank(), bucket) {
      SurvivorMember(channels, userGroup, available, quotaOk, bucket);
      var c :| c in channels && Contributes(c, userGroup, available, quotaOk, bucket);
      ContributionYields(c, userGroup, available, quotaOk, bucket, group);
    }
    if c :| c in channels && Yields(c, userGroup, available, quotaOk, group) {
      ContributionYields(c, userGroup, available, quotaOk, Bucket(c, available), group);
      SurvivorMember(channels, userGroup, available, quotaOk, Bucket(c, available));
    }
  }

  lemma ContributionYields(c: Candidate, userGroup: string, available: (int, string) -> bool,
                           quotaOk: (int, string) -> bool, bucket: seq<RoutedKey>, group: seq<RoutedKey>)
    ensures Contributes(c, userGroup, available, quotaOk, bucket) ==> bucket == Bucket(c, available)
    ensures Yields(c, userGroup, available, quotaOk, group)
            <==> Contributes(c, userGroup, available, quotaOk, Bucket(c, available))
                 && group == Sort(KeyRank(), Bucket(c, available))
  {
  }

  lemma YieldedKey(c: Candidate, userGroup: string, available: (int, string) -> bool, quotaOk: (int, string) -> bool,
                   rk: RoutedKey)
    ensures (exists group :: Yields(c, userGroup, available, quotaOk, group) && rk in group)
            <==> Admitted(c, userGroup, quotaOk)
                 && exists key :: key in c.keys && available(key.id, c.upstream) && rk == Routed(c, key)
  {
    var bucket := Bucket(c, available);
    GatherMember(Offered(c, available), c.keys, rk);
    SortSorts(KeyRank(), bucket);
    assert rk in Sort(KeyRank(), bucket) <==> rk in multiset(bucket);
    hide Gather, Sort, InGroup;
    if Admitted(c, userGroup, quotaOk) && rk in bucket {
      assert Yields(c, userGroup, available, quotaOk, Sort(KeyRank(), bucket));
    }
  }

  lemma RoutedIs(c: Candidate, key: Key)
    ensures Routed(c, key) == RoutedKey(channel := c.channel, key := key, upstream := c.upstream,
                                        bindingPriority := c.priority, weight := c.weight)
  {
  }

  /** A key is routed exactly when its binding admits the user, has quota left, and the key is available on it; and it
      carries the channel, the upstream name, the priority and the weight of that binding. */
  lemma KeysRouted(channels: seq<Candidate>, userGroup: string, available: (int, string) -> bool,
                   strategy: Strategy, quotaOk: (int, string) -> bool, picks: seq<nat>, rk: RoutedKey)
    requires PicksFit(strategy, Survivors(channels, userGroup, available, quotaOk), picks)
    ensures (exists group :: group in Routes(strategy, Survivors(channels, userGroup, available, quotaOk), picks)
                             && rk in group)
            <==> exists c, key :: c in channels && Admitted(c, userGroup, quotaOk) && key in c.keys
                                  && available(key.id, c.upstream)
                                  && rk == RoutedKey(channel := c.channel, key := key, upstream := c.upstream,
                                                     bindingPriority := c.priority, weight := c.weight)
  {
    var routed := Routes(strategy, Survivors(channels, userGroup, available, quotaOk), picks);
    hide *;
    if group :| group in routed && rk in group {
      GroupsAreBindings(channels, userGroup, available, strategy, quotaOk, picks, group);
      var c :| c in channels && Yields(c, userGroup, available, quotaOk, group);
      YieldedKey(c, userGroup, available, quotaOk, rk);
      var key :| key in c.keys && available(key.id, c.upstream) && rk == Routed(c, key);
      RoutedIs(c, key);
    }
    if c, key :| c in channels && Admitted(c, userGroup, quotaOk) && key in c.keys
                 && available(key.id, c.upstream)
                 && rk == RoutedKey(channel := c.channel, key := key, upstream := c.upstream,
                                    bindingPriority := c.priority, weight := c.weight) {
      RoutedIs(c, key);
      YieldedKey(c, userGroup, available, quotaOk, rk);
      var group :| Yields(c, userGroup, available, quotaOk, group) && rk in group;
      GroupsAreBindings(channels, userGroup, available, strategy, quotaOk, picks, group);
    }
  }

  /** No group routed is empty, and each is in key order. */
  lemma GroupsAreReady(channels: seq<Candidate>, userGroup: string, available: (int, string) -> bool,
                       strategy: Strategy, quotaOk: (int, string) -> bool, picks: seq<nat>)
    requires PicksFit(strategy, Survivors(channels, userGroup, available, quotaOk), picks)
    ensures forall group <- Routes(strategy, Survivors(channels, userGroup, available, quotaOk), picks) ::
              group != [] && Ascending(KeyRank(), group)
    ensures strategy.Priority? ==>
              Ascending(BindingRank(), Routes(strategy, Survivors(channels, userGroup, available, quotaOk), picks))
  {
    var groups := Survivors(channels, userGroup, available, quotaOk);
    if strategy.Priority? {
      SortSorts(BindingRank(), Gather(SortedBucket(), groups));
    }
    forall group <- Routes(strategy, groups, picks)
      ensures group != [] && Ascending(KeyRank(), group)
    {
      GroupsAreBindings(channels, userGroup, available, strategy, quotaOk, picks, group);
      var c :| c in channels && Yields(c, userGroup, available, quotaOk, group);
      YieldIsReady(c, userGroup, available, quotaOk, group);
    }
  }

  lemma YieldIsReady(c: Candidate, userGroup: string, available: (int, string) -> bool, quotaOk: (int, string) -> bool,
                     group: seq<RoutedKey>)
    requires Yields(c, userGroup, available, quotaOk, group)
    ensures group != [] && Ascending(KeyRank(), group)
  {
    SortSorts(KeyRank(), Bucket(c, available));
    SameSize(Bucket(c, available), group);
  }
}
