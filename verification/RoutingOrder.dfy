/** What is routed, in terms of the candidates alone: which keys, in which groups, in which order. */
module RoutingOrder {
  import opened Folds
  import opened Sorting
  import opened Routing

  // ---- the reference ----

  /** The keys of a binding that may be used on it, in their order. */
  function Usable(c: Candidate, keys: seq<Key>, available: (int, string) -> bool): seq<Key> {
    if keys == [] then []
    else (if available(keys[0].id, c.upstream) then [keys[0]] else []) + Usable(c, keys[1..], available)
  }

  function ByPriority(): Key -> int { (key: Key) => key.priority }

  /** Each key with the fields of its own binding. */
  function Labelled(c: Candidate, keys: seq<Key>): seq<RoutedKey> {
    seq(|keys|, i requires 0 <= i < |keys| =>
      RoutedKey(channel := c.channel, key := keys[i], upstream := c.upstream, bindingPriority := c.priority,
                weight := c.weight))
  }

  /** What a binding contributes: its usable keys by priority, or nothing when there are none, the user is not in one of
      its groups, or its quota is used up. */
  function GroupOf(c: Candidate, userGroup: string, available: (int, string) -> bool, quotaOk: (int, string) -> bool)
    : Grid
  {
    var keys := Usable(c, c.keys, available);
    if InGroup(c.channel.group, userGroup) && quotaOk(c.channel.id, c.upstream) && keys != []
    then [Labelled(c, Sort(ByPriority(), keys))] else []
  }

  function GroupsOf(channels: seq<Candidate>, userGroup: string, available: (int, string) -> bool,
                    quotaOk: (int, string) -> bool): Grid
  {
    if channels == [] then []
    else
      GroupOf(channels[0], userGroup, available, quotaOk) + GroupsOf(channels[1..], userGroup, available, quotaOk)
  }

  /** A group's place: the priority of its binding. */
  function ByBinding(): seq<RoutedKey> -> int {
    (group: seq<RoutedKey>) => if group == [] then 0x7FFF_FFFF else group[0].bindingPriority
  }

  // ---- the code meets it ----

  lemma {:induction false} OfferedAreUsable(c: Candidate, keys: seq<Key>, available: (int, string) -> bool)
    ensures Gather(Offered(c, available), keys) == Labelled(c, Usable(c, keys, available))
  {
    if keys != [] {
      GatherFirst(Offered(c, available), keys);
      OfferedAreUsable(c, keys[1..], available);
    }
  }

  lemma {:induction false} InsertLabelled(c: Candidate, key: Key, keys: seq<Key>)
    ensures Insert(KeyRank(), Labelled(c, [key])[0], Labelled(c, keys)) == Labelled(c, Insert(ByPriority(), key, keys))
  {
    if keys != [] {
      InsertLabelled(c, key, keys[1..]);
      assert Labelled(c, keys)[1..] == Labelled(c, keys[1..]);
    }
  }

  lemma {:induction false} SortLabelled(c: Candidate, keys: seq<Key>)
    ensures Sort(KeyRank(), Labelled(c, keys)) == Labelled(c, Sort(ByPriority(), keys))
  {
    if keys != [] {
      SortLabelled(c, keys[1..]);
      InsertLabelled(c, keys[0], Sort(ByPriority(), keys[1..]));
      assert Labelled(c, keys)[1..] == Labelled(c, keys[1..]);
    }
  }

  lemma SurvivorIsGroup(c: Candidate, userGroup: string, available: (int, string) -> bool,
                        quotaOk: (int, string) -> bool)
    ensures Gather(SortedBucket(), Surviving(userGroup, available, quotaOk)(c))
         == GroupOf(c, userGroup, available, quotaOk)
  {
    var keys := Usable(c, c.keys, available);
    OfferedAreUsable(c, c.keys, available);
    SortLabelled(c, keys);
    SurvivingOne(c, userGroup, available, quotaOk);
    GatherSnoc(SortedBucket(), [], Bucket(c, available));
    assert [] + [Bucket(c, available)] == [Bucket(c, available)];
    assert |Labelled(c, keys)| == |keys|;
    hide Sort, InGroup, Surviving, Usable;
  }

  lemma {:induction false} SurvivorsAreGroups(channels: seq<Candidate>, userGroup: string,
                                              available: (int, string) -> bool, quotaOk: (int, string) -> bool)
    ensures Gather(SortedBucket(), Survivors(channels, userGroup, available, quotaOk))
         == GroupsOf(channels, userGroup, available, quotaOk)
  {
    if channels != [] {
      var part := Surviving(userGroup, available, quotaOk);
      GatherFirst(part, channels);
      SurvivorsAreGroups(channels[1..], userGroup, available, quotaOk);
      SurvivorIsGroup(channels[0], userGroup, available, quotaOk);
      GatherAppend(SortedBucket(), part(channels[0]), Gather(part, channels[1..]));
      hide GroupOf, Surviving;
    }
  }

  lemma SameRanks(groups: Grid)
    ensures Sort(BindingRank(), groups) == Sort(ByBinding(), groups)
  {
    SortSorts(ByBinding(), groups);
    assert forall g :: BindingRank()(g) == ByBinding()(g);
    hide Sort;
    forall v
      ensures Sorting.Ranked(BindingRank(), v, groups)
           == Sorting.Ranked(BindingRank(), v, Sort(ByBinding(), groups))
    {
      RankedAlike(v, groups);
      RankedAlike(v, Sort(ByBinding(), groups));
    }
    SortIsTheSort(BindingRank(), groups, Sort(ByBinding(), groups));
  }

  lemma {:induction false} RankedAlike(v: int, groups: Grid)
    ensures Sorting.Ranked(BindingRank(), v, groups) == Sorting.Ranked(ByBinding(), v, groups)
  {
    if groups != [] {
      RankedAlike(v, groups[1..]);
    }
  }

  /** Under Priority the groups routed are those of the candidates, sorted stably by binding priority; under LoadBalance
      they are drawn from the same list. */
  lemma RoutesAreGroups(channels: seq<Candidate>, userGroup: string, available: (int, string) -> bool,
                        strategy: Strategy, quotaOk: (int, string) -> bool, picks: seq<nat>)
    requires PicksFit(strategy, Survivors(channels, userGroup, available, quotaOk), picks)
    ensures var groups := Sort(ByBinding(), GroupsOf(channels, userGroup, available, quotaOk));
            var routed := Routes(strategy, Survivors(channels, userGroup, available, quotaOk), picks);
            match strategy
            case Priority => routed == groups
            case LoadBalance => Fit(groups, picks) && routed == Drawn(groups, picks)
  {
    SurvivorsAreGroups(channels, userGroup, available, quotaOk);
    SameRanks(GroupsOf(channels, userGroup, available, quotaOk));
    hide Sort, Survivors, Fit, Drawn, GroupsOf;
  }

  // ---- what follows for single keys and groups ----

  /** The group is what this candidate contributes. */
  ghost predicate Serves(c: Candidate, userGroup: string, available: (int, string) -> bool,
                         quotaOk: (int, string) -> bool, group: seq<RoutedKey>)
  {
    && InGroup(c.channel.group, userGroup) && quotaOk(c.channel.id, c.upstream) && group != []
    && (forall rk <- group ::
          && rk.channel == c.channel && rk.upstream == c.upstream
          && rk.bindingPriority == c.priority && rk.weight == c.weight)
    && (forall key :: (exists rk <- group :: rk.key == key) <==> key in c.keys && available(key.id, c.upstream))
    && (forall i, j :: 0 <= i < j < |group| ==> group[i].key.priority <= group[j].key.priority)
  }

  lemma {:induction false} UsableMember(c: Candidate, keys: seq<Key>, available: (int, string) -> bool, key: Key)
    ensures key in Usable(c, keys, available) <==> key in keys && available(key.id, c.upstream)
  {
    if keys != [] {
      UsableMember(c, keys[1..], available, key);
      assert keys == [keys[0]] + keys[1..];
    }
  }

  lemma SortedKeys(c: Candidate, available: (int, string) -> bool)
    ensures var sorted := Sort(ByPriority(), Usable(c, c.keys, available));
            && |sorted| == |Usable(c, c.keys, available)|
            && (forall key :: key in sorted <==> key in c.keys && available(key.id, c.upstream))
            && (forall i, j :: 0 <= i < j < |sorted| ==> sorted[i].priority <= sorted[j].priority)
  {
    var keys := Usable(c, c.keys, available);
    var sorted := Sort(ByPriority(), keys);
    SortSorts(ByPriority(), keys);
    Sorting.SameSize(sorted, keys);
    hide Sort, Usable;
    forall key ensures key in sorted <==> key in c.keys && available(key.id, c.upstream) {
      UsableMember(c, c.keys, available, key);
      SortMember(ByPriority(), keys, key);
    }
    forall i, j | 0 <= i < j < |sorted| ensures sorted[i].priority <= sorted[j].priority {
      assert ByPriority()(sorted[i]) <= ByPriority()(sorted[j]);
    }
  }

  lemma GroupServes(c: Candidate, userGroup: string, available: (int, string) -> bool, quotaOk: (int, string) -> bool,
                    group: seq<RoutedKey>)
    requires group in GroupOf(c, userGroup, available, quotaOk)
    ensures Serves(c, userGroup, available, quotaOk, group)
  {
    var sorted := Sort(ByPriority(), Usable(c, c.keys, available));
    SortedKeys(c, available);
    assert group == Labelled(c, sorted) && |group| == |sorted|;
    hide Sort, Usable, InGroup;
    assert forall i :: 0 <= i < |group| ==> group[i].key == sorted[i];
    forall key ensures (exists rk <- group :: rk.key == key) <==> key in sorted {
      if key in sorted {
        var i :| 0 <= i < |sorted| && sorted[i] == key;
        assert group[i] in group;
      }
    }
  }

  lemma {:induction false} GroupHasCandidate(channels: seq<Candidate>, userGroup: string,
                                             available: (int, string) -> bool, quotaOk: (int, string) -> bool,
                                             group: seq<RoutedKey>)
    returns (c: Candidate)
    requires group in GroupsOf(channels, userGroup, available, quotaOk)
    ensures c in channels && Serves(c, userGroup, available, quotaOk, group)
  {
    if group in GroupOf(channels[0], userGroup, available, quotaOk) {
      c := channels[0];
      GroupServes(c, userGroup, available, quotaOk, group);
    } else {
      c := GroupHasCandidate(channels[1..], userGroup, available, quotaOk, group);
    }
  }

  lemma {:induction false} CandidatesBehind(channels: seq<Candidate>, userGroup: string,
                                            available: (int, string) -> bool, quotaOk: (int, string) -> bool,
                                            routed: Grid)
    returns (behind: seq<Candidate>)
    requires forall group <- routed :: group in GroupsOf(channels, userGroup, available, quotaOk)
    ensures |behind| == |routed|
    ensures forall i :: 0 <= i < |routed| ==>
              behind[i] in channels && Serves(behind[i], userGroup, available, quotaOk, routed[i])
  {
    hide *;
    if routed == [] {
      behind := [];
    } else {
      var n := |routed| - 1;
      behind := CandidatesBehind(channels, userGroup, available, quotaOk, routed[..n]);
      var c := GroupHasCandidate(channels, userGroup, available, quotaOk, routed[n]);
      behind := behind + [c];
    }
  }

  lemma RoutedFrom(channels: seq<Candidate>, userGroup: string, available: (int, string) -> bool,
                   strategy: Strategy, quotaOk: (int, string) -> bool, picks: seq<nat>)
    requires PicksFit(strategy, Survivors(channels, userGroup, available, quotaOk), picks)
    ensures var routed := Routes(strategy, Survivors(channels, userGroup, available, quotaOk), picks);
            && (forall group <- routed :: group in GroupsOf(channels, userGroup, available, quotaOk))
            && (strategy.Priority? ==> Ascending(ByBinding(), routed))
  {
    var routed := Routes(strategy, Survivors(channels, userGroup, available, quotaOk), picks);
    var groups := GroupsOf(channels, userGroup, available, quotaOk);
    RoutesAreGroups(channels, userGroup, available, strategy, quotaOk, picks);
    SortSorts(ByBinding(), groups);
    if strategy.LoadBalance? {
      DrawnPermutes(Sort(ByBinding(), groups), picks);
    }
    assert multiset(routed) == multiset(groups);
    hide *;
    forall group <- routed ensures group in groups {
      assert group in multiset(routed);
    }
  }

  /** Every group routed is what one candidate contributes, field by field: its channel, its name for the model, its
      priority and its weight on each of its available keys, in key order; and under Priority the candidates' own
      priorities ascend from group to group. */
  lemma RoutedFields(channels: seq<Candidate>, userGroup: string, available: (int, string) -> bool,
                     strategy: Strategy, quotaOk: (int, string) -> bool, picks: seq<nat>)
    returns (behind: seq<Candidate>)
    requires PicksFit(strategy, Survivors(channels, userGroup, available, quotaOk), picks)
    ensures var routed := Routes(strategy, Survivors(channels, userGroup, available, quotaOk), picks);
            && |behind| == |routed|
            && (forall i :: 0 <= i < |routed| ==>
                  behind[i] in channels && Serves(behind[i], userGroup, available, quotaOk, routed[i]))
            && (strategy.Priority? ==>
                  forall i, j :: 0 <= i < j < |behind| ==> behind[i].priority <= behind[j].priority)
  {
    hide *;
    var routed := Routes(strategy, Survivors(channels, userGroup, available, quotaOk), picks);
    RoutedFrom(channels, userGroup, available, strategy, quotaOk, picks);
    behind := CandidatesBehind(channels, userGroup, available, quotaOk, routed);
    if strategy.Priority? {
      forall i, j | 0 <= i < j < |behind| ensures behind[i].priority <= behind[j].priority {
        PriorityOf(behind[i], userGroup, available, quotaOk, routed[i]);
        PriorityOf(behind[j], userGroup, available, quotaOk, routed[j]);
        AscendsAt(routed, i, j);
      }
    }
  }

  lemma PriorityOf(c: Candidate, userGroup: string, available: (int, string) -> bool, quotaOk: (int, string) -> bool,
                   group: seq<RoutedKey>)
    requires Serves(c, userGroup, available, quotaOk, group)
    ensures ByBinding()(group) == c.priority && group != [] && group[0].weight == c.weight
  {
    assert group[0] in group;
  }

  lemma AscendsAt(routed: Grid, i: nat, j: nat)
    requires Ascending(ByBinding(), routed) && i < j < |routed|
    ensures ByBinding()(routed[i]) <= ByBinding()(routed[j])
  {
  }

  /** Every candidate that admits the user, has quota left and an available key is behind a group. */
  lemma {:induction false} CandidateHasGroup(channels: seq<Candidate>, userGroup: string,
                                             available: (int, string) -> bool, quotaOk: (int, string) -> bool,
                                             c: Candidate, key: Key)
    returns (group: seq<RoutedKey>)
    requires c in channels && InGroup(c.channel.group, userGroup) && quotaOk(c.channel.id, c.upstream)
    requires key in c.keys && available(key.id, c.upstream)
    ensures group in GroupsOf(channels, userGroup, available, quotaOk)
    ensures Serves(c, userGroup, available, quotaOk, group)
  {
    if c == channels[0] {
      UsableMember(c, c.keys, available, key);
      group := GroupOf(c, userGroup, available, quotaOk)[0];
      GroupServes(c, userGroup, available, quotaOk, group);
    } else {
      assert channels == [channels[0]] + channels[1..];
      group := CandidateHasGroup(channels[1..], userGroup, available, quotaOk, c, key);
    }
  }

  /** Under LoadBalance a candidate's group is drawn first by exactly as many picks as the candidate's weight, or by one
      if that is less. */
  lemma CandidateDraw(channels: seq<Candidate>, userGroup: string, available: (int, string) -> bool,
                      quotaOk: (int, string) -> bool, c: Candidate, i: nat)
    requires var groups := Sort(ByBinding(), GroupsOf(channels, userGroup, available, quotaOk));
             i < |groups| && Serves(c, userGroup, available, quotaOk, groups[i])
    ensures var groups := Sort(ByBinding(), GroupsOf(channels, userGroup, available, quotaOk));
            |Winners(groups, i)| == if c.weight < 1 then 1 else c.weight
  {
    var groups := Sort(ByBinding(), GroupsOf(channels, userGroup, available, quotaOk));
    hide *;
    DrawIsFair(groups, i);
    PriorityOf(c, userGroup, available, quotaOk, groups[i]);
  }
}
