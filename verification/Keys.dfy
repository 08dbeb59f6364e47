/** Drag-and-drop order: how the keys of a channel are stored, listed and reordered (`KeyRepo`). */
module Keys {
  import opened Folds
  import opened Routing
  import opened Sorting
  import opened Wire

  /** `id` is the primary key of the table. */
  ghost predicate UniqueIds(rows: seq<Key>) {
    forall i, j :: 0 <= i < j < |rows| ==> rows[i].id != rows[j].id
  }

  function PriorityRank(): Key -> int { (key: Key) => key.priority }

  function IdRank(): Key -> int { (key: Key) => key.id }

  function OfChannel(channel: int): Key -> seq<Key> {
    (key: Key) => if key.channelId == channel then [key] else []
  }

  function IdOf(): Key -> seq<int> { (key: Key) => [key.id] }

  function Ids(keys: seq<Key>): seq<int> { Gather(IdOf(), keys) }

  function Rows(rows: seq<Key>, channel: int): seq<Key> { Gather(OfChannel(channel), rows) }

  /** ORDER BY key_priority, id. */
  function KeysFor(rows: seq<Key>, channel: int): seq<Key> {
    Sort(PriorityRank(), Sort(IdRank(), Rows(rows, channel)))
  }

  /** UPDATE of one row's priority. */
  function Reprioritised(rows: seq<Key>, id: int, priority: int): seq<Key> {
    seq(|rows|, i requires 0 <= i < |rows| => if rows[i].id == id then rows[i].(priority := priority) else rows[i])
  }

  function Reordered(rows: seq<Key>, ordered: seq<int>): seq<Key> {
    if ordered == [] then rows
    else
      var n := |ordered| - 1;
      Reprioritised(Reordered(rows, ordered[..n]), ordered[n], (n + 1) * 10)
  }

  datatype Outcome = Accepted | CountMismatch | Duplicate(id: int) | Foreign(id: int)

  class KeyRepo {
    var rows: seq<Key>

    constructor (rows: seq<Key>)
      ensures this.rows == rows
    {
      this.rows := rows;
    }

    method GetKeysForChannel(channel: int) returns (keys: seq<Key>)
      ensures keys == KeysFor(rows, channel)
    {
      keys := [];
      var i := 0;
      while i < |rows|
        invariant 0 <= i <= |rows|
        invariant keys == Rows(rows[..i], channel)
      {
        GatherSnoc(OfChannel(channel), rows[..i], rows[i]);
        assert rows[..i + 1] == rows[..i] + [rows[i]];
        if rows[i].channelId == channel {
          keys := keys + [rows[i]];
        }
        i := i + 1;
      }
      assert rows[..i] == rows;
      keys := Sort(IdRank(), keys);
      keys := Sort(PriorityRank(), keys);
    }

    /** Accepts exactly the permutations of the channel's keys, and then gives the i-th key priority (i + 1) * 10;
        otherwise nothing is written. */
    method ReorderKeys(channel: int, ordered: seq<int>) returns (r: Outcome)
      requires UniqueIds(rows)
      modifies this
      ensures r.Accepted? <==> multiset(ordered) == multiset(Ids(Rows(old(rows), channel)))
      ensures r.CountMismatch? <==> |ordered| != |Ids(Rows(old(rows), channel))|
      ensures r.Duplicate? <==> |ordered| == |Ids(Rows(old(rows), channel))| && !Distinct(ordered)
      ensures r.Duplicate? ==> multiset(ordered)[r.id] > 1
      ensures r.Foreign? ==> r.id in ordered && r.id !in Ids(Rows(old(rows), channel))
      ensures rows == if r.Accepted? then Reordered(old(rows), ordered) else old(rows)
      ensures UniqueIds(rows)
    {
      var existing := ListIds(channel);
      DistinctIds(rows, channel);
      PermutationIff(ordered, existing);
      if |ordered| != |existing| {
        return CountMismatch;
      }
      var repeated := FindRepeated(ordered);
      if repeated.Some? {
        return Duplicate(repeated.value);
      }
      var i := 0;
      while i < |ordered|
        invariant 0 <= i <= |ordered|
        invariant forall j :: 0 <= j < i ==> ordered[j] in existing
      {
        if ordered[i] !in existing {
          return Foreign(ordered[i]);
        }
        i := i + 1;
      }
      WriteOrder(ordered);
      r := Accepted;
    }

    static method FindRepeated(ids: seq<int>) returns (repeated: Option<int>)
      ensures repeated.None? <==> Distinct(ids)
      ensures repeated.Some? ==> multiset(ids)[repeated.value] > 1
    {
      var seen, i := {}, 0;
      while i < |ids|
        invariant 0 <= i <= |ids|
        invariant forall id :: id in seen <==> id in ids[..i]
        invariant Distinct(ids[..i])
      {
        assert ids[..i + 1] == ids[..i] + [ids[i]];
        if ids[i] in seen {
          ghost var j :| 0 <= j < i && ids[j] == ids[i];
          Twice(ids, j, i);
          return Some(ids[i]);
        }
        seen := seen + {ids[i]};
        i := i + 1;
      }
      assert ids[..i] == ids;
      return None;
    }

    method ListIds(channel: int) returns (ids: seq<int>)
      ensures ids == Ids(Rows(rows, channel))
    {
      ids := [];
      var i := 0;
      assert Ids(Rows(rows[..i], channel)) == [];
      hide *;
      while i < |rows|
        invariant 0 <= i <= |rows|
        invariant ids == Ids(Rows(rows[..i], channel))
      {
        RowsSnoc(rows[..i + 1], channel);
        assert rows[..i + 1][..i] == rows[..i];
        if rows[i].channelId == channel {
          ids := ids + [rows[i].id];
        }
        i := i + 1;
      }
      assert rows[..i] == rows;
    }

    method WriteOrder(ordered: seq<int>)
      requires UniqueIds(rows)
      modifies this
      ensures rows == Reordered(old(rows), ordered) && UniqueIds(rows)
    {
      var i := 0;
      while i < |ordered|
        invariant 0 <= i <= |ordered|
        invariant rows == Reordered(old(rows), ordered[..i])
        invariant UniqueIds(rows)
      {
        assert ordered[..i + 1][..i] == ordered[..i];
        rows := Reprioritised(rows, ordered[i], (i + 1) * 10);
        i := i + 1;
      }
      assert ordered[..i] == ordered;
    }
  }

  lemma Twice(ids: seq<int>, i: nat, j: nat)
    requires i < j < |ids| && ids[i] == ids[j]
    ensures multiset(ids)[ids[i]] > 1
  {
    assert ids == ids[..j] + [ids[j]] + ids[j + 1..];
    assert ids[i] in ids[..j];
  }

  // ---- the rows of one channel ----

  lemma {:induction false} RowMember(rows: seq<Key>, channel: int, key: Key)
    ensures key in Rows(rows, channel) <==> key in rows && key.channelId == channel
  {
    GatherMember(OfChannel(channel), rows, key);
  }

  lemma {:induction false} IdMember(keys: seq<Key>, id: int)
    ensures id in Ids(keys) <==> exists key :: key in keys && key.id == id
  {
    GatherMember(IdOf(), keys, id);
  }

  lemma {:induction false} IdAt(keys: seq<Key>)
    ensures |Ids(keys)| == |keys| && forall i :: 0 <= i < |keys| ==> Ids(keys)[i] == keys[i].id
  {
    if keys != [] {
      IdAt(keys[..|keys| - 1]);
    }
  }

  lemma {:induction false} UniqueRows(rows: seq<Key>, channel: int)
    requires UniqueIds(rows)
    ensures UniqueIds(Rows(rows, channel))
  {
    if rows != [] {
      var n := |rows| - 1;
      UniqueRows(rows[..n], channel);
      if rows[n].channelId == channel {
        forall key | key in Rows(rows[..n], channel) ensures key.id != rows[n].id {
          RowMember(rows[..n], channel, key);
        }
      }
    }
  }

  lemma DistinctIds(rows: seq<Key>, channel: int)
    requires UniqueIds(rows)
    ensures Distinct(Ids(Rows(rows, channel)))
  {
    UniqueRows(rows, channel);
    IdAt(Rows(rows, channel));
  }

  // ---- after a reordering ----

  /** What the updates leave behind: row by row, only the priority changes, to ten times the row's place
      in the list, and only where the list names the row. */
  lemma {:induction false} ReorderedRow(rows: seq<Key>, ordered: seq<int>, j: nat)
    requires Distinct(ordered) && j < |rows|
    ensures var after := Reordered(rows, ordered);
            && |after| == |rows|
            && after[j] == rows[j].(priority := after[j].priority)
            && (rows[j].id !in ordered ==> after[j] == rows[j])
            && forall i :: 0 <= i < |ordered| && ordered[i] == rows[j].id ==> after[j].priority == (i + 1) * 10
  {
    if ordered != [] {
      var n := |ordered| - 1;
      ReorderedRow(rows, ordered[..n], j);
      assert ordered == ordered[..n] + [ordered[n]];
    }
  }

  lemma {:induction false} SameIds(before: seq<Key>, after: seq<Key>, channel: int)
    requires |before| == |after|
    requires forall j :: 0 <= j < |before| ==> after[j].id == before[j].id && after[j].channelId == before[j].channelId
    ensures Ids(Rows(after, channel)) == Ids(Rows(before, channel))
  {
    if before != [] {
      var n := |before| - 1;
      SameIds(before[..n], after[..n], channel);
      RowsSnoc(before, channel);
      RowsSnoc(after, channel);
    }
  }

  lemma RowsSnoc(rows: seq<Key>, channel: int)
    requires rows != []
    ensures var n := |rows| - 1;
            && Rows(rows, channel) == Rows(rows[..n], channel) + OfChannel(channel)(rows[n])
            && Ids(Rows(rows, channel))
               == if rows[n].channelId == channel then Ids(Rows(rows[..n], channel)) + [rows[n].id]
                  else Ids(Rows(rows[..n], channel))
  {
    var n := |rows| - 1;
    GatherSnoc(IdOf(), Rows(rows[..n], channel), rows[n]);
    assert Rows(rows[..n], channel) + [] == Rows(rows[..n], channel);
  }

  lemma {:induction false} SameRows(before: seq<Key>, after: seq<Key>, channel: int)
    requires |before| == |after|
    requires forall j :: 0 <= j < |before| ==> after[j].channelId == before[j].channelId
    requires forall j :: 0 <= j < |before| && before[j].channelId == channel ==> after[j] == before[j]
    ensures Rows(after, channel) == Rows(before, channel)
  {
    if before != [] {
      var n := |before| - 1;
      SameRows(before[..n], after[..n], channel);
      RowsSnoc(before, channel);
      RowsSnoc(after, channel);
    }
  }

  lemma ListingMember(rows: seq<Key>, channel: int, key: Key)
    ensures key in KeysFor(rows, channel) <==> key in rows && key.channelId == channel
  {
    SortMember(PriorityRank(), Sort(IdRank(), Rows(rows, channel)), key);
    SortMember(IdRank(), Rows(rows, channel), key);
    RowMember(rows, channel, key);
  }

  lemma ListingSorted(rows: seq<Key>, channel: int)
    ensures Ascending(PriorityRank(), KeysFor(rows, channel))
    ensures |KeysFor(rows, channel)| == |Ids(Rows(rows, channel))|
  {
    var found := Rows(rows, channel);
    var byId := Sort(IdRank(), found);
    SortSorts(IdRank(), found);
    SortSorts(PriorityRank(), byId);
    IdAt(found);
    SameSize(byId, found);
    SameSize(KeysFor(rows, channel), byId);
  }

  /** By priority first, and by id among equal priorities. */
  lemma ListingOrder(rows: seq<Key>, channel: int, i: nat, j: nat)
    requires i < j < |KeysFor(rows, channel)|
    ensures var a, b := KeysFor(rows, channel)[i], KeysFor(rows, channel)[j];
            a.priority < b.priority || (a.priority == b.priority && a.id <= b.id)
  {
    var byId := Sort(IdRank(), Rows(rows, channel));
    var keys := KeysFor(rows, channel);
    SortSorts(IdRank(), Rows(rows, channel));
    SortSorts(PriorityRank(), byId);
    assert PriorityRank()(keys[i]) <= PriorityRank()(keys[j]);
    if keys[i].priority == keys[j].priority {
      TiesKeepOrder(PriorityRank(), IdRank(), byId, i, j);
      assert IdRank()(keys[i]) <= IdRank()(keys[j]);
    }
  }

  lemma ListingUnique(rows: seq<Key>, channel: int)
    requires UniqueIds(rows)
    ensures UniqueIds(KeysFor(rows, channel))
  {
    var found := Rows(rows, channel);
    UniqueRows(rows, channel);
    SortDistinct(IdRank(), found);
    SortDistinct(PriorityRank(), Sort(IdRank(), found));
    var keys := KeysFor(rows, channel);
    hide Sort, Gather;
    forall i, j | 0 <= i < j < |keys| ensures keys[i].id != keys[j].id {
      assert keys[i] in keys && keys[j] in keys;
      ListingMember(rows, channel, keys[i]);
      ListingMember(rows, channel, keys[j]);
    }
  }

  /** Where a listed key stands in the list that reordered it. */
  lemma PlaceInOrder(rows: seq<Key>, channel: int, ordered: seq<int>, key: Key) returns (i: nat)
    requires UniqueIds(rows) && multiset(ordered) == multiset(Ids(Rows(rows, channel)))
    requires key in Reordered(rows, ordered) && key.channelId == channel
    ensures i < |ordered| && ordered[i] == key.id && key.priority == (i + 1) * 10
  {
    DistinctIds(rows, channel);
    PermutationIff(ordered, Ids(Rows(rows, channel)));
    forall j | 0 <= j < |rows| {
      ReorderedRow(rows, ordered, j);
    }
    assert |Reordered(rows, ordered)| == |rows| by {
      if |rows| > 0 { ReorderedRow(rows, ordered, 0); } else { NoRows(rows, ordered); }
    }
    var j: nat :| j < |rows| && Reordered(rows, ordered)[j] == key;
    RowMember(rows, channel, rows[j]);
    IdMember(Rows(rows, channel), key.id);
    assert key.id in multiset(ordered);
    i :| i < |ordered| && ordered[i] == key.id;
  }

  lemma {:induction false} NoRows(rows: seq<Key>, ordered: seq<int>)
    ensures |Reordered(rows, ordered)| == |rows|
  {
    if ordered != [] {
      NoRows(rows, ordered[..|ordered| - 1]);
    }
  }

  lemma ReorderedKeepsIds(rows: seq<Key>, ordered: seq<int>)
    requires Distinct(ordered)
    ensures var after := Reordered(rows, ordered);
            && |after| == |rows|
            && forall j :: 0 <= j < |rows| ==> after[j].id == rows[j].id && after[j].channelId == rows[j].channelId
  {
    NoRows(rows, ordered);
    forall j | 0 <= j < |rows| {
      ReorderedRow(rows, ordered, j);
    }
  }

  /** After an accepted reordering the channel's keys are listed in exactly the order given. */
  lemma DragOrderIsListed(rows: seq<Key>, channel: int, ordered: seq<int>)
    requires UniqueIds(rows) && multiset(ordered) == multiset(Ids(Rows(rows, channel)))
    ensures Ids(KeysFor(Reordered(rows, ordered), channel)) == ordered
  {
    var after := Reordered(rows, ordered);
    var keys := KeysFor(after, channel);
    DistinctIds(rows, channel);
    PermutationIff(ordered, Ids(Rows(rows, channel)));
    ReorderedKeepsIds(rows, ordered);
    SameIds(rows, after, channel);
    ListingSorted(after, channel);
    ListingUnique(after, channel);
    IdAt(keys);
    hide Reordered, KeysFor, Rows, Ids;
    forall j | 0 <= j < |keys|
      ensures exists i: nat :: i < |ordered| && ordered[i] == keys[j].id && keys[j].priority == (i + 1) * 10
    {
      ListingMember(after, channel, keys[j]);
      var i := PlaceInOrder(rows, channel, ordered, keys[j]);
    }
    PlacesAreInOrder(keys, ordered);
  }

  lemma PlacesAreInOrder(keys: seq<Key>, ordered: seq<int>)
    requires Ascending(PriorityRank(), keys) && UniqueIds(keys) && |keys| == |ordered|
    requires forall j :: 0 <= j < |keys| ==>
               exists i: nat :: i < |ordered| && ordered[i] == keys[j].id && keys[j].priority == (i + 1) * 10
    ensures forall j :: 0 <= j < |keys| ==> keys[j].id == ordered[j]
  {
    var f := seq(|keys|, j requires 0 <= j < |keys| => keys[j].priority / 10 - 1);
    assert forall j :: 0 <= j < |keys| ==> 0 <= f[j] < |ordered| && ordered[f[j]] == keys[j].id;
    forall j, k | 0 <= j < k < |f| ensures f[j] < f[k] {
      assert PriorityRank()(keys[j]) <= PriorityRank()(keys[k]);
    }
    forall j | 0 <= j < |keys| ensures f[j] == j {
      StrictAtLeast(f, j);
      StrictAtMost(f, j);
    }
  }

  /** Reordering one channel leaves the listings of all others alone. */
  lemma OthersKeepTheirOrder(rows: seq<Key>, channel: int, ordered: seq<int>, other: int)
    requires UniqueIds(rows) && multiset(ordered) == multiset(Ids(Rows(rows, channel))) && other != channel
    ensures KeysFor(Reordered(rows, ordered), other) == KeysFor(rows, other)
  {
    DistinctIds(rows, channel);
    PermutationIff(ordered, Ids(Rows(rows, channel)));
    ReorderedKeepsIds(rows, ordered);
    var after := Reordered(rows, ordered);
    forall j | 0 <= j < |rows| && rows[j].channelId == other ensures after[j] == rows[j] {
      ReorderedRow(rows, ordered, j);
      if rows[j].id in ordered {
        assert rows[j].id in multiset(ordered);
        IdMember(Rows(rows, channel), rows[j].id);
        var key :| key in Rows(rows, channel) && key.id == rows[j].id;
        RowMember(rows, channel, key);
      }
    }
    SameRows(rows, after, other);
  }

  // ---- drag order is try order ----

  function IfAvailable(upstream: string, available: (int, string) -> bool): int -> seq<int> {
    (id: int) => if available(id, upstream) then [id] else []
  }

  function RoutedId(): RoutedKey -> seq<int> { (rk: RoutedKey) => [rk.key.id] }

  lemma {:induction false} BucketKeys(c: Candidate, available: (int, string) -> bool, keys: seq<Key>, rk: RoutedKey)
    requires rk in Gather(Offered(c, available), keys)
    ensures rk.key in keys
  {
    GatherMember(Offered(c, available), keys, rk);
    var key :| key in keys && rk in Offered(c, available)(key);
    assert rk == Routed(c, key);
  }

  lemma {:induction false} BucketAscends(c: Candidate, available: (int, string) -> bool, keys: seq<Key>)
    requires Ascending(PriorityRank(), keys)
    ensures Ascending(KeyRank(), Gather(Offered(c, available), keys))
  {
    if keys != [] {
      var n := |keys| - 1;
      var before := Gather(Offered(c, available), keys[..n]);
      BucketAscends(c, available, keys[..n]);
      assert Gather(Offered(c, available), keys) == before + Offered(c, available)(keys[n]);
      var bucket := Gather(Offered(c, available), keys);
      hide Gather;
      forall i | 0 <= i < |before| ensures before[i].key.priority <= keys[n].priority {
        BucketKeys(c, available, keys[..n], before[i]);
        var j :| 0 <= j < n && keys[j] == before[i].key;
        assert PriorityRank()(keys[j]) <= PriorityRank()(keys[n]);
      }
      forall i, j | 0 <= i < j < |bucket| ensures KeyRank()(bucket[i]) <= KeyRank()(bucket[j]) {
        assert bucket[i] == before[i];
        if j < |before| {
          assert KeyRank()(before[i]) <= KeyRank()(before[j]);
        } else {
          assert bucket[j] == Routed(c, keys[n]);
        }
      }
    }
  }

  lemma {:induction false} BucketIds(c: Candidate, available: (int, string) -> bool, keys: seq<Key>)
    ensures Gather(RoutedId(), Gather(Offered(c, available), keys))
            == Gather(IfAvailable(c.upstream, available), Ids(keys))
  {
    if keys != [] {
      var n := |keys| - 1;
      var before := Gather(Offered(c, available), keys[..n]);
      BucketIds(c, available, keys[..n]);
      assert Gather(Offered(c, available), keys) == before + Offered(c, available)(keys[n]);
      assert Ids(keys) == Ids(keys[..n]) + [keys[n].id];
      hide Gather, Ids;
      GatherSnoc(IfAvailable(c.upstream, available), Ids(keys[..n]), keys[n].id);
      GatherSnoc(RoutedId(), before, Routed(c, keys[n]));
      if !available(keys[n].id, c.upstream) {
        assert before + [] == before;
      }
    }
  }

  /** A binding on the reordered channel offers its available keys in the order they were dragged into. */
  lemma DragOrderIsTryOrder(rows: seq<Key>, channel: int, ordered: seq<int>, c: Candidate,
                            available: (int, string) -> bool)
    requires UniqueIds(rows) && multiset(ordered) == multiset(Ids(Rows(rows, channel)))
    requires c.keys == KeysFor(Reordered(rows, ordered), channel)
    ensures Gather(RoutedId(), Sort(KeyRank(), Bucket(c, available)))
            == Gather(IfAvailable(c.upstream, available), ordered)
  {
    DragOrderIsListed(rows, channel, ordered);
    ListingSorted(Reordered(rows, ordered), channel);
    BucketAscends(c, available, c.keys);
    BucketIds(c, available, c.keys);
    SortIsTheSort(KeyRank(), Bucket(c, available), Bucket(c, available));
  }
}
