/** What a stable sort by an integer key gives, whatever algorithm the standard library uses.

    Insertion sort is the definition; that it ascends, permutes and keeps the order of equal keys is proved of it, and
    then that nothing else does. */
module Sorting {

  function Insert<T>(rank: T -> int, x: T, ys: seq<T>): seq<T> {
    if ys == [] then [x] else if rank(x) <= rank(ys[0]) then [x] + ys else [ys[0]] + Insert(rank, x, ys[1..])
  }

  function Sort<T>(rank: T -> int, xs: seq<T>): seq<T> {
    if xs == [] then [] else Insert(rank, xs[0], Sort(rank, xs[1..]))
  }

  ghost predicate Ascending<T>(rank: T -> int, xs: seq<T>) {
    forall i, j :: 0 <= i < j < |xs| ==> rank(xs[i]) <= rank(xs[j])
  }

  /** The elements of rank `v`, in order. */
  function Ranked<T>(rank: T -> int, v: int, xs: seq<T>): seq<T> {
    if xs == [] then [] else (if rank(xs[0]) == v then [xs[0]] else []) + Ranked(rank, v, xs[1..])
  }

  /** Same elements as often, and elements of equal rank in the same order. */
  ghost predicate StablePermutation<T>(rank: T -> int, xs: seq<T>, ys: seq<T>) {
    multiset(xs) == multiset(ys) && forall v :: Ranked(rank, v, xs) == Ranked(rank, v, ys)
  }

  lemma RankedCons<T>(rank: T -> int, v: int, x: T, ys: seq<T>)
    ensures Ranked(rank, v, [x] + ys) == (if rank(x) == v then [x] else []) + Ranked(rank, v, ys)
  {
    assert ([x] + ys)[1..] == ys;
  }

  lemma {:induction false} InsertPermutes<T>(rank: T -> int, x: T, ys: seq<T>)
    ensures multiset(Insert(rank, x, ys)) == multiset([x]) + multiset(ys)
  {
    if ys != [] {
      InsertPermutes(rank, x, ys[1..]);
      assert ys == [ys[0]] + ys[1..];
    }
  }

  lemma {:induction false} InsertAscends<T>(rank: T -> int, x: T, ys: seq<T>)
    requires Ascending(rank, ys)
    ensures Ascending(rank, Insert(rank, x, ys))
  {
    if ys != [] && rank(x) > rank(ys[0]) {
      InsertAscends(rank, x, ys[1..]);
      InsertPermutes(rank, x, ys[1..]);
      var rest := Insert(rank, x, ys[1..]);
      forall y | y in rest ensures rank(ys[0]) <= rank(y) {
        assert y in multiset(rest);
      }
    }
  }

  lemma {:induction false} InsertIsStable<T>(rank: T -> int, v: int, x: T, ys: seq<T>)
    ensures Ranked(rank, v, Insert(rank, x, ys)) == Ranked(rank, v, [x] + ys)
  {
    RankedCons(rank, v, x, ys);
    if ys != [] && rank(x) > rank(ys[0]) {
      InsertIsStable(rank, v, x, ys[1..]);
      RankedCons(rank, v, x, ys[1..]);
      RankedCons(rank, v, ys[0], Insert(rank, x, ys[1..]));
    } else {
      assert Insert(rank, x, ys) == [x] + ys;
    }
  }

  /** The sorted sequence ascends and is a stable permutation of the original. */
  lemma {:induction false} SortSorts<T>(rank: T -> int, xs: seq<T>)
    ensures Ascending(rank, Sort(rank, xs))
    ensures StablePermutation(rank, xs, Sort(rank, xs))
  {
    if xs != [] {
      var sorted := Sort(rank, xs[1..]);
      SortSorts(rank, xs[1..]);
      InsertAscends(rank, xs[0], sorted);
      InsertPermutes(rank, xs[0], sorted);
      assert xs == [xs[0]] + xs[1..];
      forall v ensures Ranked(rank, v, xs) == Ranked(rank, v, Sort(rank, xs)) {
        InsertIsStable(rank, v, xs[0], sorted);
        RankedCons(rank, v, xs[0], sorted);
      }
    }
  }

  lemma {:induction false} RankedIn<T>(rank: T -> int, v: int, xs: seq<T>, x: T)
    ensures x in Ranked(rank, v, xs) <==> x in xs && rank(x) == v
  {
    if xs != [] {
      RankedIn(rank, v, xs[1..], x);
      assert xs == [xs[0]] + xs[1..];
    }
  }

  lemma RankedMember<T>(rank: T -> int, v: int, xs: seq<T>)
    ensures Ranked(rank, v, xs) != [] ==> exists x :: x in xs && rank(x) == v
    ensures xs != [] && rank(xs[0]) == v ==> Ranked(rank, v, xs) != [] && Ranked(rank, v, xs)[0] == xs[0]
  {
    if Ranked(rank, v, xs) != [] {
      RankedIn(rank, v, xs, Ranked(rank, v, xs)[0]);
    }
  }

  lemma FirstIsLeast<T>(rank: T -> int, xs: seq<T>, ys: seq<T>)
    requires Ascending(rank, xs) && ys != [] && forall v :: Ranked(rank, v, xs) == Ranked(rank, v, ys)
    ensures xs != [] && rank(xs[0]) <= rank(ys[0])
  {
    RankedMember(rank, rank(ys[0]), ys);
    RankedMember(rank, rank(ys[0]), xs);
  }

  lemma SameRest<T>(head: seq<T>, a: seq<T>, b: seq<T>)
    requires head + a == head + b
    ensures a == b
  {
    assert a == (head + a)[|head|..];
    assert b == (head + b)[|head|..];
  }

  lemma TailsAgree<T>(rank: T -> int, v: int, xs: seq<T>, ys: seq<T>)
    requires xs != [] && ys != [] && xs[0] == ys[0] && Ranked(rank, v, xs) == Ranked(rank, v, ys)
    ensures Ranked(rank, v, xs[1..]) == Ranked(rank, v, ys[1..])
  {
    SameRest(if rank(xs[0]) == v then [xs[0]] else [], Ranked(rank, v, xs[1..]), Ranked(rank, v, ys[1..]));
  }

  /** Sortedness and stability leave one answer only. */
  lemma {:induction false} SortIsUnique<T>(rank: T -> int, xs: seq<T>, ys: seq<T>)
    requires Ascending(rank, xs) && Ascending(rank, ys) && forall v :: Ranked(rank, v, xs) == Ranked(rank, v, ys)
    ensures xs == ys
  {
    if ys == [] {
      if xs != [] {
        FirstIsLeast(rank, ys, xs);
      }
    } else {
      FirstIsLeast(rank, xs, ys);
      FirstIsLeast(rank, ys, xs);
      RankedMember(rank, rank(xs[0]), xs);
      RankedMember(rank, rank(xs[0]), ys);
      forall v ensures Ranked(rank, v, xs[1..]) == Ranked(rank, v, ys[1..]) {
        TailsAgree(rank, v, xs, ys);
      }
      SortIsUnique(rank, xs[1..], ys[1..]);
    }
  }

  /** Any stable sort is `Sort`; in particular sorting what is sorted changes nothing. */
  lemma SortIsTheSort<T>(rank: T -> int, xs: seq<T>, ys: seq<T>)
    requires Ascending(rank, ys) && StablePermutation(rank, xs, ys)
    ensures Sort(rank, xs) == ys
  {
    SortSorts(rank, xs);
    SortIsUnique(rank, Sort(rank, xs), ys);
  }

  lemma {:induction false} RankedAscends<T>(rank: T -> int, v: int, other: T -> int, xs: seq<T>)
    requires Ascending(other, xs)
    ensures Ascending(other, Ranked(rank, v, xs))
  {
    if xs != [] {
      var rest := Ranked(rank, v, xs[1..]);
      RankedAscends(rank, v, other, xs[1..]);
      forall x | x in rest ensures other(xs[0]) <= other(x) {
        RankedIn(rank, v, xs[1..], x);
      }
    }
  }

  lemma {:induction false} RankedKeepsOrder<T>(rank: T -> int, xs: seq<T>, i: nat, j: nat)
    returns (p: nat, q: nat)
    requires i < j < |xs| && rank(xs[i]) == rank(xs[j])
    ensures var ranked := Ranked(rank, rank(xs[i]), xs);
            p < q < |ranked| && ranked[p] == xs[i] && ranked[q] == xs[j]
  {
    var v := rank(xs[i]);
    var rest := Ranked(rank, v, xs[1..]);
    if i == 0 {
      RankedIn(rank, v, xs[1..], xs[j]);
      assert xs[1..][j - 1] == xs[j];
      var r :| 0 <= r < |rest| && rest[r] == xs[j];
      p, q := 0, r + 1;
    } else {
      p, q := RankedKeepsOrder(rank, xs[1..], i - 1, j - 1);
      if rank(xs[0]) == v {
        p, q := p + 1, q + 1;
      }
    }
  }

  /** Sorting what another order has sorted keeps that order among equals. */
  lemma TiesKeepOrder<T>(rank: T -> int, other: T -> int, xs: seq<T>, i: nat, j: nat)
    requires Ascending(other, xs)
    requires i < j < |Sort(rank, xs)| && rank(Sort(rank, xs)[i]) == rank(Sort(rank, xs)[j])
    ensures other(Sort(rank, xs)[i]) <= other(Sort(rank, xs)[j])
  {
    var sorted := Sort(rank, xs);
    SortSorts(rank, xs);
    var v := rank(sorted[i]);
    var p, q := RankedKeepsOrder(rank, sorted, i, j);
    RankedAscends(rank, v, other, xs);
    assert Ranked(rank, v, sorted) == Ranked(rank, v, xs);
  }

  // ---- sequences without repetition ----

  lemma SameSize<T>(a: seq<T>, b: seq<T>)
    requires multiset(a) == multiset(b)
    ensures |a| == |b|
  {
    assert |multiset(a)| == |a| && |multiset(b)| == |b|;
  }

  ghost predicate Distinct<T>(xs: seq<T>) {
    forall i, j :: 0 <= i < j < |xs| ==> xs[i] != xs[j]
  }

  lemma {:induction false} DistinctCounts<T>(xs: seq<T>)
    ensures Distinct(xs) <==> forall x :: multiset(xs)[x] <= 1
  {
    if xs != [] {
      var n := |xs| - 1;
      DistinctCounts(xs[..n]);
      assert xs == xs[..n] + [xs[n]];
      assert multiset(xs) == multiset(xs[..n]) + multiset([xs[n]]);
      assert xs[n] in xs[..n] <==> multiset(xs[..n])[xs[n]] > 0;
      if Distinct(xs) {
        forall x ensures multiset(xs)[x] <= 1 {
          assert x == xs[n] ==> x !in xs[..n];
        }
      }
      if forall x :: multiset(xs)[x] <= 1 {
        assert multiset(xs)[xs[n]] <= 1;
        assert forall x :: multiset(xs[..n])[x] <= multiset(xs)[x];
      }
    }
  }

  lemma SortDistinct<T>(rank: T -> int, xs: seq<T>)
    requires Distinct(xs)
    ensures Distinct(Sort(rank, xs))
  {
    SortSorts(rank, xs);
    DistinctCounts(xs);
    DistinctCounts(Sort(rank, xs));
  }

  lemma SortMember<T>(rank: T -> int, xs: seq<T>, x: T)
    ensures x in Sort(rank, xs) <==> x in xs
  {
    SortSorts(rank, xs);
    assert x in Sort(rank, xs) <==> x in multiset(xs);
  }

  /** Among lists without repetition, being as long and having only members of the other makes a permutation. */
  lemma PermutationIff<T>(xs: seq<T>, ys: seq<T>)
    requires Distinct(ys)
    ensures |xs| == |ys| && Distinct(xs) && (forall x <- xs :: x in ys) <==> multiset(xs) == multiset(ys)
  {
    DistinctCounts(xs);
    DistinctCounts(ys);
    assert |multiset(xs)| == |xs| && |multiset(ys)| == |ys|;
    if |xs| == |ys| && Distinct(xs) && forall x <- xs :: x in ys {
      assert multiset(xs) <= multiset(ys) by {
        forall x ensures multiset(xs)[x] <= multiset(ys)[x] {
          assert x in multiset(xs) <==> x in xs;
          assert x in multiset(ys) <==> x in ys;
        }
      }
      assert multiset(ys) == multiset(xs) + (multiset(ys) - multiset(xs));
      assert |multiset(ys) - multiset(xs)| == 0;
    }
    if multiset(xs) == multiset(ys) {
      forall x | x in xs ensures x in ys {
        assert x in multiset(xs);
      }
    }
  }

  lemma {:induction false} StrictAtLeast(f: seq<int>, i: nat)
    requires forall j, k :: 0 <= j < k < |f| ==> f[j] < f[k]
    requires i < |f| && f[0] >= 0
    ensures f[i] >= i
  {
    if i > 0 {
      StrictAtLeast(f, i - 1);
    }
  }

  lemma {:induction false} StrictAtMost(f: seq<int>, i: nat)
    requires forall j, k :: 0 <= j < k < |f| ==> f[j] < f[k]
    requires i < |f| && f[|f| - 1] < |f|
    ensures f[i] <= i
    decreases |f| - i
  {
    if i < |f| - 1 {
      StrictAtMost(f, i + 1);
    }
  }
}
