/** Left folds over sequences, the shape of every stream machine and of every run.

    The last element is taken off first, so that a run over more input is one step on top of the run before; sums and
    concatenations are the same fold with a share or a part for each element. */
module Folds {

  /** Running `step` over `es`, starting in `s`. */
  function Fold<S, E>(step: (S, E) -> S, s: S, es: seq<E>): S {
    if es == [] then s else step(Fold(step, s, es[..|es| - 1]), es[|es| - 1])
  }

  lemma FoldSnoc<S, E>(step: (S, E) -> S, s: S, es: seq<E>, e: E)
    ensures Fold(step, s, es + [e]) == step(Fold(step, s, es), e)
  {
  }

  lemma {:induction false} FoldAppend<S, E>(step: (S, E) -> S, s: S, es: seq<E>, fs: seq<E>)
    ensures Fold(step, s, es + fs) == Fold(step, Fold(step, s, es), fs)
    decreases |fs|
  {
    if fs == [] {
      assert es + fs == es;
    } else {
      var n := |fs| - 1;
      FoldAppend(step, s, es, fs[..n]);
      assert (es + fs)[..|es + fs| - 1] == es + fs[..n];
    }
  }

  /** The concatenation of what each element contributes. */
  function Gather<E, T>(part: E -> seq<T>, es: seq<E>): seq<T> {
    if es == [] then [] else Gather(part, es[..|es| - 1]) + part(es[|es| - 1])
  }

  function Itself(s: string): string { s }

  /** Strings joined without a separator. */
  function Joined(parts: seq<string>): string { Gather(Itself, parts) }

  lemma JoinedOne(s: string)
    ensures Joined([s]) == s
  {
    assert Gather(Itself, [s]) == Gather(Itself, []) + s;
  }

  lemma GatherSnoc<E, T>(part: E -> seq<T>, es: seq<E>, e: E)
    ensures Gather(part, es + [e]) == Gather(part, es) + part(e)
  {
  }

  lemma {:induction false} GatherAppend<E, T>(part: E -> seq<T>, es: seq<E>, fs: seq<E>)
    ensures Gather(part, es + fs) == Gather(part, es) + Gather(part, fs)
    decreases |fs|
  {
    if fs == [] {
      assert es + fs == es;
    } else {
      var n := |fs| - 1;
      GatherAppend(part, es, fs[..n]);
      assert (es + fs)[..|es + fs| - 1] == es + fs[..n];
    }
  }

  lemma GatherFirst<E, T>(part: E -> seq<T>, es: seq<E>)
    requires es != []
    ensures Gather(part, es) == part(es[0]) + Gather(part, es[1..])
  {
    assert es == [es[0]] + es[1..] && [] + [es[0]] == [es[0]];
    GatherAppend(part, [es[0]], es[1..]);
    GatherSnoc(part, [], es[0]);
  }

  lemma {:induction false} GatherMember<E, T>(part: E -> seq<T>, es: seq<E>, t: T)
    ensures t in Gather(part, es) <==> exists e :: e in es && t in part(e)
  {
    if es != [] {
      var n := |es| - 1;
      GatherMember(part, es[..n], t);
      assert es == es[..n] + [es[n]];
    }
  }

  // ---- sums ----

  function Total<T>(share: T -> int, xs: seq<T>): int {
    if xs == [] then 0 else Total(share, xs[..|xs| - 1]) + share(xs[|xs| - 1])
  }

  lemma TotalSnoc<T>(share: T -> int, xs: seq<T>, x: T)
    ensures Total(share, xs + [x]) == Total(share, xs) + share(x)
  {
  }

  lemma {:induction false} TotalAppend<T>(share: T -> int, xs: seq<T>, ys: seq<T>)
    ensures Total(share, xs + ys) == Total(share, xs) + Total(share, ys)
    decreases |ys|
  {
    if ys == [] {
      assert xs + ys == xs;
    } else {
      var n := |ys| - 1;
      TotalAppend(share, xs, ys[..n]);
      assert (xs + ys)[..|xs + ys| - 1] == xs + ys[..n];
    }
  }

  lemma {:induction false} TotalUpdate<T>(share: T -> int, xs: seq<T>, i: nat, x: T)
    requires i < |xs|
    ensures Total(share, xs[i := x]) == Total(share, xs) - share(xs[i]) + share(x)
  {
    var n := |xs| - 1;
    if i == n {
      assert xs[i := x][..n] == xs[..n];
    } else {
      TotalUpdate(share, xs[..n], i, x);
      assert xs[i := x][..n] == xs[..n][i := x];
    }
  }

  lemma {:induction false} TotalPositive<T(!new)>(share: T -> int, xs: seq<T>)
    requires forall x :: share(x) >= 0
    ensures Total(share, xs) >= 0
    ensures Total(share, xs) > 0 <==> exists x :: x in xs && share(x) > 0
  {
    if xs != [] {
      var n := |xs| - 1;
      TotalPositive(share, xs[..n]);
      assert xs == xs[..n] + [xs[n]];
      assert forall x :: x in xs <==> x in xs[..n] || x == xs[n];
    }
  }

  lemma {:induction false} TotalZero<T>(share: T -> int, xs: seq<T>)
    requires forall x <- xs :: share(x) == 0
    ensures Total(share, xs) == 0
  {
    if xs != [] {
      TotalZero(share, xs[..|xs| - 1]);
    }
  }
}
