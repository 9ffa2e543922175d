/**
 Sequences built in one pass: what a loop that appends a few elements per input
 element computes, and the two steps every such loop is proved with.
 */
module Sequences {

  function FlatMap<X, Y>(xs: seq<X>, f: X -> seq<Y>): seq<Y> {
    if xs == [] then [] else f(xs[0]) + FlatMap(xs[1..], f)
  }

  lemma {:induction false} FlatMapSnoc<X, Y>(xs: seq<X>, x: X, f: X -> seq<Y>)
    ensures FlatMap(xs + [x], f) == FlatMap(xs, f) + f(x)
  {
    if xs == [] {
      assert xs + [x] == [x];
      assert FlatMap([x][1..], f) == [];
    } else {
      assert (xs + [x])[1..] == xs[1..] + [x];
      FlatMapSnoc(xs[1..], x, f);
    }
  }

  lemma FlatMapOne<X, Y>(x: X, f: X -> seq<Y>)
    ensures FlatMap([x], f) == f(x)
  {
    assert [x][1..] == [];
    assert f(x) + [] == f(x);
  }

  /** One round of a loop that builds FlatMap(xs, f) from the front. */
  lemma FlatMapStep<X, Y>(xs: seq<X>, i: nat, f: X -> seq<Y>)
    requires i < |xs|
    ensures FlatMap(xs[..i + 1], f) == FlatMap(xs[..i], f) + f(xs[i])
  {
    FlatMapSnoc(xs[..i], xs[i], f);
    assert xs[..i + 1] == xs[..i] + [xs[i]];
  }

  /** One round of a loop that takes the first of what is left. */
  lemma ConcatStep<X>(done: seq<X>, x: X, rest: seq<X>)
    ensures done + ([x] + rest) == (done + [x]) + rest
  {
  }

  lemma WholePrefix<X>(xs: seq<X>)
    ensures xs[..|xs|] == xs
  {
  }

  lemma HeadIn<X>(s: seq<X>)
    ensures s == [] || s[0] in s
  {
  }

  lemma {:induction false} FlatMapMembers<X, Y>(xs: seq<X>, f: X -> seq<Y>)
    ensures forall x, y | x in xs && y in f(x) :: y in FlatMap(xs, f)
    ensures forall y | y in FlatMap(xs, f) :: exists x :: x in xs && y in f(x)
  {
    if xs != [] {
      FlatMapMembers(xs[1..], f);
      assert forall x :: x in xs <==> x == xs[0] || x in xs[1..];
    }
  }
}
