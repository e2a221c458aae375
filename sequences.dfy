/** A generic map-and-concatenate over sequences and the facts the reconcile pass is built on. */
module Sequences {

  /** `f` applied to every element, results concatenated in order (defined from the back, as a loop appends). */
  function FlatMap<T, U>(xs: seq<T>, f: T -> seq<U>): seq<U> {
    if xs == [] then [] else FlatMap(xs[..|xs| - 1], f) + f(xs[|xs| - 1])
  }

  /** One more element appends its image. */
  lemma FlatMapSnoc<T, U>(xs: seq<T>, x: T, f: T -> seq<U>)
    ensures FlatMap(xs + [x], f) == FlatMap(xs, f) + f(x)
  {
    assert (xs + [x])[..|xs|] == xs;
  }

  /** The image of a concatenation is the concatenation of the images. */
  lemma {:induction false} FlatMapAppend<T, U>(a: seq<T>, b: seq<T>, f: T -> seq<U>)
    ensures FlatMap(a + b, f) == FlatMap(a, f) + FlatMap(b, f)
    decreases |b|
  {
    if b == [] {
      assert a + b == a;
    } else {
      var n := |b| - 1;
      assert (a + b)[..|a + b| - 1] == a + b[..n];
      assert (a + b)[|a + b| - 1] == b[n];
      FlatMapAppend(a, b[..n], f);
    }
  }

  /** An element of the result comes from the image of some element, and every such element is in it. */
  lemma {:induction false} FlatMapMembers<T, U>(xs: seq<T>, f: T -> seq<U>, y: U)
    ensures y in FlatMap(xs, f) <==> exists i :: 0 <= i < |xs| && y in f(xs[i])
  {
    if xs != [] {
      var n := |xs| - 1;
      FlatMapMembers(xs[..n], f, y);
      assert forall i :: 0 <= i < n ==> xs[..n][i] == xs[i];
    }
  }

  /** Images of at most one element never make the result longer than the input. */
  lemma {:induction false} FlatMapShorter<T, U>(xs: seq<T>, f: T -> seq<U>)
    requires forall x :: x in xs ==> |f(x)| <= 1
    ensures |FlatMap(xs, f)| <= |xs|
  {
    if xs != [] {
      var n := |xs| - 1;
      assert forall x :: x in xs[..n] ==> x in xs;
      FlatMapShorter(xs[..n], f);
    }
  }

  /** When every element maps to itself alone the result is the input. */
  lemma {:induction false} FlatMapIdentity<T>(xs: seq<T>, f: T -> seq<T>)
    requires forall i :: 0 <= i < |xs| ==> f(xs[i]) == [xs[i]]
    ensures FlatMap(xs, f) == xs
  {
    if xs != [] {
      var n := |xs| - 1;
      var init := xs[..n];
      assert forall i :: 0 <= i < |init| ==> init[i] == xs[i];
      FlatMapIdentity(init, f);
      assert xs == init + [xs[n]];
      FlatMapSnoc(init, xs[n], f);
    }
  }

  /** The result is empty exactly when every image is. */
  lemma {:induction false} FlatMapEmpty<T, U>(xs: seq<T>, f: T -> seq<U>)
    ensures FlatMap(xs, f) == [] <==> forall x :: x in xs ==> f(x) == []
  {
    if xs != [] {
      var n := |xs| - 1;
      FlatMapEmpty(xs[..n], f);
      assert forall x :: x in xs <==> x in xs[..n] || x == xs[n];
    }
  }

  /** Keeping or dropping each of distinct elements leaves distinct elements, all of them from the input. */
  lemma {:induction false} FlatMapFilterDistinct<T>(xs: seq<T>, f: T -> seq<T>)
    requires forall x :: x in xs ==> f(x) == [] || f(x) == [x]
    requires forall i, j :: 0 <= i < j < |xs| ==> xs[i] != xs[j]
    ensures forall y :: y in FlatMap(xs, f) ==> y in xs
    ensures forall i, j :: 0 <= i < j < |FlatMap(xs, f)| ==> FlatMap(xs, f)[i] != FlatMap(xs, f)[j]
  {
    if xs != [] {
      var n := |xs| - 1;
      var init, last := xs[..n], xs[n];
      assert forall x :: x in init ==> x in xs;
      FlatMapFilterDistinct(init, f);
      var kept := FlatMap(init, f);
      assert last !in init;
      assert FlatMap(xs, f) == kept + f(last);
      if f(last) == [last] {
        assert last !in kept;
        forall i, j | 0 <= i < j < |kept| + 1
          ensures (kept + [last])[i] != (kept + [last])[j]
        {
          if j == |kept| {
            assert (kept + [last])[i] == kept[i];
          } else {
            assert (kept + [last])[i] == kept[i] && (kept + [last])[j] == kept[j];
          }
        }
      } else {
        assert kept + f(last) == kept;
      }
    }
  }
}
