/** Optional values and list comprehensions over sequences. */
module Seqs {

  datatype Option<+T> = Absent | Some(value: T) {
    function GetOr(default: T): T {
      match this case Some(v) => v case Absent => default
    }
  }

  function Mapped<A, B>(xs: seq<A>, f: A -> B): (r: seq<B>)
    ensures |r| == |xs|
  {
    seq(|xs|, i requires 0 <= i < |xs| => f(xs[i]))
  }

  function Zip<A, B>(xs: seq<A>, ys: seq<B>): (r: seq<(A, B)>)
    requires |xs| == |ys|
    ensures |r| == |xs|
  {
    seq(|xs|, i requires 0 <= i < |xs| => (xs[i], ys[i]))
  }

  /** Every element contributes the sequence `f` gives it, in order. */
  function FlatMap<A, B>(xs: seq<A>, f: A -> seq<B>): seq<B> {
    if xs == [] then [] else f(xs[0]) + FlatMap(xs[1..], f)
  }

  lemma FlatMapHead<A, B>(xs: seq<A>, f: A -> seq<B>)
    requires xs != []
    ensures FlatMap(xs, f) == f(xs[0]) + FlatMap(xs[1..], f)
  {
  }

  lemma ConcatAssociates<A>(x: seq<A>, y: seq<A>, z: seq<A>)
    ensures x + (y + z) == x + y + z
  {
  }

  lemma {:induction false} FlatMapConcat<A, B>(a: seq<A>, b: seq<A>, f: A -> seq<B>)
    ensures FlatMap(a + b, f) == FlatMap(a, f) + FlatMap(b, f)
  {
    if a == [] {
      assert a + b == b;
    } else {
      FlatMapConcat(a[1..], b, f);
      FlatMapHead(a, f);
      FlatMapHead(a + b, f);
      assert (a + b)[0] == a[0] && (a + b)[1..] == a[1..] + b;
      hide FlatMap;
      ConcatAssociates(f(a[0]), FlatMap(a[1..], f), FlatMap(b, f));
    }
  }

  lemma FlatMapStep<A, B>(xs: seq<A>, f: A -> seq<B>, i: nat)
    requires i < |xs|
    ensures FlatMap(xs[..i + 1], f) == FlatMap(xs[..i], f) + f(xs[i])
  {
    FlatMapConcat(xs[..i], [xs[i]], f);
    assert xs[..i + 1] == xs[..i] + [xs[i]];
    assert FlatMap([xs[i]], f) == f(xs[i]) + FlatMap([], f);
  }

  lemma {:induction false} FlatMapMember<A, B>(xs: seq<A>, f: A -> seq<B>, y: B)
    ensures y in FlatMap(xs, f) <==> exists i :: 0 <= i < |xs| && y in f(xs[i])
  {
    if xs != [] {
      FlatMapMember(xs[1..], f, y);
      if y in FlatMap(xs[1..], f) {
        var i :| 0 <= i < |xs[1..]| && y in f(xs[1..][i]);
        assert xs[i + 1] == xs[1..][i];
      }
      if i :| 0 <= i < |xs| && y in f(xs[i]) && i > 0 {
        assert xs[1..][i - 1] == xs[i];
      }
    }
  }

  function Keep<A>(p: A -> bool): A -> seq<A> {
    x => if p(x) then [x] else []
  }

  /** `[x for x in xs if p(x)]`. */
  function Filter<A>(xs: seq<A>, p: A -> bool): seq<A> {
    FlatMap(xs, Keep(p))
  }

  lemma FilterStep<A>(xs: seq<A>, p: A -> bool, i: nat)
    requires i < |xs|
    ensures Filter(xs[..i + 1], p) == Filter(xs[..i], p) + if p(xs[i]) then [xs[i]] else []
  {
    FlatMapStep(xs, Keep(p), i);
  }

  lemma FilterMember<A>(xs: seq<A>, p: A -> bool, x: A)
    ensures x in Filter(xs, p) <==> x in xs && p(x)
  {
    FlatMapMember(xs, Keep(p), x);
    if x in xs {
      var i :| 0 <= i < |xs| && xs[i] == x;
      assert p(x) ==> x in Keep(p)(xs[i]);
    }
  }

  function OneOf<A, B>(load: A -> Option<B>): A -> seq<B> {
    (x: A) => match load(x) case Some(y) => [y] case Absent => []
  }

  /** `[y for x in xs if (y := load(x)) is not None]`. */
  function Collect<A, B>(xs: seq<A>, load: A -> Option<B>): seq<B> {
    FlatMap(xs, OneOf(load))
  }

  lemma CollectStep<A, B>(xs: seq<A>, load: A -> Option<B>, i: nat)
    requires i < |xs|
    ensures Collect(xs[..i + 1], load) ==
            Collect(xs[..i], load) + match load(xs[i]) case Some(y) => [y] case Absent => []
  {
    FlatMapStep(xs, OneOf(load), i);
  }

  lemma CollectMember<A(!new), B>(xs: seq<A>, load: A -> Option<B>, y: B)
    ensures y in Collect(xs, load) <==> exists x :: x in xs && load(x) == Some(y)
  {
    FlatMapMember(xs, OneOf(load), y);
    if x :| x in xs && load(x) == Some(y) {
      var i :| 0 <= i < |xs| && xs[i] == x;
      assert y in OneOf(load)(xs[i]);
    }
  }
}
