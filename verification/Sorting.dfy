/** Python's `sorted` (a stable sort), directory listings in sorted order, and the
    fact that a strict order leaves only one sorted sequence. */
module Sorting {
  import opened Text

  /** `before(a, b)`: a must stand ahead of b. Elements it does not separate are ties. */
  function Insert<T>(x: T, ys: seq<T>, before: (T, T) -> bool): seq<T> {
    if ys == [] || !before(ys[0], x) then [x] + ys
    else [ys[0]] + Insert(x, ys[1..], before)
  }

  /** Stable: an element goes in front of the ties that followed it. */
  function Sort<T>(xs: seq<T>, before: (T, T) -> bool): seq<T> {
    if xs == [] then [] else Insert(xs[0], Sort(xs[1..], before), before)
  }

  ghost predicate StrictOrderOn<T(!new)>(before: (T, T) -> bool, s: set<T>) {
    && (forall a :: a in s ==> !before(a, a))
    && (forall a, b :: a in s && b in s && a != b ==> before(a, b) || before(b, a))
    && (forall a, b, c :: a in s && b in s && c in s && before(a, b) && before(b, c) ==> before(a, c))
  }

  ghost predicate StrictlySorted<T(!new)>(xs: seq<T>, before: (T, T) -> bool) {
    forall i, j :: 0 <= i < j < |xs| ==> before(xs[i], xs[j])
  }

  predicate NoDup<T(==,!new)>(xs: seq<T>) {
    forall i, j :: 0 <= i < j < |xs| ==> xs[i] != xs[j]
  }

  ghost function Elements<T(!new)>(xs: seq<T>): (r: set<T>)
    ensures forall x :: x in r <==> x in xs
  {
    set x | x in xs
  }

  lemma {:induction false} InsertMultiset<T(!new)>(x: T, ys: seq<T>, before: (T, T) -> bool)
    ensures multiset(Insert(x, ys, before)) == multiset{x} + multiset(ys)
  {
    if ys == [] || !before(ys[0], x) {
    } else {
      InsertMultiset(x, ys[1..], before);
      assert ys == [ys[0]] + ys[1..];
    }
  }

  /** Sorting loses and invents nothing. */
  lemma {:induction false} SortMultiset<T(!new)>(xs: seq<T>, before: (T, T) -> bool)
    ensures multiset(Sort(xs, before)) == multiset(xs)
  {
    if xs != [] {
      SortMultiset(xs[1..], before);
      InsertMultiset(xs[0], Sort(xs[1..], before), before);
      assert xs == [xs[0]] + xs[1..];
    }
  }

  lemma SortMembers<T(!new)>(xs: seq<T>, before: (T, T) -> bool)
    ensures |Sort(xs, before)| == |xs|
    ensures Elements(Sort(xs, before)) == Elements(xs)
    ensures forall x :: x in Sort(xs, before) <==> x in xs
  {
    SortMultiset(xs, before);
    var r := Sort(xs, before);
    assert |multiset(r)| == |multiset(xs)|;
    forall x ensures x in r <==> x in xs {
      assert x in multiset(r) <==> x in multiset(xs);
    }
    assert forall x :: x in Elements(r) <==> x in Elements(xs);
  }

  lemma {:induction false} InsertMembers<T(!new)>(x: T, ys: seq<T>, before: (T, T) -> bool)
    ensures forall y :: y in Insert(x, ys, before) <==> y == x || y in ys
  {
    InsertMultiset(x, ys, before);
    forall y ensures y in Insert(x, ys, before) <==> y == x || y in ys {
      assert y in multiset(Insert(x, ys, before)) <==> y in multiset{x} + multiset(ys);
    }
  }

  lemma SortedCons<T(!new)>(x: T, ys: seq<T>, before: (T, T) -> bool)
    requires StrictlySorted(ys, before)
    requires forall y :: y in ys ==> before(x, y)
    ensures StrictlySorted([x] + ys, before)
  {
  }

  /** A comparison of sort keys: `!before` is reflexive and transitive. */
  ghost predicate WeakOrderOn<T(!new)>(before: (T, T) -> bool, s: set<T>) {
    && (forall a, b :: a in s && b in s && before(a, b) ==> !before(b, a))
    && (forall a, b, c :: a in s && b in s && c in s && !before(a, b) && !before(b, c) ==> !before(a, c))
  }

  /** Nothing stands behind an element it must stand ahead of. */
  ghost predicate Ordered<T(!new)>(xs: seq<T>, before: (T, T) -> bool) {
    forall i, j :: 0 <= i < j < |xs| ==> !before(xs[j], xs[i])
  }

  lemma OrderedCons<T(!new)>(x: T, ys: seq<T>, before: (T, T) -> bool)
    requires Ordered(ys, before) && forall y :: y in ys ==> !before(y, x)
    ensures Ordered([x] + ys, before)
  {
  }

  lemma {:induction false} InsertOrdered<T(!new)>(x: T, ys: seq<T>, before: (T, T) -> bool, s: set<T>)
    requires WeakOrderOn(before, s) && x in s && Elements(ys) <= s && Ordered(ys, before)
    ensures Ordered(Insert(x, ys, before), before)
  {
    if ys == [] {
    } else if before(ys[0], x) {
      assert forall y :: y in ys[1..] ==> y in ys;
      InsertOrdered(x, ys[1..], before, s);
      InsertMembers(x, ys[1..], before);
      assert ys[0] in Elements(ys);
      OrderedCons(ys[0], Insert(x, ys[1..], before), before);
    } else {
      forall y | y in ys ensures !before(y, x) {
        var i :| 0 <= i < |ys| && ys[i] == y;
        assert ys[0] in Elements(ys) && y in Elements(ys);
        assert i > 0 ==> !before(y, ys[0]);
      }
      OrderedCons(x, ys, before);
    }
  }

  /** Sorting by a key with ties gives an ordered sequence. */
  lemma {:induction false} SortOrdered<T(!new)>(xs: seq<T>, before: (T, T) -> bool, s: set<T>)
    requires WeakOrderOn(before, s) && Elements(xs) <= s
    ensures Ordered(Sort(xs, before), before)
  {
    if xs != [] {
      assert Elements(xs[1..]) <= Elements(xs);
      SortOrdered(xs[1..], before, s);
      SortMembers(xs[1..], before);
      assert xs[0] in Elements(xs);
      InsertOrdered(xs[0], Sort(xs[1..], before), before, s);
    }
  }

  lemma {:induction false} InsertSorted<T(!new)>(x: T, ys: seq<T>, before: (T, T) -> bool, s: set<T>)
    requires StrictOrderOn(before, s) && x in s && Elements(ys) <= s
    requires StrictlySorted(ys, before) && x !in ys
    ensures StrictlySorted(Insert(x, ys, before), before)
  {
    if ys == [] {
    } else if before(ys[0], x) {
      assert forall y :: y in ys[1..] ==> y in ys;
      InsertSorted(x, ys[1..], before, s);
      InsertMembers(x, ys[1..], before);
      SortedCons(ys[0], Insert(x, ys[1..], before), before);
    } else {
      assert ys[0] in Elements(ys) && before(x, ys[0]);
      forall y | y in ys ensures before(x, y) {
        FirstIsLeast(ys, y, before);
        assert y in Elements(ys);
      }
      SortedCons(x, ys, before);
    }
  }

  lemma {:induction false} SortStrict<T(!new)>(xs: seq<T>, before: (T, T) -> bool, s: set<T>)
    requires StrictOrderOn(before, s) && Elements(xs) <= s && NoDup(xs)
    ensures StrictlySorted(Sort(xs, before), before)
  {
    if xs != [] {
      assert Elements(xs[1..]) <= Elements(xs);
      SortStrict(xs[1..], before, s);
      SortMembers(xs[1..], before);
      assert xs[0] in Elements(xs);
      InsertSorted(xs[0], Sort(xs[1..], before), before, s);
    }
  }

  /** A strict order leaves no choice: the same elements, strictly sorted, are the
      same sequence. */
  lemma {:induction false} SortedUnique<T(!new)>(a: seq<T>, b: seq<T>, before: (T, T) -> bool, s: set<T>)
    requires StrictOrderOn(before, s) && Elements(a) == Elements(b) && Elements(a) <= s
    requires StrictlySorted(a, before) && StrictlySorted(b, before)
    ensures a == b
  {
    EmptyElements(a);
    EmptyElements(b);
    if a != [] && b != [] {
      HeadsAgree(a, b, before, s);
      TailElements(a, before, s);
      TailElements(b, before, s);
      SortedUnique(a[1..], b[1..], before, s);
      assert a == [a[0]] + a[1..] && b == [b[0]] + b[1..];
    }
  }

  lemma EmptyElements<T(!new)>(a: seq<T>)
    ensures a == [] <==> Elements(a) == {}
  {
    if a != [] {
      assert a[0] in Elements(a);
    }
  }

  lemma HeadsAgree<T(!new)>(a: seq<T>, b: seq<T>, before: (T, T) -> bool, s: set<T>)
    requires StrictOrderOn(before, s) && Elements(a) == Elements(b) && Elements(a) <= s
    requires StrictlySorted(a, before) && StrictlySorted(b, before)
    requires a != [] && b != []
    ensures a[0] == b[0]
  {
    FirstIsLeast(a, b[0], before);
    FirstIsLeast(b, a[0], before);
  }

  lemma FirstIsLeast<T(!new)>(a: seq<T>, x: T, before: (T, T) -> bool)
    requires StrictlySorted(a, before) && x in a
    ensures x == a[0] || before(a[0], x)
  {
    var i :| 0 <= i < |a| && a[i] == x;
  }

  lemma TailElements<T(!new)>(a: seq<T>, before: (T, T) -> bool, s: set<T>)
    requires StrictOrderOn(before, s) && Elements(a) <= s
    requires StrictlySorted(a, before) && a != []
    ensures Elements(a[1..]) == Elements(a) - {a[0]}
  {
    forall x ensures x in Elements(a[1..]) <==> x in Elements(a) - {a[0]} {
      if x in a[1..] {
        var i :| 0 <= i < |a[1..]| && a[1..][i] == x;
        assert a[i + 1] == x && before(a[0], a[i + 1]);
        assert x in Elements(a);
      }
      if x in a && x != a[0] {
        var i :| 0 <= i < |a| && a[i] == x;
        assert a[1..][i - 1] == x;
      }
    }
  }

  lemma StrictlySortedNoDup<T(!new)>(a: seq<T>, before: (T, T) -> bool)
    requires StrictlySorted(a, before)
    requires forall x :: x in a ==> !before(x, x)
    ensures NoDup(a)
  {
    forall i, j | 0 <= i < j < |a| ensures a[i] != a[j] {
      assert before(a[i], a[j]);
      assert a[j] in a;
    }
  }

  // ---------------------------------------------------------- sets in an order

  ghost function SeqOf<T(!new)>(s: set<T>): (r: seq<T>)
    ensures Elements(r) == s
    ensures NoDup(r)
  {
    if s == {} then []
    else
      var x :| x in s;
      [x] + SeqOf(s - {x})
  }

  /** The elements of a set in the given order: `sorted(s)`. */
  ghost function Listing<T(!new)>(s: set<T>, before: (T, T) -> bool): seq<T> {
    Sort(SeqOf(s), before)
  }

  lemma ListingSorted<T(!new)>(s: set<T>, before: (T, T) -> bool)
    requires StrictOrderOn(before, s)
    ensures StrictlySorted(Listing(s, before), before)
    ensures Elements(Listing(s, before)) == s
    ensures forall x :: x in Listing(s, before) <==> x in s
    ensures NoDup(Listing(s, before))
  {
    SortStrict(SeqOf(s), before, s);
    SortMembers(SeqOf(s), before);
    StrictlySortedNoDup(Listing(s, before), before);
  }

  /** However the set is walked, sorting gives the listing. */
  method Enumerate<T(==,!new)>(s: set<T>, before: (T, T) -> bool) returns (r: seq<T>)
    requires StrictOrderOn(before, s)
    ensures r == Listing(s, before)
  {
    r := [];
    var rest := s;
    while rest != {}
      invariant rest <= s
      invariant Elements(r) == s - rest
      invariant StrictlySorted(r, before)
    {
      var x :| x in rest;
      assert x !in Elements(r);
      InsertSorted(x, r, before, s);
      InsertMembers(x, r, before);
      r := Insert(x, r, before);
      rest := rest - {x};
    }
    ListingSorted(s, before);
    SortedUnique(r, Listing(s, before), before, s);
  }

  lemma LessIsStrict(s: set<string>)
    ensures StrictOrderOn(Less, s)
  {
    forall a | a in s ensures !Less(a, a) { LessIrreflexive(a); }
    forall a, b | a in s && b in s && a != b ensures Less(a, b) || Less(b, a) { LessTotal(a, b); }
    forall a, b, c | a in s && b in s && c in s && Less(a, b) && Less(b, c) ensures Less(a, c) {
      LessTransitive(a, b, c);
    }
  }
}
