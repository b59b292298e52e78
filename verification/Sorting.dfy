/** list.sort with a key that orders the elements strictly and totally: the result
    is the only sorted arrangement, so it does not depend on the input order, and
    an element's position is the number of elements before it in the order. */
module Sorting {
  import opened Common

  predicate Ordered<T(!new)>(less: (T, T) -> bool, s: seq<T>) {
    forall i, j :: 0 <= i < j < |s| ==> less(s[i], s[j])
  }

  ghost predicate StrictTotal<T(!new)>(less: (T, T) -> bool, domain: set<T>) {
    && (forall x :: x in domain ==> !less(x, x))
    && (forall x, y :: x in domain && y in domain && x != y ==> less(x, y) || less(y, x))
    && (forall x, y, z :: x in domain && y in domain && z in domain && less(x, y) && less(y, z) ==> less(x, z))
  }

  ghost function Elements<T(!new)>(s: seq<T>): set<T> { set x | x in s }

  ghost predicate Within<T(!new)>(s: seq<T>, domain: set<T>) { forall x :: x in s ==> x in domain }

  /** The elements that satisfy `p`, in order. */
  function Filter<T(!new)>(p: T -> bool, s: seq<T>): seq<T> {
    if s == [] then []
    else Filter(p, s[..|s| - 1]) + if p(s[|s| - 1]) then [s[|s| - 1]] else []
  }

  lemma {:induction false} FilterMembers<T(!new)>(p: T -> bool, s: seq<T>)
    ensures forall x :: x in Filter(p, s) <==> x in s && p(x)
  {
    if s != [] {
      assert s == s[..|s| - 1] + [s[|s| - 1]];
      FilterMembers(p, s[..|s| - 1]);
    }
  }

  lemma {:induction false} FilterNone<T(!new)>(p: T -> bool, s: seq<T>)
    requires forall x :: x in s ==> !p(x)
    ensures Filter(p, s) == []
  {
    if s != [] { FilterNone(p, s[..|s| - 1]); }
  }

  lemma {:induction false} FilterAll<T(!new)>(p: T -> bool, s: seq<T>)
    requires forall x :: x in s ==> p(x)
    ensures Filter(p, s) == s
  {
    if s != [] {
      var front, last := s[..|s| - 1], s[|s| - 1];
      FilterAll(p, front);
      assert Filter(p, s) == front + [last];
    }
  }

  lemma FilterLast<T(!new)>(p: T -> bool, s: seq<T>, x: T)
    ensures Filter(p, s + [x]) == Filter(p, s) + if p(x) then [x] else []
  {
    assert (s + [x])[..|s|] == s;
  }

  lemma {:induction false} FilterSwap<T(!new)>(p: T -> bool, q: T -> bool, s: seq<T>)
    ensures Filter(p, Filter(q, s)) == Filter(q, Filter(p, s))
  {
    if s != [] {
      var front, x := s[..|s| - 1], s[|s| - 1];
      FilterSwap(p, q, front);
      FilterLast(p, Filter(q, front), x);
      FilterLast(q, Filter(p, front), x);
      assert Filter(q, s) == if q(x) then Filter(q, front) + [x] else Filter(q, front);
      assert Filter(p, s) == if p(x) then Filter(p, front) + [x] else Filter(p, front);
    }
  }

  lemma {:induction false} FilterAppend<T(!new)>(p: T -> bool, a: seq<T>, b: seq<T>)
    ensures Filter(p, a + b) == Filter(p, a) + Filter(p, b)
  {
    if b == [] { assert a + b == a; }
    else {
      var c, n := a + b, |b| - 1;
      assert c[..|c| - 1] == a + b[..n] && c[|c| - 1] == b[n];
      FilterAppend(p, a, b[..n]);
    }
  }

  function Place<T(!new)>(less: (T, T) -> bool, x: T, s: seq<T>): (r: seq<T>)
    ensures multiset(r) == multiset(s) + multiset{x}
  {
    if s == [] || less(x, s[0]) then [x] + s
    else
      assert s == [s[0]] + s[1..];
      [s[0]] + Place(less, x, s[1..])
  }

  function Sort<T(!new)>(less: (T, T) -> bool, s: seq<T>): (r: seq<T>)
    ensures multiset(r) == multiset(s)
    ensures |r| == |s|
  {
    if s == [] then []
    else
      assert s == s[..|s| - 1] + [s[|s| - 1]];
      var r := Place(less, s[|s| - 1], Sort(less, s[..|s| - 1]));
      assert |r| == |multiset(r)| == |multiset(s)| == |s|;
      r
  }

  lemma SameMultisetSameElements<T(!new)>(a: seq<T>, b: seq<T>)
    requires multiset(a) == multiset(b)
    ensures |a| == |b| && forall x :: x in a <==> x in b
  {
    assert |a| == |multiset(a)| == |multiset(b)| == |b|;
    forall x ensures x in a <==> x in b { assert x in a <==> x in multiset(a); assert x in b <==> x in multiset(b); }
  }

  lemma {:induction false} PlaceOrdered<T(!new)>(less: (T, T) -> bool, domain: set<T>, x: T, s: seq<T>)
    requires StrictTotal(less, domain) && Within(s, domain) && x in domain && x !in s && Ordered(less, s)
    ensures Ordered(less, Place(less, x, s))
  {
    if s != [] && !less(x, s[0]) {
      PlaceOrdered(less, domain, x, s[1..]);
      var rest := Place(less, x, s[1..]);
      forall j | 0 <= j < |rest| ensures less(s[0], rest[j]) {
        assert rest[j] in multiset(rest);
        assert rest[j] in s[1..] || rest[j] == x;
      }
    } else if s != [] {
      forall k | 0 <= k < |s| ensures less(x, s[k]) { if k > 0 { assert less(s[0], s[k]); } }
    }
  }

  /** Sorting distinct elements orders them. */
  lemma {:induction false} SortOrdered<T(!new)>(less: (T, T) -> bool, domain: set<T>, s: seq<T>)
    requires StrictTotal(less, domain) && Within(s, domain) && NoDuplicates(s)
    ensures Ordered(less, Sort(less, s))
  {
    if s != [] {
      var front, last := s[..|s| - 1], s[|s| - 1];
      SortOrdered(less, domain, front);
      SameMultisetSameElements(front, Sort(less, front));
      PlaceOrdered(less, domain, last, Sort(less, front));
    }
  }

  lemma {:induction false} FilterOrdered<T(!new)>(less: (T, T) -> bool, p: T -> bool, s: seq<T>)
    requires Ordered(less, s)
    ensures Ordered(less, Filter(p, s))
  {
    if s != [] {
      var n := |s| - 1;
      FilterOrdered(less, p, s[..n]);
      FilterMembers(p, s[..n]);
      var front := Filter(p, s[..n]);
      forall k | 0 <= k < |front| ensures less(front[k], s[n]) {
        assert front[k] in front;
        var i :| 0 <= i < n && s[i] == front[k];
      }
    }
  }

  // ----- elements that may repeat

  lemma {:induction false} CountPlace<T(!new)>(less: (T, T) -> bool, p: T -> bool, x: T, s: seq<T>)
    ensures |Filter(p, Place(less, x, s))| == |Filter(p, s)| + if p(x) then 1 else 0
  {
    CountOne(p, x);
    if s == [] || less(x, s[0]) { FilterAppend(p, [x], s); }
    else {
      CountPlace(less, p, x, s[1..]);
      FilterAppend(p, [s[0]], s[1..]);
      FilterAppend(p, [s[0]], Place(less, x, s[1..]));
      assert s == [s[0]] + s[1..];
    }
  }

  lemma CountOne<T(!new)>(p: T -> bool, x: T)
    ensures |Filter(p, [x])| == if p(x) then 1 else 0
  {
    assert [x][..0] == [];
  }

  /** Sorting keeps how many elements satisfy `p`. */
  lemma {:induction false} CountSort<T(!new)>(less: (T, T) -> bool, p: T -> bool, s: seq<T>)
    ensures |Filter(p, Sort(less, s))| == |Filter(p, s)|
  {
    if s != [] {
      var front, x := s[..|s| - 1], s[|s| - 1];
      CountSort(less, p, front);
      CountPlace(less, p, x, Sort(less, front));
    }
  }

  /** There is only one ordered arrangement of the same elements. */
  lemma {:induction false} OrderedIsUnique<T(!new)>(less: (T, T) -> bool, domain: set<T>, a: seq<T>, b: seq<T>)
    requires StrictTotal(less, domain) && Within(a, domain)
    requires Ordered(less, a) && Ordered(less, b) && multiset(a) == multiset(b)
    ensures a == b
  {
    SameMultisetSameElements(a, b);
    if a != [] {
      hide StrictTotal;
      HeadsAgree(less, domain, a, b);
      TailsAgree(a, b);
      OrderedIsUnique(less, domain, a[1..], b[1..]);
      assert a == [a[0]] + a[1..] && b == [b[0]] + b[1..];
    }
  }

  lemma HeadsAgree<T(!new)>(less: (T, T) -> bool, domain: set<T>, a: seq<T>, b: seq<T>)
    requires StrictTotal(less, domain) && Within(a, domain) && a != [] && b != []
    requires Ordered(less, a) && Ordered(less, b) && forall x :: x in a <==> x in b
    ensures a[0] == b[0]
  {
    assert a[0] in b && b[0] in a;
    assert forall k :: 0 < k < |a| ==> less(a[0], a[k]);
    assert forall k :: 0 < k < |b| ==> less(b[0], b[k]);
    var i :| 0 <= i < |b| && b[i] == a[0];
    var j :| 0 <= j < |a| && a[j] == b[0];
  }

  lemma TailsAgree<T>(a: seq<T>, b: seq<T>)
    requires multiset(a) == multiset(b) && a != [] && b != [] && a[0] == b[0]
    ensures multiset(a[1..]) == multiset(b[1..])
  {
    assert a == [a[0]] + a[1..] && b == [b[0]] + b[1..];
    assert multiset(a[1..]) == multiset(a) - multiset{a[0]};
    assert multiset(b[1..]) == multiset(b) - multiset{b[0]};
  }

  lemma {:induction false} DistinctMultiplicity<T(!new)>(s: seq<T>)
    requires NoDuplicates(s)
    ensures forall x :: multiset(s)[x] == if x in s then 1 else 0
  {
    if s != [] {
      var front, last := s[..|s| - 1], s[|s| - 1];
      assert s == front + [last];
      DistinctMultiplicity(front);
    }
  }

  lemma DistinctSameMultiset<T(!new)>(a: seq<T>, b: seq<T>)
    requires NoDuplicates(a) && NoDuplicates(b) && forall x :: x in a <==> x in b
    ensures multiset(a) == multiset(b)
  {
    DistinctMultiplicity(a);
    DistinctMultiplicity(b);
  }

  /** The sorted result depends only on which elements there are. */
  lemma SortIgnoresOrder<T(!new)>(less: (T, T) -> bool, domain: set<T>, a: seq<T>, b: seq<T>)
    requires StrictTotal(less, domain) && Within(a, domain) && NoDuplicates(a) && NoDuplicates(b)
    requires multiset(a) == multiset(b)
    ensures Sort(less, a) == Sort(less, b)
  {
    SameMultisetSameElements(a, b);
    SortOrdered(less, domain, a);
    SortOrdered(less, domain, b);
    SameMultisetSameElements(a, Sort(less, a));
    OrderedIsUnique(less, domain, Sort(less, a), Sort(less, b));
  }

  /** Sorting two groups, all of the first before all of the second, sorts each. */
  lemma SortGroups<T(!new)>(less: (T, T) -> bool, domain: set<T>, a: seq<T>, b: seq<T>)
    requires StrictTotal(less, domain) && Within(a + b, domain) && NoDuplicates(a + b)
    requires forall x, y :: x in a && y in b ==> less(x, y)
    ensures Sort(less, a + b) == Sort(less, a) + Sort(less, b)
  {
    hide Sort, StrictTotal;
    assert forall k :: 0 <= k < |a| ==> (a + b)[k] == a[k];
    assert forall k :: 0 <= k < |b| ==> (a + b)[|a| + k] == b[k];
    SortOrdered(less, domain, a);
    SortOrdered(less, domain, b);
    SortOrdered(less, domain, a + b);
    SameMultisetSameElements(a, Sort(less, a));
    SameMultisetSameElements(b, Sort(less, b));
    SameMultisetSameElements(a + b, Sort(less, a + b));
    OrderedIsUnique(less, domain, Sort(less, a + b), Sort(less, a) + Sort(less, b));
  }

  function Map<T, U>(f: T -> U, s: seq<T>): (r: seq<U>)
    ensures |r| == |s| && forall k :: 0 <= k < |s| ==> r[k] == f(s[k])
  {
    seq(|s|, k requires 0 <= k < |s| => f(s[k]))
  }

  lemma MapCons<T(!new), U(!new)>(f: T -> U, x: T, s: seq<T>)
    ensures Map(f, [x] + s) == [f(x)] + Map(f, s)
  {}

  lemma {:induction false} PlaceCommutes<T(!new), U(!new)>(less: (T, T) -> bool, less': (U,
                                           U) -> bool, f: T -> U, x: T, s: seq<T>)
    requires forall a, b :: less(a, b) == less'(f(a), f(b))
    ensures Map(f, Place(less, x, s)) == Place(less', f(x), Map(f, s))
  {
    hide Map;
    MapCons(f, x, s);
    if s != [] && !less(x, s[0]) {
      PlaceCommutes(less, less', f, x, s[1..]);
      assert s == [s[0]] + s[1..];
      MapCons(f, s[0], s[1..]);
      MapCons(f, s[0], Place(less, x, s[1..]));
      assert Map(f, s)[1..] == Map(f, s[1..]);
    }
  }

  /** Sorting by fields that `f` keeps commutes with `f`. */
  lemma {:induction false} SortCommutes<T(!new), U(!new)>(less: (T, T) -> bool, less': (U,
                                          U) -> bool, f: T -> U, s: seq<T>)
    requires forall a, b :: less(a, b) == less'(f(a), f(b))
    ensures Map(f, Sort(less, s)) == Sort(less', Map(f, s))
  {
    if s != [] {
      var n := |s| - 1;
      SortCommutes(less, less', f, s[..n]);
      PlaceCommutes(less, less', f, s[n], Sort(less, s[..n]));
      assert Map(f, s)[..n] == Map(f, s[..n]);
    }
  }

  ghost function Ahead<T(!new)>(less: (T, T) -> bool, s: seq<T>, x: T): set<T> { set y | y in s && less(y, x) }

  /** In an ordered sequence the element at position k has exactly k ahead of it. */
  lemma PositionCountsAhead<T(!new)>(less: (T, T) -> bool, domain: set<T>, s: seq<T>, k: nat)
    requires StrictTotal(less, domain) && Within(s, domain) && Ordered(less, s) && k < |s|
    ensures |Ahead(less, s, s[k])| == k
  {
    var front := s[..k];
    forall i | k < i < |s| ensures !less(s[i], s[k]) { assert less(s[k], s[i]); }
    forall y ensures y in Ahead(less, s, s[k]) <==> y in front {
      if y in Ahead(less, s, s[k]) {
        var i :| 0 <= i < |s| && s[i] == y;
      }
    }
    assert Ahead(less, s, s[k]) == set y | y in front;
    CardinalityOfDistinct(front);
  }

  /** The positions in `s` of the elements ahead of s[x], in whatever order `s` is. */
  ghost function AheadAt<T(!new)>(less: (T, T) -> bool, s: seq<T>, x: nat): set<nat>
    requires x < |s|
  {
    set y | 0 <= y < |s| && less(s[y], s[x])
  }

  lemma {:induction false} PositionsAndElements<T(!new)>(s: seq<T>, positions: set<nat>)
    requires NoDuplicates(s) && forall p :: p in positions ==> p < |s|
    ensures |set p | p in positions :: s[p]| == |positions|
    decreases |positions|
  {
    if positions != {} {
      var q :| q in positions;
      PositionsAndElements(s, positions - {q});
      assert (set p | p in positions :: s[p]) == (set p | p in positions - {q} :: s[p]) + {s[q]};
    }
  }

  /** Sorting puts each element at the position given by the number ahead of it. */
  lemma SortedPosition<T(!new)>(less: (T, T) -> bool, domain: set<T>, s: seq<T>, x: nat)
    requires StrictTotal(less, domain) && Within(s, domain) && NoDuplicates(s) && x < |s|
    ensures |AheadAt(less, s, x)| < |s| && Sort(less, s)[|AheadAt(less, s, x)|] == s[x]
  {
    hide StrictTotal, Sort, NoDuplicates;
    var sorted := Sort(less, s);
    SortOrdered(less, domain, s);
    SameMultisetSameElements(s, sorted);
    assert s[x] in sorted;
    var k :| 0 <= k < |sorted| && sorted[k] == s[x];
    PositionCountsAhead(less, domain, sorted, k);
    PositionsAndElements(s, AheadAt(less, s, x));
    assert Ahead(less, sorted, s[x]) == set p | p in AheadAt(less, s, x) :: s[p];
  }
}
