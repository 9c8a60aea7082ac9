/** Filtering and mapping sequences, and what both do to the number of times a value occurs. */
module SeqFilter {
  function Filter<T>(p: T -> bool, s: seq<T>): seq<T> {
    if s == [] then [] else
      var rest := Filter(p, s[..|s| - 1]);
      if p(s[|s| - 1]) then rest + [s[|s| - 1]] else rest
  }

  function Map<T, U>(f: T -> U, s: seq<T>): (r: seq<U>)
    ensures |r| == |s|
    ensures forall i | 0 <= i < |s| :: r[i] == f(s[i])
  {
    seq(|s|, i requires 0 <= i < |s| => f(s[i]))
  }

  lemma {:induction false} FilterCount<T>(p: T -> bool, s: seq<T>, x: T)
    ensures multiset(Filter(p, s))[x] == if p(x) then multiset(s)[x] else 0
  {
    if s != [] {
      FilterCount(p, s[..|s| - 1], x);
      assert s == s[..|s| - 1] + [s[|s| - 1]];
    }
  }

  lemma {:induction false} FilterMembers<T>(p: T -> bool, s: seq<T>)
    ensures |Filter(p, s)| <= |s|
    ensures forall x | x in Filter(p, s) :: x in s && p(x)
  {
    if s != [] {
      FilterMembers(p, s[..|s| - 1]);
    }
  }

  lemma {:induction false} FilterConcat<T>(p: T -> bool, a: seq<T>, b: seq<T>)
    ensures Filter(p, a + b) == Filter(p, a) + Filter(p, b)
  {
    if b == [] {
      assert a + b == a;
    } else {
      var last := |b| - 1;
      FilterConcat(p, a, b[..last]);
      assert (a + b)[..|a + b| - 1] == a + b[..last];
      assert (a + b)[|a + b| - 1] == b[last];
    }
  }

  lemma {:induction false} FilterAll<T>(p: T -> bool, s: seq<T>)
    requires forall x | x in s :: p(x)
    ensures Filter(p, s) == s
  {
    if s != [] {
      FilterAll(p, s[..|s| - 1]);
      assert s == s[..|s| - 1] + [s[|s| - 1]];
    }
  }

  lemma {:induction false} FilterNone<T>(p: T -> bool, s: seq<T>)
    requires forall x | x in s :: !p(x)
    ensures Filter(p, s) == []
  {
    if s != [] {
      FilterNone(p, s[..|s| - 1]);
    }
  }

  lemma {:induction false} FilterTwice<T>(p: T -> bool, q: T -> bool, s: seq<T>)
    ensures Filter(p, Filter(q, s)) == Filter(q, Filter(p, s))
  {
    if s != [] {
      var front, last := s[..|s| - 1], s[|s| - 1];
      FilterTwice(p, q, front);
      FilterConcat(p, Filter(q, front), [last]);
      FilterConcat(q, Filter(p, front), [last]);
      FilterOne(p, last);
      FilterOne(q, last);
    }
  }

  lemma FilterOne<T>(p: T -> bool, x: T)
    ensures Filter(p, [x]) == if p(x) then [x] else []
  {
    assert Filter(p, [x][..0]) == [];
  }

  lemma SameFilter<T(!new)>(p: T -> bool, q: T -> bool, s: seq<T>)
    requires forall x :: p(x) == q(x)
    ensures Filter(p, s) == Filter(q, s)
  {
    FilterAgrees(p, q, s);
  }

  /** Filters that agree on the members give the same sequence. */
  lemma {:induction false} FilterAgrees<T>(p: T -> bool, q: T -> bool, s: seq<T>)
    requires forall x | x in s :: p(x) == q(x)
    ensures Filter(p, s) == Filter(q, s)
  {
    if s != [] {
      FilterAgrees(p, q, s[..|s| - 1]);
    }
  }

  /** Two filters one after the other are the filter of both tests. */
  lemma {:induction false} FilterBoth<T>(p: T -> bool, q: T -> bool, both: T -> bool, s: seq<T>)
    requires forall x | x in s :: both(x) == (p(x) && q(x))
    ensures Filter(p, Filter(q, s)) == Filter(both, s)
  {
    if s != [] {
      FilterBoth(p, q, both, s[..|s| - 1]);
      FilterConcat(p, Filter(q, s[..|s| - 1]), [s[|s| - 1]]);
      FilterOne(p, s[|s| - 1]);
    }
  }

  lemma FilterFewer<T(!new)>(p: T -> bool, s: seq<T>)
    ensures multiset(Filter(p, s)) <= multiset(s)
  {
    forall x: T ensures multiset(Filter(p, s))[x] <= multiset(s)[x] {
      FilterCount(p, s, x);
    }
  }

  /** A filter after a map is the filter of the composed test before it. */
  lemma {:induction false} FilterMap<T, U>(p: U -> bool, f: T -> U, q: T -> bool, s: seq<T>)
    requires forall x | x in s :: q(x) == p(f(x))
    ensures Filter(p, Map(f, s)) == Map(f, Filter(q, s))
  {
    if s != [] {
      var front, last := s[..|s| - 1], s[|s| - 1];
      FilterMap(p, f, q, front);
      assert Map(f, s)[..|s| - 1] == Map(f, front);
    }
  }

  lemma MapAgrees<T, U>(f: T -> U, g: T -> U, s: seq<T>)
    requires forall x | x in s :: f(x) == g(x)
    ensures Map(f, s) == Map(g, s)
  {
    assert forall i | 0 <= i < |s| :: s[i] in s;
  }

  lemma MapConcat<T, U>(f: T -> U, a: seq<T>, b: seq<T>)
    ensures Map(f, a + b) == Map(f, a) + Map(f, b)
  {
  }

  /** Reordering the members reorders the filtered and the mapped sequence. */
  lemma FilterReordered<T(!new)>(p: T -> bool, a: seq<T>, b: seq<T>)
    requires multiset(a) == multiset(b)
    ensures multiset(Filter(p, a)) == multiset(Filter(p, b))
  {
    forall x: T ensures multiset(Filter(p, a))[x] == multiset(Filter(p, b))[x] {
      FilterCount(p, a, x);
      FilterCount(p, b, x);
    }
  }

  function Without<T>(s: seq<T>, j: nat): (r: seq<T>)
    requires j < |s|
    ensures |r| == |s| - 1
  {
    s[..j] + s[j + 1..]
  }

  lemma WithoutCount<T>(s: seq<T>, j: nat)
    requires j < |s|
    ensures multiset(s) == multiset(Without(s, j)) + multiset{s[j]}
  {
    assert s == s[..j] + [s[j]] + s[j + 1..];
  }

  lemma MapWithout<T, U>(f: T -> U, s: seq<T>, j: nat)
    requires j < |s|
    ensures multiset(Map(f, s)) == multiset(Map(f, Without(s, j))) + multiset{f(s[j])}
  {
    WithoutCount(Map(f, s), j);
    assert Map(f, Without(s, j)) == Without(Map(f, s), j);
  }

  lemma SameRest<T>(a: multiset<T>, b: multiset<T>, x: T)
    requires a + multiset{x} == b + multiset{x}
    ensures a == b
  {
    assert a == (a + multiset{x}) - multiset{x};
    assert b == (b + multiset{x}) - multiset{x};
  }

  lemma PlaceOf<T>(s: seq<T>, x: T) returns (j: nat)
    requires x in multiset(s)
    ensures j < |s| && s[j] == x
  {
    j :| j < |s| && s[j] == x;
  }

  lemma {:induction false} MapReordered<T, U>(f: T -> U, a: seq<T>, b: seq<T>)
    requires multiset(a) == multiset(b)
    ensures multiset(Map(f, a)) == multiset(Map(f, b))
    decreases |a|
  {
    hide Map;
    assert |a| == |multiset(a)| == |b|;
    if a == [] {
      assert a == b;
    } else {
      assert a[0] in multiset(a);
      var j := PlaceOf(b, a[0]);
      WithoutCount(a, 0);
      WithoutCount(b, j);
      hide Without;
      SameRest(multiset(Without(a, 0)), multiset(Without(b, j)), a[0]);
      MapReordered(f, Without(a, 0), Without(b, j));
      MapWithout(f, a, 0);
      MapWithout(f, b, j);
    }
  }

  lemma SmallerMultiset<T>(a: multiset<T>, b: multiset<T>)
    requires a <= b
    ensures |a| <= |b|
  {
    assert b == a + (b - a);
  }

  /** Part of the images of a sequence are the images of part of it, and the other images those of the rest. */
  lemma {:induction false} Preimages<T, U>(f: T -> U, s: seq<T>, r: seq<U>) returns (picked: seq<T>, rest: seq<T>)
    requires multiset(r) <= multiset(Map(f, s))
    ensures Map(f, picked) == r
    ensures multiset(s) == multiset(picked) + multiset(rest)
    ensures multiset(Map(f, s)) == multiset(r) + multiset(Map(f, rest))
    decreases |r|
  {
    hide Map;
    if r == [] {
      picked, rest := [], s;
      assert Map(f, picked) == r;
    } else {
      var front, last := r[..|r| - 1], r[|r| - 1];
      assert r == front + [last];
      assert multiset(r) == multiset(front) + multiset{last};
      assert last in multiset(r);
      var j := PlaceOf(Map(f, s), last);
      MapAt(f, s, j);
      WithoutCount(s, j);
      MapWithout(f, s, j);
      FewerWithout(multiset(front), multiset(Map(f, Without(s, j))), last);
      picked, rest := Preimages(f, Without(s, j), front);
      MapConcat(f, picked, [s[j]]);
      MapOne(f, s[j]);
      picked := picked + [s[j]];
    }
  }

  lemma FewerWithout<T>(a: multiset<T>, b: multiset<T>, x: T)
    requires a + multiset{x} <= b + multiset{x}
    ensures a <= b
  {
    assert a == (a + multiset{x}) - multiset{x};
    assert b == (b + multiset{x}) - multiset{x};
  }

  lemma MapAt<T, U>(f: T -> U, s: seq<T>, j: nat)
    ensures |Map(f, s)| == |s|
    ensures j < |s| ==> Map(f, s)[j] == f(s[j])
  {
  }

  lemma MapOne<T, U>(f: T -> U, x: T)
    ensures Map(f, [x]) == [f(x)]
  {
  }

  /** The places of a sequence at which a test holds. */
  function Places<T>(p: T -> bool, s: seq<T>): set<nat> {
    set i: nat | i < |s| && p(s[i])
  }

  lemma OneMorePlace<T>(p: T -> bool, s: seq<T>)
    requires s != []
    ensures |Places(p, s)| == |Places(p, s[..|s| - 1])| + if p(s[|s| - 1]) then 1 else 0
  {
    var last := |s| - 1;
    var front := Places(p, s[..last]);
    assert last !in front;
    assert Places(p, s) == front + if p(s[last]) then {last} else {};
  }

  /** The length of what a filter keeps is the number of places it keeps. */
  lemma {:induction false} FilterPlaces<T>(p: T -> bool, s: seq<T>)
    ensures |Filter(p, s)| == |Places(p, s)|
  {
    hide Places;
    if s == [] {
      NoPlaces(p);
    } else {
      FilterPlaces(p, s[..|s| - 1]);
      OneMorePlace(p, s);
    }
  }

  lemma NoPlaces<T>(p: T -> bool)
    ensures Places(p, []) == {}
  {
  }
}
