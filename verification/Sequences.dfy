/** Sequences without repetition, and their cardinalities. */
module Sequences {
  ghost predicate Distinct<T>(s: seq<T>) {
    forall i, j :: 0 <= i < j < |s| ==> s[i] != s[j]
  }

  ghost function Elements<T>(s: seq<T>): (r: set<T>) {
    set x | x in s
  }

  lemma ElementsAppend<T>(s: seq<T>, x: T)
    ensures Elements(s + [x]) == Elements(s) + {x}
  {
    assert forall y :: y in s + [x] <==> y in s || y == x;
  }

  lemma {:induction false} DistinctCardinality<T>(s: seq<T>)
    requires Distinct(s)
    ensures |Elements(s)| == |s|
  {
    if s != [] {
      var init, x := s[..|s| - 1], s[|s| - 1];
      DistinctCardinality(init);
      assert s == init + [x];
      assert Elements(s) == Elements(init) + {x};
      assert x !in init;
    }
  }

  lemma SubsetCardinality<T>(a: set<T>, b: set<T>)
    requires a <= b
    ensures |a| <= |b|
    ensures |a| == |b| ==> a == b
  {
    assert b == a + (b - a);
  }

  lemma {:induction false} DistinctMultiset<T>(s: seq<T>)
    ensures Distinct(s) <==> forall x :: x in s ==> multiset(s)[x] == 1
  {
    if s != [] {
      var init, x := s[..|s| - 1], s[|s| - 1];
      DistinctMultiset(init);
      assert s == init + [x];
      assert multiset(s) == multiset(init) + multiset{x};
      assert x in init <==> x in multiset(init);
      assert Distinct(s) <==> Distinct(init) && x !in init;
      assert (forall y :: y in s ==> multiset(s)[y] == 1)
        <==> x !in init && (forall y :: y in init ==> multiset(init)[y] == 1) by {
        assert multiset(s)[x] == multiset(init)[x] + 1;
        assert forall y :: y in s <==> y in init || y == x;
        assert forall y :: y != x ==> multiset(s)[y] == multiset(init)[y];
      }
    }
  }

  /** Any rearrangement of a repetition-free sequence is repetition-free. */
  lemma DistinctPermutation<T>(s: seq<T>, t: seq<T>)
    requires Distinct(s) && multiset(s) == multiset(t)
    ensures Distinct(t)
    ensures Elements(s) == Elements(t)
  {
    DistinctMultiset(s);
    DistinctMultiset(t);
    assert forall x :: x in s <==> x in multiset(s);
    assert forall x :: x in t <==> x in multiset(t);
  }

  // ---------- counting ----------

  function Count<T>(s: seq<T>, f: T -> bool): (n: nat)
    decreases |s|
  {
    if s == [] then 0 else Count(s[..|s| - 1], f) + if f(s[|s| - 1]) then 1 else 0
  }

  lemma {:induction false} CountSplits<T>(a: seq<T>, b: seq<T>, f: T -> bool)
    ensures Count(a + b, f) == Count(a, f) + Count(b, f)
    decreases |b|
  {
    if b == [] {
      assert a + b == a;
    } else {
      CountSplits(a, b[..|b| - 1], f);
      assert (a + b)[..|a + b| - 1] == a + b[..|b| - 1];
    }
  }

  lemma CountOne<T>(x: T, f: T -> bool)
    ensures Count([x], f) == if f(x) then 1 else 0
  {
    assert [x][..0] == [];
  }

  lemma CountWithout<T>(s: seq<T>, i: nat, f: T -> bool)
    requires i < |s|
    ensures Count(s, f) == Count(s[..i] + s[i + 1..], f) + if f(s[i]) then 1 else 0
  {
    hide Count;
    var a, b := s[..i], s[i + 1..];
    assert s == (a + [s[i]]) + b;
    CountSplits(a + [s[i]], b, f);
    CountSplits(a, [s[i]], f);
    CountSplits(a, b, f);
    CountOne(s[i], f);
  }

  lemma CountUpdated<T>(s: seq<T>, i: nat, x: T, f: T -> bool)
    requires i < |s|
    ensures Count(s[i := x], f) + (if f(s[i]) then 1 else 0) == Count(s, f) + (if f(x) then 1 else 0)
  {
    CountWithout(s, i, f);
    CountWithout(s[i := x], i, f);
    assert s[i := x][..i] + s[i := x][i + 1..] == s[..i] + s[i + 1..];
  }

  /** The elements of a set, each once, in the arbitrary order of a map iteration. */
  method Listing<T(==)>(all: set<T>) returns (s: seq<T>)
    ensures Distinct(s) && Elements(s) == all
  {
    s := [];
    var unvisited := all;
    while unvisited != {}
      invariant Distinct(s) && unvisited <= all
      invariant Elements(s) == all - unvisited
      decreases unvisited
    {
      var x :| x in unvisited;
      assert x !in Elements(s);
      ElementsAppend(s, x);
      s, unvisited := s + [x], unvisited - {x};
    }
  }

  /** Fisher-Yates with an arbitrary choice at each step, as the standard library's Shuffle does it. */
  method Shuffle<T>(a: array<T>)
    modifies a
    ensures multiset(a[..]) == multiset(old(a[..]))
  {
    var i := a.Length - 1;
    while i > 0
      invariant multiset(a[..]) == multiset(old(a[..]))
    {
      var j :| 0 <= j <= i;
      a[i], a[j] := a[j], a[i];
      i := i - 1;
    }
  }

  /** A random choice of at most `k` elements: all of them, or the first `k` after a shuffle. */
  method RandomChoice<T>(s: seq<T>, k: nat) returns (r: seq<T>)
    requires Distinct(s)
    ensures Distinct(r) && Elements(r) <= Elements(s)
    ensures |r| == if |s| < k then |s| else k
  {
    if |s| <= k {
      return s;
    }
    var a := new T[|s|](i requires 0 <= i < |s| => s[i]);
    assert a[..] == s;
    Shuffle(a);
    DistinctPermutation(s, a[..]);
    r := a[..k];
    assert forall x :: x in r ==> x in Elements(a[..]);
  }
}
