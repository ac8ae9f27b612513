/**
 * Python list operations used by the caches and stores: `list.remove(x)`
 * (first occurrence only) and the "no duplicates" property.
 */
module PyList {

  predicate Distinct<T(==)>(s: seq<T>)
  {
    forall i, j :: 0 <= i < j < |s| ==> s[i] != s[j]
  }

  /** `s.remove(x)` when `x` may be absent: the first occurrence goes, the rest stays. */
  function RemoveFirst<T(==)>(s: seq<T>, x: T): (r: seq<T>)
    ensures multiset(r) == multiset(s) - multiset{x}
    ensures |r| == if x in s then |s| - 1 else |s|
  {
    if s == [] then []
    else if s[0] == x then
      assert s == [s[0]] + s[1..];
      s[1..]
    else
      assert s == [s[0]] + s[1..];
      [s[0]] + RemoveFirst(s[1..], x)
  }

  lemma {:induction false} RemoveFirstAbsent<T>(s: seq<T>, x: T)
    requires x !in s
    ensures RemoveFirst(s, x) == s
  {
    if s != [] {
      RemoveFirstAbsent(s[1..], x);
    }
  }

  /** Every element other than `x` keeps its membership. */
  lemma RemoveFirstMembers<T>(s: seq<T>, x: T, y: T)
    requires y != x
    ensures y in RemoveFirst(s, x) <==> y in s
  {
    assert multiset(RemoveFirst(s, x))[y] == multiset(s)[y];
  }

  lemma {:induction false} RemoveFirstDistinct<T>(s: seq<T>, x: T)
    requires Distinct(s)
    ensures Distinct(RemoveFirst(s, x)) && x !in RemoveFirst(s, x)
  {
    if s != [] {
      TailDistinct(s);
      if s[0] != x {
        var rest := RemoveFirst(s[1..], x);
        RemoveFirstDistinct(s[1..], x);
        assert s[0] !in rest by {
          assert multiset(rest)[s[0]] <= multiset(s[1..])[s[0]];
        }
        PrependDistinct(s[0], rest);
      }
    }
  }

  lemma PrependDistinct<T>(a: T, s: seq<T>)
    requires Distinct(s) && a !in s
    ensures Distinct([a] + s)
  {
    var r := [a] + s;
    forall i, j | 0 <= i < j < |r| ensures r[i] != r[j] {
      assert r[j] == s[j - 1];
      if i > 0 {
        assert r[i] == s[i - 1];
      }
    }
  }

  /** Appending a fresh element keeps a list duplicate-free. */
  lemma AppendDistinct<T>(s: seq<T>, x: T)
    requires Distinct(s) && x !in s
    ensures Distinct(s + [x])
  {
    var r := s + [x];
    forall i, j | 0 <= i < j < |r| ensures r[i] != r[j] {
      if j == |s| {
        assert r[i] == s[i];
      } else {
        assert r[i] == s[i] && r[j] == s[j];
      }
    }
  }

  /** Dropping the head keeps a list duplicate-free. */
  lemma TailDistinct<T>(s: seq<T>)
    requires Distinct(s) && |s| > 0
    ensures Distinct(s[1..]) && s[0] !in s[1..]
  {
    forall i, j | 0 <= i < j < |s[1..]| ensures s[1..][i] != s[1..][j] {
      assert s[1..][i] == s[i + 1] && s[1..][j] == s[j + 1];
    }
    forall j | 0 <= j < |s[1..]| ensures s[1..][j] != s[0] {
      assert s[1..][j] == s[j + 1];
    }
  }

  /** A duplicate-free list has as many elements as its set. */
  lemma {:induction false} DistinctSetSize<T>(s: seq<T>)
    requires Distinct(s)
    ensures |set x | x in s| == |s|
  {
    if s != [] {
      TailDistinct(s);
      DistinctSetSize(s[1..]);
      assert (set x | x in s) == {s[0]} + (set x | x in s[1..]);
    }
  }

  /** The elements of `s` outside `xs`, in order. */
  function FilterOut<T(==,!new)>(s: seq<T>, xs: set<T>): (r: seq<T>)
    ensures forall i :: 0 <= i < |r| ==> r[i] in s && r[i] !in xs
    ensures forall x :: x in s && x !in xs ==> x in r
  {
    if s == [] then []
    else if s[0] in xs then FilterOut(s[1..], xs)
    else [s[0]] + FilterOut(s[1..], xs)
  }

  lemma {:induction false} FilterOutNone<T(!new)>(s: seq<T>, xs: set<T>)
    requires forall x :: x in s ==> x !in xs
    ensures FilterOut(s, xs) == s
  {
    if s != [] {
      FilterOutNone(s[1..], xs);
      assert s == [s[0]] + s[1..];
    }
  }

  /** On a duplicate-free list, `remove(x)` drops every occurrence of `x`. */
  lemma {:induction false} RemoveFirstFilter<T(!new)>(s: seq<T>, x: T)
    requires Distinct(s)
    ensures RemoveFirst(s, x) == FilterOut(s, {x})
  {
    if s != [] {
      TailDistinct(s);
      if s[0] == x {
        FilterOutNone(s[1..], {x});
      } else {
        RemoveFirstFilter(s[1..], x);
      }
    }
  }

  lemma {:induction false} FilterOutTwice<T(!new)>(s: seq<T>, a: set<T>, b: set<T>)
    ensures FilterOut(FilterOut(s, a), b) == FilterOut(s, a + b)
  {
    if s != [] {
      FilterOutTwice(s[1..], a, b);
    }
  }
}
