/**
 Small shared vocabulary: optional values, results with an error, and the
 sequence operations the graph code performs on its `std::vector`s
 (erase-first-by-value, replace-all-by-value, membership without duplicates).
 */
module Common {

  datatype Option<+T> = None | Some(value: T)

  datatype Result<+T, +E> = Ok(value: T) | Err(error: E)

  /** No element occurs twice. */
  predicate Distinct<T(==)>(s: seq<T>)
  {
    forall i, j :: 0 <= i < j < |s| ==> s[i] != s[j]
  }

  /** `std::find` followed by `erase`: drop the first occurrence of `x`, if any. */
  function RemoveFirst<T(==)>(s: seq<T>, x: T): (r: seq<T>)
    ensures x !in s ==> r == s
    ensures x in s ==> |r| == |s| - 1
    ensures forall y :: y in r ==> y in s
    ensures forall y :: y in s && y != x ==> y in r
  {
    if s == [] then []
    else if s[0] == x then s[1..] else [s[0]] + RemoveFirst(s[1..], x)
  }

  /** Erasing the first occurrence takes exactly one copy of `x` out, when there is one. */
  lemma {:induction false} RemoveFirstMultiset<T>(s: seq<T>, x: T)
    ensures multiset(RemoveFirst(s, x)) == multiset(s) - multiset{x}
  {
    if s != [] {
      assert s == [s[0]] + s[1..];
      if s[0] != x {
        RemoveFirstMultiset(s[1..], x);
      }
    }
  }

  /** Keep the elements of `s` that are not in `xs`, in order. */
  function Without<T(==)>(s: seq<T>, xs: set<T>): (r: seq<T>)
    ensures forall y :: y in r ==> y in s && y !in xs
    ensures forall y :: y in s && y !in xs ==> y in r
    ensures |r| <= |s|
  {
    if s == [] then []
    else if s[0] in xs then Without(s[1..], xs)
    else [s[0]] + Without(s[1..], xs)
  }

  /** Every occurrence of `x` in `s` becomes `y`; other positions are kept. */
  function ReplaceAll<T(==)>(s: seq<T>, x: T, y: T): (r: seq<T>)
    ensures |r| == |s|
    ensures forall i :: 0 <= i < |s| ==> r[i] == if s[i] == x then y else s[i]
  {
    seq(|s|, i requires 0 <= i < |s| => if s[i] == x then y else s[i])
  }

  /** After replacing `x` by `y`, an element occurs when it occurred and is not `x`, or is `y` and `x` occurred. */
  lemma ReplaceAllMembers<T>(s: seq<T>, x: T, y: T, u: T)
    ensures u in ReplaceAll(s, x, y) <==> (u in s && u != x) || (u == y && x in s)
  {
    var r := ReplaceAll(s, x, y);
    if u in r {
      var i :| 0 <= i < |r| && r[i] == u;
      assert s[i] in s;
    }
    if u in s && u != x {
      var i :| 0 <= i < |s| && s[i] == u;
      assert r[i] == u;
    }
    if u == y && x in s {
      var i :| 0 <= i < |s| && s[i] == x;
      assert r[i] == y;
    }
  }

  /** The elements of a sequence. */
  function Elems<T>(s: seq<T>): set<T>
  {
    set x | x in s
  }

  /** A prefix one longer is the prefix followed by the next element. */
  lemma PrefixSnoc<T>(s: seq<T>, j: nat)
    requires j < |s|
    ensures s[..j + 1] == s[..j] + [s[j]]
  {
  }

  /** The tail of a duplicate-free sequence is duplicate-free and misses the head. */
  lemma DistinctTail<T>(s: seq<T>)
    requires Distinct(s) && s != []
    ensures Distinct(s[1..]) && s[0] !in s[1..]
  {
    forall i, j | 0 <= i < j < |s[1..]| ensures s[1..][i] != s[1..][j] {
      assert s[1..][i] == s[i + 1] && s[1..][j] == s[j + 1];
    }
    forall k | 0 <= k < |s[1..]| ensures s[1..][k] != s[0] {
      assert s[1..][k] == s[k + 1];
    }
  }

  /** Putting a fresh element in front keeps a sequence duplicate-free. */
  lemma DistinctCons<T>(a: T, t: seq<T>)
    requires Distinct(t) && a !in t
    ensures Distinct([a] + t)
  {
    var s := [a] + t;
    forall i, j | 0 <= i < j < |s| ensures s[i] != s[j] {
      assert s[j] == t[j - 1];
      if i > 0 {
        assert s[i] == t[i - 1];
      }
    }
  }

  /** Appending a fresh element keeps a sequence duplicate-free. */
  lemma DistinctSnoc<T>(s: seq<T>, x: T)
    requires Distinct(s) && x !in s
    ensures Distinct(s + [x])
  {
    var r := s + [x];
    forall i, j | 0 <= i < j < |r| ensures r[i] != r[j] {
      assert r[i] == s[i];
      if j < |s| {
        assert r[j] == s[j];
      }
    }
  }

  /** On a sequence without duplicates, removing the first occurrence removes them all. */
  lemma {:induction false} RemoveFirstDistinct<T>(s: seq<T>, x: T)
    requires Distinct(s)
    ensures Distinct(RemoveFirst(s, x))
    ensures RemoveFirst(s, x) == Without(s, {x})
  {
    if s != [] {
      DistinctTail(s);
      RemoveFirstDistinct(s[1..], x);
      if s[0] == x {
        WithoutAbsent(s[1..], {x});
      } else {
        DistinctCons(s[0], RemoveFirst(s[1..], x));
      }
    }
  }

  /** Erasing from a duplicate-free sequence takes exactly that element out of its set of elements. */
  lemma RemoveFirstElems<T>(s: seq<T>, x: T)
    requires Distinct(s)
    ensures Distinct(RemoveFirst(s, x)) && Elems(RemoveFirst(s, x)) == Elems(s) - {x}
  {
    RemoveFirstDistinct(s, x);
  }

  /** Erasing two values from a duplicate-free list leaves exactly the others. */
  lemma RemoveTwoElems<T>(s: seq<T>, x: T, y: T)
    requires Distinct(s)
    ensures Distinct(RemoveFirst(RemoveFirst(s, x), y))
    ensures Elems(RemoveFirst(RemoveFirst(s, x), y)) == Elems(s) - {x, y}
  {
    RemoveFirstElems(s, x);
    RemoveFirstElems(RemoveFirst(s, x), y);
  }

  /** Filtering out elements that do not occur changes nothing. */
  lemma {:induction false} WithoutAbsent<T>(s: seq<T>, xs: set<T>)
    requires forall y :: y in s ==> y !in xs
    ensures Without(s, xs) == s
  {
    if s != [] {
      WithoutAbsent(s[1..], xs);
    }
  }

  /** Filtering twice is filtering once by the union. */
  lemma {:induction false} WithoutWithout<T>(s: seq<T>, xs: set<T>, ys: set<T>)
    ensures Without(Without(s, xs), ys) == Without(s, xs + ys)
  {
    if s != [] {
      WithoutWithout(s[1..], xs, ys);
    }
  }

  /** Filtering keeps a sequence free of duplicates. */
  lemma {:induction false} WithoutDistinct<T>(s: seq<T>, xs: set<T>)
    requires Distinct(s)
    ensures Distinct(Without(s, xs))
  {
    if s != [] {
      DistinctTail(s);
      WithoutDistinct(s[1..], xs);
      if s[0] !in xs {
        DistinctCons(s[0], Without(s[1..], xs));
      }
    }
  }

  /** A duplicate-free sequence has as many distinct elements as positions. */
  lemma {:induction false} DistinctCard<T>(s: seq<T>)
    requires Distinct(s)
    ensures |Elems(s)| == |s|
  {
    if s != [] {
      DistinctTail(s);
      DistinctCard(s[1..]);
      assert Elems(s) == Elems(s[1..]) + {s[0]};
      assert s[0] !in s[1..];
    }
  }

  /** Any sequence has at most as many distinct elements as positions. */
  lemma {:induction false} SetCard<T>(s: seq<T>)
    ensures |Elems(s)| <= |s|
  {
    if s != [] {
      SetCard(s[1..]);
      assert Elems(s) == Elems(s[1..]) + {s[0]};
    }
  }

  /** A duplicate-free sequence holds each of its elements exactly once. */
  lemma {:induction false} DistinctMultiset<T>(s: seq<T>)
    requires Distinct(s)
    ensures multiset(s) == multiset(Elems(s))
  {
    if s != [] {
      DistinctTail(s);
      DistinctMultiset(s[1..]);
      assert s == [s[0]] + s[1..];
      assert Elems(s) == Elems(s[1..]) + {s[0]};
    }
  }

  /** A subset is no larger than its superset, and equally large only when it is the whole. */
  lemma SubsetCard<T>(a: set<T>, b: set<T>)
    requires a <= b
    ensures |a| <= |b|
    ensures |a| == |b| ==> a == b
  {
    assert b == a + (b - a);
  }

  /**
   A duplicate-free sequence whose elements all occur in `q` is no longer
   than `q`, and when it is as long it has exactly `q`'s elements.
   */
  lemma DistinctSubsetLength<T>(p: seq<T>, q: seq<T>)
    requires Distinct(p) && Elems(p) <= Elems(q)
    ensures |p| <= |q|
    ensures |p| == |q| ==> Elems(p) == Elems(q)
  {
    DistinctCard(p);
    SetCard(q);
    SubsetCard(Elems(p), Elems(q));
  }

  /**
   Two duplicate-free sequences with the same elements are permutations of
   each other.
   */
  lemma DistinctSameSetPermutation<T>(s: seq<T>, t: seq<T>)
    requires Distinct(s) && Distinct(t)
    requires forall x :: x in s <==> x in t
    ensures multiset(s) == multiset(t)
  {
    DistinctMultiset(s);
    DistinctMultiset(t);
    assert Elems(s) == Elems(t);
  }
}
