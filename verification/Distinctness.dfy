/** Sequences without repetition, and the counting arguments about them. */
module Distinctness {

  ghost predicate Distinct<T>(s: seq<T>) {
    forall i, j :: 0 <= i < j < |s| ==> s[i] != s[j]
  }

  function Elements<T>(s: seq<T>): set<T> {
    set x | x in s
  }

  lemma {:induction false} SizeIsDistinct<T>(s: seq<T>)
    ensures |Elements(s)| <= |s|
    ensures |Elements(s)| == |s| <==> Distinct(s)
  {
    if s == [] {
      assert Elements(s) == {};
    } else {
      var rest := s[1..];
      SizeIsDistinct(rest);
      assert Elements(s) == {s[0]} + Elements(rest);
      if s[0] in rest {
        assert Elements(s) == Elements(rest);
        var k :| 0 <= k < |rest| && rest[k] == s[0];
        assert s[0] == s[k + 1];
      } else {
        assert forall j :: 0 < j < |s| ==> s[j] == rest[j - 1];
        if Distinct(rest) {
          forall i, j | 0 <= i < j < |s| ensures s[i] != s[j] {
            assert s[j] == rest[j - 1];
            if i > 0 {
              assert s[i] == rest[i - 1];
            }
          }
        }
        if Distinct(s) {
          forall i, j | 0 <= i < j < |rest| ensures rest[i] != rest[j] {
            assert s[i + 1] != s[j + 1];
          }
        }
      }
    }
  }

  /** A sequence without repetition counts each of its elements once. */
  lemma {:induction false} DistinctCounts<T>(s: seq<T>, x: T)
    requires Distinct(s)
    ensures multiset(s)[x] == if x in s then 1 else 0
  {
    if s != [] {
      assert s == [s[0]] + s[1..];
      DistinctCounts(s[1..], x);
    }
  }

  lemma {:induction false} TwiceCounts<T>(s: seq<T>, i: nat, j: nat)
    requires i < j < |s| && s[i] == s[j]
    ensures multiset(s)[s[i]] >= 2
  {
    assert s == s[..j] + s[j..];
    assert s[i] == s[..j][i] && s[j] == s[j..][0];
    assert s[i] in multiset(s[..j]) && s[j] in multiset(s[j..]);
  }

  /** And a sequence that counts each of its elements once has no repetition. */
  lemma {:induction false} CountedOnceIsDistinct<T>(s: seq<T>)
    requires forall x :: x in s ==> multiset(s)[x] == 1
    ensures Distinct(s)
  {
    forall i, j | 0 <= i < j < |s| ensures s[i] != s[j] {
      if s[i] == s[j] {
        TwiceCounts(s, i, j);
      }
    }
  }

  /** Two duplicate-free lists have the same elements exactly when one permutes the other. */
  lemma {:induction false} SameElementsPermute<T>(s: seq<T>, t: seq<T>)
    requires Distinct(s) && Distinct(t)
    ensures Elements(s) == Elements(t) <==> multiset(s) == multiset(t)
  {
    if Elements(s) == Elements(t) {
      forall x ensures multiset(s)[x] == multiset(t)[x] {
        DistinctCounts(s, x);
        DistinctCounts(t, x);
        assert x in Elements(s) <==> x in s;
        assert x in Elements(t) <==> x in t;
      }
      assert multiset(s) == multiset(t);
    }
    if multiset(s) == multiset(t) {
      assert forall x :: x in s <==> x in multiset(s);
      assert forall x :: x in t <==> x in multiset(t);
    }
  }

  /** A permutation of a duplicate-free list is duplicate-free. */
  lemma {:induction false} PermutationStaysDistinct<T>(s: seq<T>, t: seq<T>)
    requires Distinct(s) && multiset(s) == multiset(t)
    ensures Distinct(t) && Elements(s) == Elements(t) && |s| == |t|
  {
    forall x | x in t ensures multiset(t)[x] == 1 {
      assert x in multiset(t);
      DistinctCounts(s, x);
    }
    CountedOnceIsDistinct(t);
    SameElementsPermute(s, t);
    assert |multiset(s)| == |s| && |multiset(t)| == |t|;
  }

  lemma {:induction false} SmallerSet<T>(small: set<T>, large: set<T>)
    requires small <= large
    ensures |small| <= |large|
  {
    assert large == small + (large - small);
  }

  /** A set that holds another of the same size is that set. */
  lemma {:induction false} SameSizeIsSame<T>(small: set<T>, large: set<T>)
    requires small <= large && |small| >= |large|
    ensures small == large
  {
    if small != large {
      var x :| x in large && x !in small;
      SmallerSet(small, large - {x});
    }
  }
}
