/** Facts about sequences used by several parts of the model: distinctness and the
    size of the set of a sequence's elements. */
module Collections {

  /** No element occurs twice. */
  predicate Distinct<T(==)>(s: seq<T>) {
    forall i, j | 0 <= i < j < |s| :: s[i] != s[j]
  }

  /** Two sequences without repetitions and without a common element
      concatenate to one without repetitions. */
  lemma DistinctConcat<T>(a: seq<T>, b: seq<T>)
    requires Distinct(a) && Distinct(b)
    requires forall i, j | 0 <= i < |a| && 0 <= j < |b| :: a[i] != b[j]
    ensures Distinct(a + b)
  {
    var ab := a + b;
    forall i, j | 0 <= i < j < |ab|
      ensures ab[i] != ab[j]
    {
      if j < |a| {
        assert ab[i] == a[i] && ab[j] == a[j];
      } else if i < |a| {
        assert ab[i] == a[i] && ab[j] == b[j - |a|];
      } else {
        assert ab[i] == b[i - |a|] && ab[j] == b[j - |a|];
      }
    }
  }

  function Elements<T>(s: seq<T>): set<T> {
    set x | x in s
  }

  /** A sequence without repetitions has exactly as many distinct elements as
      it has positions. */
  lemma {:induction false} DistinctCardinality<T>(s: seq<T>)
    requires Distinct(s)
    ensures |Elements(s)| == |s|
  {
    if |s| > 0 {
      var tail := s[1..];
      assert Distinct(tail) by {
        forall i, j | 0 <= i < j < |tail|
          ensures tail[i] != tail[j]
        {
          assert tail[i] == s[i + 1] && tail[j] == s[j + 1];
        }
      }
      DistinctCardinality(tail);
      assert s[0] !in Elements(tail) by {
        forall k | 0 <= k < |tail|
          ensures tail[k] != s[0]
        {
          assert tail[k] == s[k + 1];
        }
      }
      assert Elements(s) == Elements(tail) + {s[0]} by {
        assert s == [s[0]] + tail;
      }
    }
  }

  /** `r` holds exactly the images under `f` of the elements of `xs` that
      `keep` accepts. */
  ghost predicate ImageOf<A(!new), B(!new)>(r: seq<B>, xs: seq<A>, keep: A -> bool, f: A --> B)
    requires forall x | keep(x) :: f.requires(x)
  {
    forall y :: y in r <==> exists x | x in xs && keep(x) :: y == f(x)
  }

  /** One step of a filter-and-map over `xs`: the head contributes its image
      when it is kept, and the tail contributes the images of its kept
      elements. */
  lemma FilterMapStep<A(!new), B(!new)>(xs: seq<A>, rest: seq<B>, keep: A -> bool, f: A --> B)
    requires |xs| > 0
    requires forall x | keep(x) :: f.requires(x)
    requires ImageOf(rest, xs[1..], keep, f)
    ensures ImageOf(if keep(xs[0]) then [f(xs[0])] + rest else rest, xs, keep, f)
  {
    var r := if keep(xs[0]) then [f(xs[0])] + rest else rest;
    forall y
      ensures y in r <==> exists x | x in xs && keep(x) :: y == f(x)
    {
      if y in r && !(keep(xs[0]) && y == f(xs[0])) {
        assert y in rest;
        var x :| x in xs[1..] && keep(x) && y == f(x);
        assert x in xs;
      }
      if exists x | x in xs && keep(x) :: y == f(x) {
        var x :| x in xs && keep(x) && y == f(x);
        if x != xs[0] {
          assert x in xs[1..];
        }
      }
    }
  }

  /** Reordering the images keeps them the images. */
  lemma ImageOfPermutation<A(!new), B(!new)>(r: seq<B>, r': seq<B>, xs: seq<A>, keep: A -> bool, f: A --> B)
    requires forall x | keep(x) :: f.requires(x)
    requires ImageOf(r, xs, keep, f) && multiset(r) == multiset(r')
    ensures ImageOf(r', xs, keep, f)
  {
    forall y
      ensures y in r' <==> y in r
    {
      assert y in r' <==> y in multiset(r');
      assert y in r <==> y in multiset(r);
    }
  }

  /** `a` is `b` with some elements removed, the rest kept in order. */
  predicate Subsequence<T(==)>(a: seq<T>, b: seq<T>)
    decreases |b|
  {
    if |a| == 0 then true
    else if |b| == 0 then false
    else if a[0] == b[0] then Subsequence(a[1..], b[1..])
    else Subsequence(a, b[1..])
  }

  /** Dropping the first element of a subsequence leaves a subsequence. */
  lemma {:induction false} SubsequenceDropFirst<T>(a: seq<T>, b: seq<T>)
    requires |a| > 0 && Subsequence(a, b)
    ensures Subsequence(a[1..], b)
    decreases |b|, 0
  {
    if a[0] != b[0] {
      SubsequenceDropFirst(a, b[1..]);
    }
    SubsequenceExtend(a[1..], b[1..], b[0]);
    assert [b[0]] + b[1..] == b;
  }

  /** A subsequence of `b` stays one when an element is put in front of `b`. */
  lemma {:induction false} SubsequenceExtend<T>(a: seq<T>, b: seq<T>, x: T)
    requires Subsequence(a, b)
    ensures Subsequence(a, [x] + b)
    decreases |b|, 1
  {
    assert ([x] + b)[1..] == b;
    if |a| > 0 && a[0] == x {
      SubsequenceDropFirst(a, b);
    }
  }

  /** One step of a filter over `b`: keeping or skipping its head extends a
      subsequence of its tail to one of `b`. */
  lemma SubsequenceStep<T>(a: seq<T>, b: seq<T>, keep: bool)
    requires |b| > 0 && Subsequence(a, b[1..])
    ensures Subsequence(if keep then [b[0]] + a else a, b)
  {
    if keep {
      assert ([b[0]] + a)[1..] == a;
    } else {
      SubsequenceExtend(a, b[1..], b[0]);
      assert [b[0]] + b[1..] == b;
    }
  }

  /** Every element of a subsequence is an element of the whole. */
  lemma {:induction false} SubsequenceMembers<T>(a: seq<T>, b: seq<T>, x: T)
    requires Subsequence(a, b) && x in a
    ensures x in b
    decreases |b|
  {
    if a[0] == b[0] {
      if x != a[0] {
        assert x in a[1..];
        SubsequenceMembers(a[1..], b[1..], x);
      }
    } else {
      SubsequenceMembers(a, b[1..], x);
    }
  }

  /** A subsequence of a sequence without repetitions has none either. */
  lemma {:induction false} SubsequenceDistinct<T>(a: seq<T>, b: seq<T>)
    requires Subsequence(a, b) && Distinct(b)
    ensures Distinct(a)
    decreases |b|
  {
    if |a| > 0 {
      var tail := b[1..];
      assert Distinct(tail) by {
        forall i, j | 0 <= i < j < |tail|
          ensures tail[i] != tail[j]
        {
          assert tail[i] == b[i + 1] && tail[j] == b[j + 1];
        }
      }
      if a[0] == b[0] {
        SubsequenceDistinct(a[1..], tail);
        forall i, j | 0 <= i < j < |a|
          ensures a[i] != a[j]
        {
          if i == 0 {
            assert a[j] in a[1..];
            SubsequenceMembers(a[1..], tail, a[j]);
            assert b[0] !in tail by {
              forall k | 0 <= k < |tail|
                ensures tail[k] != b[0]
              {
                assert tail[k] == b[k + 1];
              }
            }
          } else {
            assert a[i] == a[1..][i - 1] && a[j] == a[1..][j - 1];
          }
        }
      } else {
        SubsequenceDistinct(a, tail);
      }
    }
  }

  /** Two positions holding the same element make its multiplicity at least two. */
  lemma RepeatedElementCount<T>(s: seq<T>, i: int, j: int)
    requires 0 <= i < j < |s| && s[i] == s[j]
    ensures multiset(s)[s[i]] >= 2
  {
    assert s == s[..i] + [s[i]] + s[i + 1..j] + [s[j]] + s[j + 1..];
    assert multiset(s) == multiset(s[..i]) + multiset{s[i]} + multiset(s[i + 1..j])
                          + multiset{s[j]} + multiset(s[j + 1..]);
  }

  /** When keys differ at every pair of positions, no element occurs twice. */
  lemma {:induction false} DistinctKeysOccurOnce<T, K>(a: seq<T>, key: T -> K, x: T)
    requires forall i, j | 0 <= i < j < |a| :: key(a[i]) != key(a[j])
    ensures multiset(a)[x] <= 1
  {
    if |a| > 0 {
      var tail := a[1..];
      assert a == [a[0]] + tail;
      assert forall i, j | 0 <= i < j < |tail| :: key(tail[i]) != key(tail[j]) by {
        forall i, j | 0 <= i < j < |tail|
          ensures key(tail[i]) != key(tail[j])
        {
          assert tail[i] == a[i + 1] && tail[j] == a[j + 1];
        }
      }
      DistinctKeysOccurOnce(tail, key, x);
      if a[0] == x {
        assert x !in tail by {
          forall k | 0 <= k < |tail|
            ensures tail[k] != x
          {
            assert key(a[0]) != key(a[k + 1]);
          }
        }
      }
    }
  }

  /** Keys that are pairwise distinct across positions stay pairwise distinct in
      any permutation of the sequence. */
  lemma PermutationKeepsDistinctKeys<T, K>(a: seq<T>, b: seq<T>, key: T -> K)
    requires multiset(a) == multiset(b)
    requires forall i, j | 0 <= i < j < |a| :: key(a[i]) != key(a[j])
    ensures forall i, j | 0 <= i < j < |b| :: key(b[i]) != key(b[j])
  {
    forall i, j | 0 <= i < j < |b|
      ensures key(b[i]) != key(b[j])
    {
      if b[i] == b[j] {
        RepeatedElementCount(b, i, j);
        DistinctKeysOccurOnce(a, key, b[i]);
        assert false;
      }
      assert b[i] in multiset(a) && b[j] in multiset(a);
      var p :| 0 <= p < |a| && a[p] == b[i];
      var q :| 0 <= q < |a| && a[q] == b[j];
      if p < q {
        assert key(a[p]) != key(a[q]);
      } else {
        assert key(a[q]) != key(a[p]);
      }
    }
  }
}
