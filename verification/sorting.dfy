/** A stable insertion sort over a caller-supplied "less than or equal" relation.
    It stands for Rust's `slice::sort_by_key` / `sort_by`, both of which are
    stable sorts. */
module Sorting {

  ghost predicate Total<T(!new)>(le: (T, T) -> bool) {
    forall a, b :: le(a, b) || le(b, a)
  }

  ghost predicate Transitive<T(!new)>(le: (T, T) -> bool) {
    forall a, b, c :: le(a, b) && le(b, c) ==> le(a, c)
  }

  predicate Sorted<T>(s: seq<T>, le: (T, T) -> bool) {
    forall i, j | 0 <= i < j < |s| :: le(s[i], s[j])
  }

  /** Inserts `x` in front of the first element it is "less than or equal" to,
      so it lands before every element it is tied with. */
  function InsertBy<T>(x: T, s: seq<T>, le: (T, T) -> bool): (r: seq<T>)
    ensures multiset(r) == multiset(s) + multiset{x}
    ensures |r| == |s| + 1
  {
    if |s| == 0 then [x]
    else if le(x, s[0]) then [x] + s
    else
      assert s == [s[0]] + s[1..];
      [s[0]] + InsertBy(x, s[1..], le)
  }

  function SortBy<T>(s: seq<T>, le: (T, T) -> bool): (r: seq<T>)
    ensures multiset(r) == multiset(s)
    ensures |r| == |s|
  {
    if |s| == 0 then []
    else
      assert s == [s[0]] + s[1..];
      InsertBy(s[0], SortBy(s[1..], le), le)
  }

  /** Three elements, the last two in order and the first after both: the
      first moves to the end. */
  lemma SortRotatesFirst<T>(a: T, b: T, c: T, le: (T, T) -> bool)
    requires le(b, c) && !le(a, b) && !le(a, c)
    ensures SortBy([a, b, c], le) == [b, c, a]
  {
    assert [a, b, c][1..] == [b, c] && [b, c][1..] == [c];
    assert SortBy([c], le) == [c];
    assert SortBy([b, c], le) == [b, c];
    assert InsertBy(a, [c], le) == [c, a];
  }

  lemma {:induction false} InsertBySorted<T(!new)>(x: T, s: seq<T>, le: (T, T) -> bool)
    requires Total(le) && Transitive(le)
    requires Sorted(s, le)
    ensures Sorted(InsertBy(x, s, le), le)
  {
    if |s| > 0 && !le(x, s[0]) {
      var tail := s[1..];
      InsertBySorted(x, tail, le);
      var r := InsertBy(x, tail, le);
      forall y | y in r
        ensures le(s[0], y)
      {
        assert y in multiset(r);
        if y != x {
          assert y in tail;
        }
      }
    }
  }

  /** The result of SortBy is ordered by `le`. */
  lemma {:induction false} SortBySorted<T(!new)>(s: seq<T>, le: (T, T) -> bool)
    requires Total(le) && Transitive(le)
    ensures Sorted(SortBy(s, le), le)
  {
    if |s| > 0 {
      SortBySorted(s[1..], le);
      InsertBySorted(s[0], SortBy(s[1..], le), le);
    }
  }

  /** `x` and `y` compare equal under `le`. */
  predicate Tied<T>(le: (T, T) -> bool, x: T, y: T) {
    le(x, y) && le(y, x)
  }

  /** The elements of `s` tied with `x`, in their order in `s`. */
  function KeepTied<T>(s: seq<T>, le: (T, T) -> bool, x: T): seq<T> {
    if |s| == 0 then []
    else if Tied(le, x, s[0]) then [s[0]] + KeepTied(s[1..], le, x)
    else KeepTied(s[1..], le, x)
  }

  lemma {:induction false} InsertByKeepsTiedOrder<T(!new)>(a: T, t: seq<T>, le: (T, T) -> bool, x: T)
    requires Transitive(le)
    ensures KeepTied(InsertBy(a, t, le), le, x)
            == (if Tied(le, x, a) then [a] + KeepTied(t, le, x) else KeepTied(t, le, x))
  {
    if |t| > 0 && !le(a, t[0]) {
      InsertByKeepsTiedOrder(a, t[1..], le, x);
      var r := InsertBy(a, t, le);
      assert r[0] == t[0] && r[1..] == InsertBy(a, t[1..], le);
      if Tied(le, x, a) {
        assert !Tied(le, x, t[0]);
      }
    } else if |t| > 0 {
      var r := InsertBy(a, t, le);
      assert r[0] == a && r[1..] == t;
    }
  }

  /** SortBy is stable: elements that compare equal keep their relative order. */
  lemma {:induction false} SortByStable<T(!new)>(s: seq<T>, le: (T, T) -> bool, x: T)
    requires Transitive(le)
    ensures KeepTied(SortBy(s, le), le, x) == KeepTied(s, le, x)
  {
    if |s| > 0 {
      SortByStable(s[1..], le, x);
      InsertByKeepsTiedOrder(s[0], SortBy(s[1..], le), le, x);
    }
  }

  /** Sorting a sequence that is already in order leaves it as it is. */
  lemma {:induction false} SortByOfSorted<T>(s: seq<T>, le: (T, T) -> bool)
    requires Sorted(s, le)
    ensures SortBy(s, le) == s
  {
    if |s| > 0 {
      SortByOfSorted(s[1..], le);
      assert s == [s[0]] + s[1..];
    }
  }
}
