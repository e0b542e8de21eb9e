/**
 * Ranking a list the way `Array.prototype.sort` does with a comparator, then
 * keeping its head with `.slice(0, n)`. The contracts fix the order only up to
 * ties: which of two equally ranked elements comes first is not stated.
 */
module Ranking {

  /** Every two elements are comparable. */
  ghost predicate Total<T(!new)>(higher: (T, T) -> bool) {
    forall a, b :: higher(a, b) || higher(b, a)
  }

  ghost predicate Transitive<T(!new)>(higher: (T, T) -> bool) {
    forall a, b, c :: higher(a, b) && higher(b, c) ==> higher(a, c)
  }

  /** Each element ranks at least as high as every element after it. */
  predicate Ranked<T>(s: seq<T>, higher: (T, T) -> bool) {
    forall i, j | 0 <= i < j < |s| :: higher(s[i], s[j])
  }

  /**
   * Places `x` in front of the first element it ranks at least as high as, so
   * that `x` stays ahead of the elements that rank equally with it.
   */
  function Insert<T>(x: T, s: seq<T>, higher: (T, T) -> bool): (r: seq<T>)
    ensures |r| == |s| + 1
    ensures multiset(r) == multiset(s) + multiset{x}
  {
    if s == [] || higher(x, s[0]) then [x] + s
    else
      assert s == [s[0]] + s[1..];
      [s[0]] + Insert(x, s[1..], higher)
  }

  /** Insertion sort, highest-ranking first. */
  function Sort<T>(s: seq<T>, higher: (T, T) -> bool): (r: seq<T>)
    ensures |r| == |s|
    ensures multiset(r) == multiset(s)
  {
    if s == [] then []
    else
      assert s == [s[0]] + s[1..];
      Insert(s[0], Sort(s[1..], higher), higher)
  }

  /** `.slice(0, n)`, and `substring(0, n)` on text: the first `n` elements, or all of a shorter list. */
  function Top<T>(s: seq<T>, n: nat): (r: seq<T>)
    ensures |r| == if |s| < n then |s| else n
    ensures r == s[..|r|]
  {
    if |s| <= n then s else s[..n]
  }

  lemma {:induction false} InsertRanked<T(!new)>(x: T, s: seq<T>, higher: (T, T) -> bool)
    requires Total(higher) && Transitive(higher)
    requires Ranked(s, higher)
    ensures Ranked(Insert(x, s, higher), higher)
  {
    if s != [] && !higher(x, s[0]) {
      var rest := Insert(x, s[1..], higher);
      InsertRanked(x, s[1..], higher);
      FirstAboveInsert(x, s, higher);
      ConsRanked(s[0], rest, higher);
    } else if s != [] {
      forall y | y in s ensures higher(x, y) {
        var k :| 0 <= k < |s| && s[k] == y;
        if k > 0 {
          assert higher(s[0], s[k]);
        }
      }
      ConsRanked(x, s, higher);
    }
  }

  /** When `x` goes behind the first element, that element ranks above all it is placed before. */
  lemma FirstAboveInsert<T(!new)>(x: T, s: seq<T>, higher: (T, T) -> bool)
    requires Total(higher) && Transitive(higher)
    requires Ranked(s, higher) && s != [] && !higher(x, s[0])
    ensures forall y | y in Insert(x, s[1..], higher) :: higher(s[0], y)
  {
    var rest := Insert(x, s[1..], higher);
    assert higher(s[0], x);
    forall y | y in rest
      ensures higher(s[0], y)
    {
      assert y in multiset(rest);
      if y != x {
        assert y in multiset(s[1..]);
        var k :| 0 <= k < |s[1..]| && s[1..][k] == y;
        assert s[k + 1] == y;
      }
    }
  }

  /** An element that ranks above every element of a ranked list can go in front of it. */
  lemma ConsRanked<T>(a: T, rest: seq<T>, higher: (T, T) -> bool)
    requires Ranked(rest, higher)
    requires forall y | y in rest :: higher(a, y)
    ensures Ranked([a] + rest, higher)
  {
    var r := [a] + rest;
    forall i, j | 0 <= i < j < |r|
      ensures higher(r[i], r[j])
    {
      if i == 0 {
        assert r[j] == rest[j - 1] && r[j] in rest;
      } else {
        assert r[i] == rest[i - 1] && r[j] == rest[j - 1];
      }
    }
  }

  lemma {:induction false} SortRanked<T(!new)>(s: seq<T>, higher: (T, T) -> bool)
    requires Total(higher) && Transitive(higher)
    ensures Ranked(Sort(s, higher), higher)
  {
    if s != [] {
      SortRanked(s[1..], higher);
      InsertRanked(s[0], Sort(s[1..], higher), higher);
    }
  }

  /**
   * The head of a ranking: it is ranked, it is drawn from the input, it is as
   * long as `n` allows, and every element it leaves out ranks no higher than
   * any element it keeps.
   */
  lemma TopOfSort<T(!new)>(s: seq<T>, n: nat, higher: (T, T) -> bool)
    requires Total(higher) && Transitive(higher)
    ensures var top := Top(Sort(s, higher), n);
      && Ranked(top, higher)
      && |top| == (if |s| < n then |s| else n)
      && multiset(top) <= multiset(s)
      && forall x, y | x in top && y in multiset(s) - multiset(top) :: higher(x, y)
  {
    var r := Sort(s, higher);
    SortRanked(s, higher);
    TopLeavesLower(r, n, higher);
  }

  /** In a ranked list, its first `n` elements rank at least as high as the rest. */
  lemma TopLeavesLower<T(!new)>(r: seq<T>, n: nat, higher: (T, T) -> bool)
    requires Ranked(r, higher)
    ensures var top := Top(r, n);
      && Ranked(top, higher)
      && multiset(top) <= multiset(r)
      && forall x, y | x in top && y in multiset(r) - multiset(top) :: higher(x, y)
  {
    var top := Top(r, n);
    var rest := r[|top|..];
    assert r == top + rest;
    assert multiset(r) == multiset(top) + multiset(rest);
    forall x, y | x in top && y in multiset(r) - multiset(top)
      ensures higher(x, y)
    {
      var i :| 0 <= i < |top| && top[i] == x;
      assert y in multiset(rest);
      var j :| 0 <= j < |rest| && rest[j] == y;
      assert r[i] == x && r[|top| + j] == y;
    }
  }

  /** No element occurs twice. */
  predicate Distinct<T(==)>(s: seq<T>) {
    forall i, j | 0 <= i < j < |s| :: s[i] != s[j]
  }

  lemma {:induction false} DistinctOnce<T>(s: seq<T>, x: T)
    requires Distinct(s)
    ensures multiset(s)[x] <= 1
  {
    if s != [] {
      assert s == [s[0]] + s[1..];
      DistinctOnce(s[1..], x);
      if x == s[0] {
        assert x !in s[1..];
      }
    }
  }

  /** What is drawn from a list without repeats has no repeats either. */
  lemma DistinctPart<T>(s: seq<T>, t: seq<T>)
    requires Distinct(s) && multiset(t) <= multiset(s)
    ensures Distinct(t)
  {
    forall i, j | 0 <= i < j < |t| ensures t[i] != t[j] {
      if t[i] == t[j] {
        var x := t[i];
        assert t == t[..j] + t[j..];
        assert x in multiset(t[..j]) && x in multiset(t[j..]);
        assert multiset(t)[x] == multiset(t[..j])[x] + multiset(t[j..])[x];
        DistinctOnce(s, x);
        assert false;
      }
    }
  }
}
