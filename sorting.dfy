/** Ordering by a numeric key, highest first, as Python's `list.sort(key=..., reverse=True)`
    and Mongo's `.sort(field, -1)` produce it, and Python's slice `s[:n]`. */
module Sorting {

  /** No element of `s` has a larger key than the one before it. */
  predicate NonIncreasing<T>(s: seq<T>, key: T -> int)
  {
    forall i, j :: 0 <= i < j < |s| ==> key(s[i]) >= key(s[j])
  }

  /** No two positions of `s` carry the same identifier. */
  predicate KeyDistinct<T, K(==)>(s: seq<T>, id: T -> K)
  {
    forall i, j :: 0 <= i < j < |s| ==> id(s[i]) != id(s[j])
  }

  /** Inserts `x` before the first element with a strictly smaller key, so that among equal
      keys the earlier-inserted element stays first (a stable sort). */
  function Insert<T>(x: T, s: seq<T>, key: T -> int): (r: seq<T>)
    requires NonIncreasing(s, key)
    ensures |r| == |s| + 1
    ensures multiset(r) == multiset(s) + multiset{x}
    ensures NonIncreasing(r, key)
  {
    if s == [] || key(x) >= key(s[0]) then
      ConsKeepsOrder(x, s, key);
      [x] + s
    else
      TailKeepsOrder(s, key);
      var rest := Insert(x, s[1..], key);
      assert s == [s[0]] + s[1..];
      HeadBoundsRest(x, s, rest, key);
      ConsKeepsOrder(s[0], rest, key);
      assert multiset([s[0]] + rest) == multiset{s[0]} + multiset(rest);
      [s[0]] + rest
  }

  /** Putting an element in front of a sorted list keeps it sorted when no later key exceeds it. */
  lemma ConsKeepsOrder<T>(y: T, s: seq<T>, key: T -> int)
    requires NonIncreasing(s, key)
    requires forall z :: z in s ==> key(y) >= key(z)
    ensures NonIncreasing([y] + s, key)
  {
    var r := [y] + s;
    forall i, j | 0 <= i < j < |r| ensures key(r[i]) >= key(r[j]) {
      if i == 0 { assert r[j] == s[j - 1]; assert r[j] in s; }
      else { assert r[i] == s[i - 1] && r[j] == s[j - 1]; }
    }
  }

  lemma TailKeepsOrder<T>(s: seq<T>, key: T -> int)
    requires s != [] && NonIncreasing(s, key)
    ensures NonIncreasing(s[1..], key)
  {
    forall i, j | 0 <= i < j < |s| - 1 ensures key(s[1..][i]) >= key(s[1..][j]) {
      assert s[1..][i] == s[i + 1] && s[1..][j] == s[j + 1];
    }
  }

  lemma HeadBoundsRest<T>(x: T, s: seq<T>, rest: seq<T>, key: T -> int)
    requires s != [] && NonIncreasing(s, key) && key(x) < key(s[0])
    requires multiset(rest) == multiset(s[1..]) + multiset{x}
    ensures forall z :: z in rest ==> key(s[0]) >= key(z)
  {
    forall z | z in rest ensures key(s[0]) >= key(z) {
      assert z in multiset(rest);
      if z != x {
        assert z in multiset(s[1..]);
        assert z in s[1..];
        var k :| 0 <= k < |s[1..]| && s[1..][k] == z;
        assert s[k + 1] == z;
      }
    }
  }

  /** Stable sort, highest key first. */
  function SortDesc<T>(s: seq<T>, key: T -> int): (r: seq<T>)
    ensures |r| == |s|
    ensures multiset(r) == multiset(s)
    ensures NonIncreasing(r, key)
  {
    if s == [] then [] else
      assert s == [s[0]] + s[1..];
      Insert(s[0], SortDesc(s[1..], key), key)
  }

  /** Every element of the sorted list comes from the input, and every input element is kept. */
  lemma SortDescMembers<T>(s: seq<T>, key: T -> int)
    ensures forall y :: y in SortDesc(s, key) <==> y in s
  {
    var r := SortDesc(s, key);
    forall y ensures y in r <==> y in s {
      calc {
        y in r;
        y in multiset(r);
        y in multiset(s);
        y in s;
      }
    }
  }

  /** Sorting keeps identifiers distinct. */
  lemma {:induction false} SortDescKeepsDistinct<T, K>(s: seq<T>, key: T -> int, id: T -> K)
    requires KeyDistinct(s, id)
    ensures KeyDistinct(SortDesc(s, key), id)
  {
    if s != [] {
      var tail := s[1..];
      assert KeyDistinct(tail, id);
      SortDescKeepsDistinct(tail, key, id);
      var sorted := SortDesc(tail, key);
      forall y | y in sorted ensures id(y) != id(s[0]) {
        assert y in multiset(sorted);
        assert y in multiset(tail);
        var k :| 0 <= k < |tail| && tail[k] == y;
        assert s[k + 1] == y;
      }
      InsertKeepsDistinct(s[0], sorted, key, id);
    }
  }

  lemma {:induction false} InsertKeepsDistinct<T, K>(x: T, s: seq<T>, key: T -> int, id: T -> K)
    requires NonIncreasing(s, key) && KeyDistinct(s, id)
    requires forall y :: y in s ==> id(y) != id(x)
    ensures KeyDistinct(Insert(x, s, key), id)
  {
    if s == [] || key(x) >= key(s[0]) {
      ConsKeepsDistinct(x, s, id);
    } else {
      var tail := s[1..];
      assert KeyDistinct(tail, id);
      InsertKeepsDistinct(x, tail, key, id);
      var rest := Insert(x, tail, key);
      forall y | y in rest ensures id(y) != id(s[0]) {
        assert y in multiset(rest);
        if y != x {
          assert y in multiset(tail);
          var k :| 0 <= k < |tail| && tail[k] == y;
          assert s[k + 1] == y;
        }
      }
      ConsKeepsDistinct(s[0], rest, id);
    }
  }

  lemma ConsKeepsDistinct<T, K>(y: T, s: seq<T>, id: T -> K)
    requires KeyDistinct(s, id)
    requires forall z :: z in s ==> id(z) != id(y)
    ensures KeyDistinct([y] + s, id)
  {
    var r := [y] + s;
    forall i, j | 0 <= i < j < |r| ensures id(r[i]) != id(r[j]) {
      if i == 0 { assert r[j] == s[j - 1]; assert r[j] in s; }
      else { assert r[i] == s[i - 1] && r[j] == s[j - 1]; }
    }
  }

  /** A sequence is empty exactly when nothing is in it. */
  lemma EmptyIffNoMembers<T>(s: seq<T>)
    ensures s == [] <==> forall x :: x !in s
  {
    if s != [] {
      assert s[0] in s;
    }
  }

  /** Python's `s[:n]` for a non-negative `n`: the first `n` elements, or all of them. */
  function Take<T>(s: seq<T>, n: nat): (r: seq<T>)
    ensures |r| == if n < |s| then n else |s|
    ensures r <= s
  {
    if n < |s| then s[..n] else s
  }

  /** Python's `s[:n]` for any integer `n`: a negative `n` drops that many from the end. */
  function PyPrefix<T>(s: seq<T>, n: int): (r: seq<T>)
    ensures r <= s
    ensures n >= 0 ==> |r| == if n < |s| then n else |s|
    ensures n < 0 ==> |r| == if -n < |s| then |s| + n else 0
  {
    if n >= 0 then Take(s, n) else if -n < |s| then s[..|s| + n] else []
  }

  /** A prefix of a sorted list is sorted. */
  lemma TakeKeepsOrder<T>(s: seq<T>, n: nat, key: T -> int)
    requires NonIncreasing(s, key)
    ensures NonIncreasing(Take(s, n), key)
  {
  }

  /** A prefix keeps distinct keys distinct and draws its elements from the list. */
  lemma TakeKeepsDistinct<T, K>(s: seq<T>, n: nat, id: T -> K)
    requires KeyDistinct(s, id)
    ensures KeyDistinct(Take(s, n), id)
    ensures forall x :: x in Take(s, n) ==> x in s
  {
    var r := Take(s, n);
    forall i, j | 0 <= i < j < |r| ensures id(r[i]) != id(r[j]) {
      assert r[i] == s[i] && r[j] == s[j];
    }
    forall x | x in r ensures x in s {
      var i :| 0 <= i < |r| && r[i] == x;
      assert s[i] == x;
    }
  }
}
