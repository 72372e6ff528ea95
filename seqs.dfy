/** Sequence helpers in the sense of JavaScript's array methods. */
module Seqs {

  /** No element occurs twice. */
  predicate NoDuplicates<T(==)>(s: seq<T>) {
    forall i, j :: 0 <= i < j < |s| ==> s[i] != s[j]
  }

  /** `s.indexOf(x)`: the first position holding x, or -1. */
  function IndexOf<T(==)>(s: seq<T>, x: T): (r: int)
    ensures -1 <= r < |s|
    ensures r == -1 <==> x !in s
    ensures r >= 0 ==> s[r] == x && forall j :: 0 <= j < r ==> s[j] != x
  {
    if s == [] then -1
    else if s[0] == x then 0
    else var k := IndexOf(s[1..], x); if k == -1 then -1 else k + 1
  }

  /** The number of occurrences of x. */
  function Count<T(==)>(s: seq<T>, x: T): nat
    decreases |s|
  {
    if s == [] then 0 else Count(s[..|s| - 1], x) + (if s[|s| - 1] == x then 1 else 0)
  }

  /** The distinct elements of s in order of first appearance. */
  function Distinct<T(==,!new)>(s: seq<T>): (r: seq<T>)
    ensures forall x :: x in r <==> x in s
    ensures NoDuplicates(r)
    decreases |s|
  {
    if s == [] then []
    else
      var d := Distinct(s[..|s| - 1]);
      assert forall x :: x in s[..|s| - 1] ==> x in s;
      if s[|s| - 1] in d then d else d + [s[|s| - 1]]
  }

  /** A non-empty sequence is its prefix followed by its last element. */
  lemma SplitLast<T>(s: seq<T>)
    requires s != []
    ensures s == s[..|s| - 1] + [s[|s| - 1]]
  {
  }

  /** Distinct grows by an appended element exactly when that element is new. */
  lemma DistinctSnoc<T(!new)>(s: seq<T>, x: T)
    ensures Distinct(s + [x]) == if x in s then Distinct(s) else Distinct(s) + [x]
  {
    var t := s + [x];
    assert t[..|t| - 1] == s && t[|t| - 1] == x;
  }

  /** An element of x's prefix has the same first position in the whole sequence. */
  lemma IndexOfPrefix<T>(s: seq<T>, n: nat, x: T)
    requires n <= |s| && x in s[..n]
    ensures IndexOf(s, x) == IndexOf(s[..n], x)
  {
    var k := IndexOf(s[..n], x);
    assert s[..n][k] == x;
    assert forall j :: 0 <= j < k ==> s[j] == s[..n][j];
  }

  /** Distinct lists elements in increasing order of their first appearance. */
  lemma {:induction false} DistinctOrder<T(!new)>(s: seq<T>, i: int, j: int)
    requires 0 <= i < j < |Distinct(s)|
    ensures IndexOf(s, Distinct(s)[i]) < IndexOf(s, Distinct(s)[j])
    decreases |s|
  {
    var p := s[..|s| - 1];
    var d := Distinct(p);
    var x := s[|s| - 1];
    var r := Distinct(s);
    assert s[..|p|] == p;
    assert r == if x in d then d else d + [x];
    assert r[i] == d[i] && d[i] in p;
    IndexOfPrefix(s, |p|, d[i]);
    assert IndexOf(s, r[i]) == IndexOf(p, d[i]) < |p|;
    if j < |d| {
      assert r[j] == d[j] && d[j] in p;
      IndexOfPrefix(s, |p|, d[j]);
      DistinctOrder(p, i, j);
      assert IndexOf(s, r[j]) == IndexOf(p, d[j]);
    } else {
      assert r[j] == x && x !in p;
      assert IndexOf(s, x) == |s| - 1 by {
        assert forall k :: 0 <= k < |s| - 1 ==> s[k] == p[k];
      }
    }
  }
}
