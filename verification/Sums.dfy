/** Finite sums over tables (sequences of rows) and over index ranges. */
module Sums {

  function Sum<T>(s: seq<T>, f: T -> int): int {
    if s == [] then 0 else Sum(s[..|s| - 1], f) + f(s[|s| - 1])
  }

  function SumTo(n: nat, f: nat -> int): int {
    if n == 0 then 0 else SumTo(n - 1, f) + f(n - 1)
  }

  lemma SumAppend<T>(s: seq<T>, x: T, f: T -> int)
    ensures Sum(s + [x], f) == Sum(s, f) + f(x)
  {
    assert (s + [x])[..|s|] == s;
  }

  lemma {:induction false} SumConcat<T>(s: seq<T>, t: seq<T>, f: T -> int)
    ensures Sum(s + t, f) == Sum(s, f) + Sum(t, f)
  {
    if t == [] {
      assert s + t == s;
    } else {
      var u := t[..|t| - 1];
      SumConcat(s, u, f);
      assert s + t == (s + u) + [t[|t| - 1]];
      SumAppend(s + u, t[|t| - 1], f);
    }
  }

  lemma {:induction false} SumUpdate<T>(s: seq<T>, i: nat, x: T, f: T -> int)
    requires i < |s|
    ensures Sum(s[i := x], f) == Sum(s, f) - f(s[i]) + f(x)
  {
    var n := |s| - 1;
    if i == n {
      assert s[i := x][..n] == s[..n];
    } else {
      SumUpdate(s[..n], i, x, f);
      assert s[i := x][..n] == s[..n][i := x];
    }
  }

  /** Two tables whose rows weigh the same sum to the same. */
  lemma {:induction false} SumCongruent<A, B>(s: seq<A>, t: seq<B>, f: A -> int, g: B -> int)
    requires |s| == |t|
    requires forall i :: 0 <= i < |s| ==> f(s[i]) == g(t[i])
    ensures Sum(s, f) == Sum(t, g)
  {
    if s != [] {
      var n := |s| - 1;
      SumCongruent(s[..n], t[..n], f, g);
    }
  }

  lemma {:induction false} SumZero<T>(s: seq<T>, f: T -> int)
    requires forall i :: 0 <= i < |s| ==> f(s[i]) == 0
    ensures Sum(s, f) == 0
  {
    if s != [] {
      SumZero(s[..|s| - 1], f);
    }
  }

  lemma {:induction false} SumNonNegative<T>(s: seq<T>, f: T -> int)
    requires forall i :: 0 <= i < |s| ==> f(s[i]) >= 0
    ensures Sum(s, f) >= 0
  {
    if s != [] {
      SumNonNegative(s[..|s| - 1], f);
    }
  }

  lemma {:induction false} SumAdd<T>(s: seq<T>, f: T -> int, g: T -> int, h: T -> int)
    requires forall x :: h(x) == f(x) + g(x)
    ensures Sum(s, h) == Sum(s, f) + Sum(s, g)
  {
    if s != [] {
      SumAdd(s[..|s| - 1], f, g, h);
    }
  }

  /** Only row k contributes. */
  lemma {:induction false} SumSingle<T>(s: seq<T>, k: nat, f: T -> int)
    requires k < |s|
    requires forall i :: 0 <= i < |s| && i != k ==> f(s[i]) == 0
    ensures Sum(s, f) == f(s[k])
  {
    var n := |s| - 1;
    if k == n {
      SumZero(s[..n], f);
    } else {
      SumSingle(s[..n], k, f);
    }
  }

  /** A sum does not depend on the order in which a query returns the rows. */
  lemma {:induction false} SumOfRow<T>(s: seq<T>, k: nat, f: T -> int)
    requires k < |s|
    ensures Sum(s, f) == Sum(s[..k] + s[k + 1..], f) + f(s[k])
  {
    assert s == (s[..k] + [s[k]]) + s[k + 1..];
    SumConcat(s[..k] + [s[k]], s[k + 1..], f);
    SumAppend(s[..k], s[k], f);
    SumConcat(s[..k], s[k + 1..], f);
  }

  lemma {:induction false} SumOrderFree<T>(s: seq<T>, t: seq<T>, f: T -> int)
    requires multiset(s) == multiset(t)
    ensures Sum(s, f) == Sum(t, f)
  {
    if s == [] {
      assert |multiset(t)| == 0;
    } else {
      var n := |s| - 1;
      var x := s[n];
      assert s == s[..n] + [x];
      assert x in multiset(s);
      var k :| 0 <= k < |t| && t[k] == x;
      var rest := t[..k] + t[k + 1..];
      assert t == t[..k] + [x] + t[k + 1..];
      assert multiset(rest) == multiset(t) - multiset{x};
      assert multiset(s[..n]) == multiset(s) - multiset{x};
      SumOrderFree(s[..n], rest, f);
      SumOfRow(t, k, f);
    }
  }

  lemma {:induction false} SumToCongruent(n: nat, f: nat -> int, g: nat -> int)
    requires forall i: nat :: i < n ==> f(i) == g(i)
    ensures SumTo(n, f) == SumTo(n, g)
  {
    if n > 0 {
      SumToCongruent(n - 1, f, g);
    }
  }

  lemma {:induction false} SumToZero(n: nat, f: nat -> int)
    requires forall i: nat :: i < n ==> f(i) == 0
    ensures SumTo(n, f) == 0
  {
    if n > 0 {
      SumToZero(n - 1, f);
    }
  }

  lemma {:induction false} SumToSingle(n: nat, k: nat, f: nat -> int)
    requires k < n
    requires forall i: nat :: i < n && i != k ==> f(i) == 0
    ensures SumTo(n, f) == f(k)
  {
    if k == n - 1 {
      SumToZero(n - 1, f);
    } else {
      SumToSingle(n - 1, k, f);
    }
  }

  lemma {:induction false} SumToAdd(n: nat, f: nat -> int, g: nat -> int, h: nat -> int)
    requires forall i: nat :: i < n ==> h(i) == f(i) + g(i)
    ensures SumTo(n, h) == SumTo(n, f) + SumTo(n, g)
  {
    if n > 0 {
      SumToAdd(n - 1, f, g, h);
    }
  }

  lemma SumOfOne<T>(x: T, f: T -> int)
    ensures Sum([x], f) == f(x)
  {
    SumAppend([], x, f);
    assert [] + [x] == [x];
  }

  lemma SumOfTwo<T>(x: T, y: T, f: T -> int)
    ensures Sum([x, y], f) == f(x) + f(y)
  {
    SumOfOne(x, f);
    SumAppend([x], y, f);
    assert [x] + [y] == [x, y];
  }

  lemma SumOfThree<T>(x: T, y: T, z: T, f: T -> int)
    ensures Sum([x, y, z], f) == f(x) + f(y) + f(z)
  {
    SumOfTwo(x, y, f);
    SumAppend([x, y], z, f);
    assert [x, y] + [z] == [x, y, z];
  }
}
