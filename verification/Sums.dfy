/** Sums over the first `n` indices. */
module Sums {

  ghost function Sum(f: nat -> int, n: nat): int {
    if n == 0 then 0 else Sum(f, n - 1) + f(n - 1)
  }

  lemma {:induction false} SumSame(f: nat -> int, g: nat -> int, n: nat)
    requires forall i: nat :: i < n ==> f(i) == g(i)
    ensures Sum(f, n) == Sum(g, n)
  {
    if n > 0 { SumSame(f, g, n - 1); }
  }

  /** Two sums that differ in one term. */
  lemma {:induction false} SumBut(f: nat -> int, g: nat -> int, n: nat, k: nat)
    requires k < n && forall i: nat :: i < n && i != k ==> f(i) == g(i)
    ensures Sum(g, n) == Sum(f, n) - f(k) + g(k)
  {
    if k == n - 1 { SumSame(f, g, n - 1); } else { SumBut(f, g, n - 1, k); }
  }

  lemma {:induction false} SumBounds(f: nat -> int, n: nat, lo: int, hi: int)
    requires forall i: nat :: i < n ==> lo <= f(i) <= hi
    ensures lo * n <= Sum(f, n) <= hi * n
  {
    if n > 0 {
      SumBounds(f, n - 1, lo, hi);
      assert lo * n == lo * (n - 1) + lo && hi * n == hi * (n - 1) + hi;
    }
  }

  /** Two sums of which one is nowhere larger, and somewhere smaller. */
  lemma {:induction false} SumLess(f: nat -> int, g: nat -> int, n: nat, k: nat)
    requires k < n && f(k) < g(k) && forall i: nat :: i < n ==> f(i) <= g(i)
    ensures Sum(f, n) < Sum(g, n)
  {
    if k == n - 1 { SumAtMost(f, g, n - 1); } else { SumLess(f, g, n - 1, k); }
  }

  lemma {:induction false} SumAtMost(f: nat -> int, g: nat -> int, n: nat)
    requires forall i: nat :: i < n ==> f(i) <= g(i)
    ensures Sum(f, n) <= Sum(g, n)
  {
    if n > 0 { SumAtMost(f, g, n - 1); }
  }

  /** A sum of equal terms, then of other equal terms. */
  lemma {:induction false} SumTwo(f: nat -> int, c: nat, n: nat, a: int, b: int)
    requires c <= n && forall i: nat :: i < n ==> f(i) == if i < c then a else b
    ensures Sum(f, n) == c * a + (n - c) * b
  {
    if n == 0 {
    } else if c == n {
      SumTwo(f, c - 1, n - 1, a, b);
      assert c * a == (c - 1) * a + a;
    } else {
      SumTwo(f, c, n - 1, a, b);
      assert (n - c) * b == (n - 1 - c) * b + b;
    }
  }
}
