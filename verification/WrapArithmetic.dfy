/** Arithmetic of counters that wrap at an arbitrary n > 0, seen from an unbounded counter. */
module WrapArithmetic {

  /** Consecutive epochs are n apart. */
  lemma Gap(q: int, q': int, n: nat)
    requires q < q'
    ensures q * n + n <= q' * n
  {
    assert 0 <= (q' - q - 1) * n == q' * n - q * n - n;
  }

  /** Quotient and remainder are unique. */
  lemma DivModUnique(x: int, q: int, r: nat, n: nat)
    requires r < n && x == q * n + r
    ensures x / n == q && x % n == r
  {
    if x / n > q {
      Gap(q, x / n, n);
    } else if x / n < q {
      Gap(x / n, q, n);
    }
  }

  /** Adding less than one wrap crosses at most one wrap, and exactly when the wrapped sum got smaller. */
  lemma AddWrap(a: nat, d: nat, n: nat)
    requires n > 0 && d < n
    ensures a % n + d < n ==> (a + d) % n == a % n + d && (a + d) / n == a / n
    ensures a % n + d >= n ==> (a + d) % n == a % n + d - n && (a + d) / n == a / n + 1
    ensures d > 0 ==> ((a + d) % n < a % n <==> (a + d) / n == a / n + 1)
  {
    var q, r := a / n, a % n;
    assert a == q * n + r;
    if r + d < n {
      DivModUnique(a + d, q, r + d, n);
    } else {
      assert (q + 1) * n == q * n + n;
      DivModUnique(a + d, q + 1, r + d - n, n);
    }
  }

  /** Two counts less than one wrap apart occupy the same slot only when equal. */
  lemma SlotsDistinct(a: nat, b: nat, n: nat)
    requires n > 0 && a <= b < a + n
    ensures a % n == b % n <==> a == b
  {
    AddWrap(a, b - a, n);
  }

  /** The distance between two counts less than one wrap apart, from their wrapped values. */
  lemma Distance(a: nat, b: nat, n: nat)
    requires n > 0 && a <= b < a + n
    ensures b - a == if b % n >= a % n then b % n - a % n else b % n + n - a % n
    ensures b % n >= a % n <==> b / n == a / n
    ensures b % n < a % n <==> b / n == a / n + 1
    ensures (b % n - a % n) % n == b - a
  {
    AddWrap(a, b - a, n);
    if b % n < a % n {
      DivModUnique(b % n - a % n, -1, b - a, n);
    } else {
      DivModUnique(b - a, 0, b - a, n);
    }
  }

  /** Order across epochs. */
  lemma EpochOrder(a: nat, b: nat, n: nat)
    requires n > 0
    ensures a / n < b / n ==> a < b
    ensures a / n == b / n ==>
      (a <= b <==> a % n <= b % n) && (a < b <==> a % n < b % n) && (a == b <==> a % n == b % n)
    ensures a <= b ==> a / n <= b / n
    ensures a / n == b / n && a <= b ==> b < a + n
    ensures a <= b && b / n == a / n + 1 && b % n < a % n ==> b < a + n
  {
    var qa, qb := a / n, b / n;
    assert a == qa * n + a % n && b == qb * n + b % n;
    if qa < qb {
      Gap(qa, qb, n);
    } else if qb < qa {
      Gap(qb, qa, n);
    }
    if qb == qa + 1 {
      assert qb * n == qa * n + n;
    }
  }
}
