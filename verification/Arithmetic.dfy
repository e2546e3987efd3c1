/** Products of a count and a real, kept linear for the solver. */
module Arithmetic {

  /** n times x, by repeated addition; 0 for n <= 0. */
  function Times(n: int, x: real): real
    decreases n
  {
    if n <= 0 then 0.0 else Times(n - 1, x) + x
  }

  lemma {:induction false} TimesIsProduct(n: nat, x: real)
    ensures Times(n, x) == n as real * x
  {
    if n > 0 {
      TimesIsProduct(n - 1, x);
      var k := (n - 1) as real;
      assert n as real == k + 1.0;
      assert (k + 1.0) * x == k * x + x;
    } else {
      assert n as real == 0.0;
    }
  }

  lemma {:induction false} TimesMonotone(n: int, x: real, y: real)
    requires x <= y
    ensures Times(n, x) <= Times(n, y)
    ensures n > 0 && x < y ==> Times(n, x) < Times(n, y)
    decreases n
  {
    if n > 0 {
      TimesMonotone(n - 1, x, y);
    }
  }

  lemma {:induction false} TimesSplit(m: nat, n: nat, x: real)
    ensures Times(m + n, x) == Times(m, x) + Times(n, x)
  {
    if n > 0 {
      TimesSplit(m, n - 1, x);
    }
  }

  lemma {:induction false} TimesNext(n: nat, x: real)
    ensures Times(n, x + 1.0) == Times(n, x) + n as real
  {
    if n > 0 {
      TimesNext(n - 1, x);
    }
  }

  lemma QuotientIsInverse(n: nat, w: real)
    requires n > 0
    ensures Times(n, w / n as real) == w
  {
    TimesIsProduct(n, w / n as real);
  }

  /** Dividing a sum of n terms by n stays within bounds on the terms. */
  lemma QuotientWithin(n: nat, w: real, low: real, high: real)
    requires n > 0 && Times(n, low) <= w <= Times(n, high)
    ensures low <= w / n as real <= high
    ensures w < Times(n, high) ==> w / n as real < high
  {
    var q := w / n as real;
    QuotientIsInverse(n, w);
    if q < low {
      TimesMonotone(n, q, low);
    }
    if high < q {
      TimesMonotone(n, high, q);
    }
  }
}
