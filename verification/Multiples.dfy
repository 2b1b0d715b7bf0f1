// Whole multiples of a real number as repeated addition. Rates are compared and averaged through
// them, so that only the lemmas here speak of products and quotients.

module Multiples {
  // n times x, as repeated addition.
  function Times(n: nat, x: real): real {
    if n == 0 then 0.0 else Times(n - 1, x) + x
  }

  lemma {:induction false} TimesIsProduct(n: nat, x: real)
    ensures Times(n, x) == n as real * x
  {
    if n != 0 {
      TimesIsProduct(n - 1, x);
      Distribute((n - 1) as real, x);
    }
  }

  lemma Distribute(k: real, x: real)
    ensures (k + 1.0) * x == k * x + x
  {
  }

  lemma DivideBack(a: real, n: real)
    requires n != 0.0
    ensures n * (a / n) == a
  {
  }

  lemma {:induction false} TimesOne(n: nat)
    ensures Times(n, 1.0) == n as real
  {
    if n != 0 {
      TimesOne(n - 1);
    }
  }

  lemma {:induction false} TimesOfSums(k: nat, n: nat, x: real, y: real)
    ensures Times(k + n, x) == Times(k, x) + Times(n, x)
    ensures Times(k, x + y) == Times(k, x) + Times(k, y)
  {
    if k != 0 {
      TimesOfSums(k - 1, n, x, y);
    }
  }

  lemma {:induction false} TimesIsStrict(n: nat, x: real, y: real)
    requires n != 0 && x < y
    ensures Times(n, x) < Times(n, y)
  {
    if n != 1 {
      TimesIsStrict(n - 1, x, y);
    }
  }

  lemma MultiplesKeepOrder(n: real, x: real, y: real)
    requires n > 0.0
    ensures x <= y <==> n * x <= n * y
  {
    if x <= y {
      assert n * (y - x) >= 0.0;
    } else {
      assert n * (x - y) > 0.0;
    }
  }

  // A quotient reaches a threshold exactly when the dividend reaches that many thresholds.
  lemma QuotientReaches(part: real, n: nat, threshold: real)
    requires n != 0
    ensures part / n as real >= threshold <==> Times(n, threshold) <= part
  {
    TimesIsProduct(n, threshold);
    DivideBack(part, n as real);
    MultiplesKeepOrder(n as real, threshold, part / n as real);
  }
}
