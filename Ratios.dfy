/** Facts about the exact rational ratios the metrics return. */
module Ratios {

  /** A part over a non-zero whole is a share in [0, 1]; it is 1 exactly
      for the whole and 0 exactly for nothing. */
  lemma Share(part: nat, whole: nat)
    requires 0 < whole && part <= whole
    ensures 0.0 <= part as real / whole as real <= 1.0
    ensures part as real / whole as real == 1.0 <==> part == whole
    ensures part as real / whole as real == 0.0 <==> part == 0
  {
    var q := part as real / whole as real;
    assert q * whole as real == part as real;
  }

  /** A sum of `n` values between `lo` and `hi` has its mean between them. */
  lemma MeanBetween(sum: real, n: nat, lo: real, hi: real)
    requires 0 < n && n as real * lo <= sum <= n as real * hi
    ensures lo <= sum / n as real <= hi
  {
    QuotientMonotone(n as real * lo, sum, n);
    QuotientMonotone(sum, n as real * hi, n);
    QuotientOfMultiple(n, lo);
    QuotientOfMultiple(n, hi);
  }

  lemma QuotientMonotone(a: real, b: real, n: nat)
    requires 0 < n && a <= b
    ensures a / n as real <= b / n as real
  {
    assert b / n as real - a / n as real == (b - a) / n as real;
  }

  lemma QuotientOfMultiple(n: nat, x: real)
    requires 0 < n
    ensures (n as real * x) / n as real == x
  {
  }

  /** A total of at least `n` over `n` is at least one, and times `n` gives
      the total back. */
  lemma MeanOfCover(total: nat, n: nat)
    requires 0 < n <= total
    ensures (total as real / n as real) * n as real == total as real
    ensures total as real / n as real >= 1.0
    ensures total as real / n as real == 1.0 <==> total == n
  {
  }

  /** Shares of one whole add up like their parts. */
  lemma SharesAdd(a: nat, b: nat, whole: nat)
    requires 0 < whole
    ensures a as real / whole as real + b as real / whole as real == (a + b) as real / whole as real
    ensures a + b == whole ==> a as real / whole as real + b as real / whole as real == 1.0
  {
  }
}
