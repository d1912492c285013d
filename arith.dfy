/** Facts about Python's `%` by a positive modulus (Dafny's `%` agrees with it
    there), proved once so that the models can keep `%` out of their
    invariants. */
module Arith {
  lemma MulNonNeg(a: int, b: int)
    requires a >= 0 && b >= 0
    ensures a * b >= 0
  {
  }

  /** The only multiple of `n` strictly between `-n` and `n` is zero. */
  lemma SmallMultiple(k: int, n: int)
    requires n >= 1 && -n < k * n < n
    ensures k == 0
  {
    if k >= 1 {
      MulNonNeg(k - 1, n);
      assert false;
    } else if k <= -1 {
      MulNonNeg(-k - 1, n);
      assert false;
    }
  }

  /** The remainder of `q * n + r` is `r` when `r` lies in `[0, n)`. */
  lemma ModUnique(x: int, n: int, q: int, r: int)
    requires n >= 1 && 0 <= r < n && x == q * n + r
    ensures x % n == r
  {
    var d, s := x / n, x % n;
    assert x == d * n + s;
    assert (q - d) * n == s - r;
    SmallMultiple(q - d, n);
  }

  /** Adding the modulus does not change the remainder. */
  lemma ModShift(x: int, n: int)
    requires n >= 1
    ensures (x + n) % n == x % n
  {
    var d := x / n;
    assert x == d * n + x % n;
    ModUnique(x + n, n, d + 1, x % n);
  }
}
