/** Facts about Euclidean `%` with a positive modulus. Python's `%` with a
    positive right operand agrees with Dafny's, so these are the facts the
    circular buffers of the effects rely on. */
module Modular {

  /** The remainder is determined by any division of `a` by `n`. */
  lemma ModUnique(a: int, n: int, q: int, r: int)
    requires n > 0 && 0 <= r < n && a == q * n + r
    ensures a % n == r
  {
    var q0, r0 := a / n, a % n;
    assert a == q0 * n + r0;
    assert (q - q0) * n == r0 - r;
    if q > q0 {
      assert (q - q0) * n >= n by { MulAtLeast(q - q0, n); }
    } else if q < q0 {
      assert (q0 - q) * n >= n by { MulAtLeast(q0 - q, n); }
    }
  }

  lemma MulAtLeast(d: int, n: int)
    requires d >= 1 && n > 0
    ensures d * n >= n
  {
  }

  /** Shifting by a whole number of periods does not change the remainder. */
  lemma ModShift(a: int, n: int, q: int)
    requires n > 0
    ensures (a + q * n) % n == a % n
  {
    ModUnique(a + q * n, n, a / n + q, a % n);
  }

  /** Two offsets closer than one period land on different cells. */
  lemma ModDistinct(a: int, i: int, j: int, n: int)
    requires n > 0 && i < j < i + n
    ensures (a + i) % n != (a + j) % n
  {
    var qi, qj := (a + i) / n, (a + j) / n;
    if (a + i) % n == (a + j) % n {
      assert (qj - qi) * n == j - i;
      MulSign(qj - qi, n);
    }
  }

  lemma MulSign(d: int, n: int)
    requires n > 0
    ensures d <= 0 ==> d * n <= 0
    ensures d >= 1 ==> d * n >= n
  {
    if d >= 1 { MulAtLeast(d, n); }
  }

  /** Going from window slot `k` to the cell `(k + idx) % n` and back by
      `- idx` returns to `k`, for every slot in `[0, n)`. */
  lemma WindowInverse(k: int, idx: int, n: int)
    requires n > 0 && 0 <= k < n
    ensures ((k + idx) % n - idx) % n == k
  {
    var c := (k + idx) % n;
    var q := (k + idx) / n;
    assert k + idx == q * n + c;
    ModUnique(c - idx, n, -q, k);
  }

  /** Moving one step forward commutes with taking the remainder. */
  lemma ModSucc(a: int, n: int)
    requires n > 0
    ensures (a % n + 1) % n == (a + 1) % n
  {
    var q := a / n;
    assert a == q * n + a % n;
    assert a % n + 1 == (a + 1) + (-q) * n;
    ModShift(a + 1, n, -q);
  }

  /** A counter kept modulo `n`: one step past `start + k` is `start + (k + 1)`. */
  lemma CountStep(start: int, k: int, n: int, c: int, next: int)
    requires n > 0 && c == (start + k) % n && next == (c + 1) % n
    ensures next == (start + (k + 1)) % n
  {
    ModSucc(start + k, n);
  }

  /** Subtracting an offset from a cursor, modulo `n`, depends only on the
      offset's remainder. */
  lemma ModSubMod(a: int, d: int, n: int)
    requires n > 0
    ensures (a % n - d) % n == (a - d % n) % n
  {
    var qa, qd, q, r := a / n, d / n, (a - d) / n, (a - d) % n;
    assert a % n - d == (q - qa) * n + r by {
      assert a == qa * n + a % n && a - d == q * n + r;
      assert (q - qa) * n == q * n - qa * n;
    }
    assert a - d % n == (q + qd) * n + r by {
      assert d == qd * n + d % n && a - d == q * n + r;
      assert (q + qd) * n == q * n + qd * n;
    }
    ModUnique(a % n - d, n, q - qa, r);
    ModUnique(a - d % n, n, q + qd, r);
  }

  /** The chorus read cell: `d` behind a cursor that stands at `start + t`
      is the cell of step `t - d % n`. */
  lemma ReadCell(start: int, t: int, d: int, n: int, cursor: int, cell: int)
    requires n > 0 && cursor == (start + t) % n && cell == (cursor - d) % n
    ensures cell == (start + (t - d % n)) % n
  {
    ModSubMod(start + t, d, n);
    assert start + t - d % n == start + (t - d % n);
  }
}
