/** Bytes, 64-bit words, and division by its defining property. */
module Numbers {
  type Byte = n: nat | n < 256

  /** One more than the largest 64-bit word. */
  const WORD_LIMIT := 0x1_0000_0000_0000_0000

  lemma DivModIs(x: int, n: int, q: int, r: int)
    requires n > 0 && x == q * n + r && 0 <= r < n
    ensures x / n == q && x % n == r
  {
    var k := q - x / n;
    assert k * n == x % n - r by {
      assert k * n == q * n - (x / n) * n;
    }
    SmallMultiple(k, n);
  }

  lemma SmallMultiple(k: int, n: int)
    requires -n < k * n < n
    ensures k == 0
  {
    assert k >= 1 ==> k * n >= n;
    assert k <= -1 ==> k * n <= -n;
  }
}
