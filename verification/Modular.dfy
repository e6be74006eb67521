/** Positions in a ring of `n` slots. */
module Modular {

  lemma ModIs(a: int, q: int, r: int, n: int)
    requires 0 <= r < n && a == q * n + r
    ensures a % n == r
  {
    var d := a / n - q;
    assert d * n == r - a % n;
    assert d >= 1 ==> d * n >= n;
    assert d <= -1 ==> d * n <= -n;
  }

  /** Going one slot on. */
  lemma ModNext(a: int, n: int)
    requires 0 < n
    ensures (a + 1) % n == if a % n + 1 == n then 0 else a % n + 1
  {
    var q := a / n;
    if a % n + 1 == n {
      assert a + 1 == (q + 1) * n + 0;
      ModIs(a + 1, q + 1, 0, n);
    } else {
      ModIs(a + 1, q, a % n + 1, n);
    }
  }

  /** Going on by any part of a round. */
  lemma ModPlus(a: int, k: int, n: int)
    requires 0 <= k <= n && 0 < n
    ensures (a + k) % n == if a % n + k >= n then a % n + k - n else a % n + k
  {
    var q := a / n;
    if a % n + k >= n {
      assert a + k == (q + 1) * n + (a % n + k - n);
      ModIs(a + k, q + 1, a % n + k - n, n);
    } else {
      ModIs(a + k, q, a % n + k, n);
    }
  }

  /** Less than a whole round apart is never the same slot. */
  lemma ModDiffers(a: int, b: int, n: int)
    requires 0 < n && a < b < a + n
    ensures a % n != b % n
  {
    ModPlus(a, b - a, n);
  }
}
