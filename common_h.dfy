/**
 * The shared definitions of the application header: the status codes every
 * CUBE function returns, the CLAMP macro, and the C integer operations the
 * renderer's arithmetic depends on.
 */
module Common {
  const CUBE_SUCCESS: int := 0
  const CUBE_FAILURE: int := 1

  const UINT32_LIMIT: int := 0x1_0000_0000

  /**
   * CLAMP(x, lo, hi): `x < lo ? lo : x > hi ? hi : x`. The lower bound is
   * tested first, so when lo > hi the result is lo for x below lo and hi
   * otherwise, and never x itself.
   */
  function Clamp(x: int, lo: int, hi: int): (r: int)
    ensures r == x || r == lo || r == hi
    ensures lo <= hi ==> lo <= r <= hi
    ensures lo <= x <= hi ==> r == x
    ensures x < lo ==> r == lo
    ensures lo <= x && hi < x ==> r == hi
    ensures lo > hi ==> r != x && r == (if x < lo then lo else hi)
  {
    if x < lo then lo else if x > hi then hi else x
  }

  /** Clamping into a non-empty range twice changes nothing more. */
  lemma ClampIdempotent(x: int, lo: int, hi: int)
    requires lo <= hi
    ensures Clamp(Clamp(x, lo, hi), lo, hi) == Clamp(x, lo, hi)
  {
  }

  /**
   * With inverted bounds clamping is not idempotent: a second clamp moves a
   * result of lo to hi and a result of hi to lo.
   */
  lemma ClampInvertedAlternates(x: int, lo: int, hi: int)
    requires lo > hi
    ensures Clamp(Clamp(x, lo, hi), lo, hi) != Clamp(x, lo, hi)
  {
  }

  /** The conversion of an int to uint32_t: reduction modulo 2^32. */
  function ToUint32(x: int): (r: nat)
    ensures r < UINT32_LIMIT
    ensures (r - x) % UINT32_LIMIT == 0
    ensures 0 <= x < UINT32_LIMIT ==> r == x
  {
    x % UINT32_LIMIT
  }

  const INT32_LIMIT: int := 0x8000_0000

  /** The conversion of a wider integer to a 32-bit int: two's-complement wrap-around. */
  function ToInt32(x: int): (r: int)
    ensures -INT32_LIMIT <= r < INT32_LIMIT
    ensures (r - x) % UINT32_LIMIT == 0
    ensures -INT32_LIMIT <= x < INT32_LIMIT ==> r == x
  {
    var u := x % UINT32_LIMIT;
    if u >= INT32_LIMIT then u - UINT32_LIMIT else u
  }

  /** C's `/` on int: the quotient truncated toward zero. */
  function CDiv(a: int, b: int): (q: int)
    requires b > 0
    ensures a >= 0 ==> 0 <= q && q * b <= a < (q + 1) * b
    ensures a < 0 ==> q <= 0 && (q - 1) * b < a <= q * b
  {
    if a >= 0 then
      QuotientBounds(a, b);
      a / b
    else
      QuotientBounds(-a, b);
      -((-a) / b)
  }

  /** Euclidean division of a non-negative dividend, in the form CDiv's contract uses. */
  lemma QuotientBounds(n: int, b: int)
    requires n >= 0 && b > 0
    ensures 0 <= n / b
    ensures (n / b) * b <= n < ((n / b) + 1) * b
    ensures (-(n / b) - 1) * b < -n <= (-(n / b)) * b
  {
    var q := n / b;
    assert n == q * b + n % b && 0 <= n % b < b;
    assert (q + 1) * b == q * b + b;
    assert (-q) * b == -(q * b);
    assert (-q - 1) * b == -(q * b) - b;
  }

  /** C's `%` on int: the remainder takes the sign of the dividend. */
  function CRem(a: int, b: int): (r: int)
    requires b > 0
    ensures -b < r < b
    ensures a >= 0 ==> 0 <= r
    ensures a <= 0 ==> r <= 0
    ensures a == CDiv(a, b) * b + r
    ensures a >= 0 ==> r == a % b
  {
    var q := CDiv(a, b);
    if a >= 0 then
      assert a == (a / b) * b + a % b;
      a % b
    else
      assert -a == ((-a) / b) * b + (-a) % b;
      assert q * b == -(((-a) / b) * b);
      -((-a) % b)
  }
}
