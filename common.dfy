/**
 Shared vocabulary of the model: optional values, opaque OS/driver handles,
 the 32-bit sentinel the graphics code uses for "no index", and C/C++ integer
 division, which truncates toward zero (Dafny's `/` on `int` is Euclidean).
 */
module Common {

  datatype Option<+T> = None | Some(value: T)

  /** An opaque OS handle (HWND, HINSTANCE, ...); 0 is the null handle. */
  type Handle = nat

  const NullHandle: Handle := 0

  /** UINT32_MAX, used as the "no queue family" sentinel. */
  const Uint32Max: nat := 0xFFFF_FFFF

  /** Euclidean division of a non-negative dividend: a non-negative floor. */
  lemma DivBounds(a: int, d: int)
    requires a >= 0 && d > 0
    ensures 0 <= a / d && (a / d) * d <= a < (a / d) * d + d
  {
    var q, r := a / d, a % d;
    assert q * d + r == a && 0 <= r < d;
    assert (q + 1) * d == q * d + d;
    assert (q + 1) * d > 0;
  }

  /**
   Integer division as C and C++ compute it for `long` and `int`: the quotient
   is truncated toward zero, so the remainder takes the sign of the dividend.
   */
  function TruncDiv(a: int, d: int): (q: int)
    requires d > 0
    ensures a >= 0 ==> 0 <= q && q * d <= a < q * d + d
    ensures a < 0 ==> q <= 0 && q * d - d < a <= q * d
  {
    if a >= 0 then
      DivBounds(a, d);
      a / d
    else
      var p := (-a) / d;
      DivBounds(-a, d);
      assert (-p) * d == -(p * d);
      -p
  }
}
