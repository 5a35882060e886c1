/** The few `Math` operations the screens use, on unbounded integers. */
module JsMath {

  /** `Math.min(a, b)` */
  function Min(a: int, b: int): (r: int)
    ensures r <= a && r <= b
    ensures r == a || r == b
  {
    if a <= b then a else b
  }

  /** `Math.max(a, b)` */
  function Max(a: int, b: int): (r: int)
    ensures r >= a && r >= b
    ensures r == a || r == b
  {
    if a >= b then a else b
  }

  /** `Math.ceil(n / d)` for a non-negative `n` and a positive `d`: the least `r` with `r * d >= n`. */
  function CeilDiv(n: nat, d: nat): (r: nat)
    requires d > 0
    ensures r * d >= n
    ensures r == 0 || (r - 1) * d < n
  {
    (n + d - 1) / d
  }

}
