/** The range guards both entities share, and C#'s 32-bit `int`. */
module Checks {
  import opened Results
  import opened Decimals

  const Int32Min: int := -0x8000_0000
  const Int32Max: int := 0x7fff_ffff

  /** C#'s `int`. */
  type Int32 = x: int | Int32Min <= x <= Int32Max

  /** `x++` on an `int` outside a `checked` context: the maximum wraps round to the minimum. */
  function Increment(x: Int32): (r: Int32)
    ensures x < Int32Max ==> r == x + 1
    ensures x == Int32Max ==> r == Int32Min
  {
    if x == Int32Max then Int32Min else x + 1
  }

  /** `RequireRange(int, ...)`: the value itself when `min <= value <= max`, never clamped; otherwise the out-of-range error. */
  function RequireRange(value: int, min: int, max: int, prop: Param): (r: Result<int>)
    ensures r.Ok? <==> min <= value <= max
    ensures r.Ok? ==> r.value == value
    ensures r.Err? ==> r.error == ArgumentOutOfRange(prop)
  {
    if value < min || value > max then Err(ArgumentOutOfRange(prop)) else Ok(value)
  }

  /** `RequireRange(decimal, ...)`, against whole-number bounds, compared exactly. */
  function RequireDecimalRange(value: Decimal, min: int, max: int, prop: Param): (r: Result<Decimal>)
    ensures r.Ok? <==> InRange(value, min, max)
    ensures r.Ok? ==> r.value == value
    ensures r.Err? ==> r.error == ArgumentOutOfRange(prop)
  {
    if value.units < min * Pow10(value.scale) || value.units > max * Pow10(value.scale) then
      Err(ArgumentOutOfRange(prop))
    else
      Ok(value)
  }
}
