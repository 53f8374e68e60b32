/** Scalar representations of the two metric kinds and a small Option type.

    A counter is a Go `int64`: its arithmetic wraps around at 64 bits.
    A gauge is a Go `float64`: it is only stored and overwritten, never computed
    on, so it is kept here as its IEEE 754 bit pattern and never interpreted. */
module Values {

  datatype Option<T> = None | Some(value: T)

  const MinInt64: int := -0x8000_0000_0000_0000
  const MaxInt64: int := 0x7FFF_FFFF_FFFF_FFFF
  const TwoTo64: int := 0x1_0000_0000_0000_0000

  newtype Int64 = x: int | -0x8000_0000_0000_0000 <= x < 0x8000_0000_0000_0000

  /** Go's `+` on two `int64` values: the mathematical sum reduced into the
      64-bit two's-complement range. */
  function WrapAdd(a: Int64, b: Int64): (r: Int64)
    ensures (r as int - (a as int + b as int)) % TwoTo64 == 0
    ensures MinInt64 <= a as int + b as int <= MaxInt64 ==> r as int == a as int + b as int
    ensures a as int + b as int > MaxInt64 ==> r < 0 && b > 0
    ensures a as int + b as int < MinInt64 ==> r >= 0 && b < 0
  {
    var s := a as int + b as int;
    if s > MaxInt64 then (s - TwoTo64) as Int64
    else if s < MinInt64 then (s + TwoTo64) as Int64
    else s as Int64
  }

  /** A `float64`, as its 64-bit IEEE 754 pattern. */
  datatype Float64 = Float64(bits: bv64)

  /** The `float64` value 1.0. */
  const One: Float64 := Float64(0x3FF0_0000_0000_0000)

  /** The storage's value types (`storage.Gauge`, `storage.Counter`). */
  type Gauge = Float64
  type Counter = Int64
}
