/** Shared vocabulary of the firmware model: the status enums, an optional
    value, and the C integer conversions the drivers rely on (truncating
    division, narrowing casts, float-to-integer truncation). */
module Common {

  /** mpu9250_status_t and filter_status_t: ERROR = 0, OK = 1. */
  datatype Status = Error | Ok

  datatype Option<T> = None | Some(value: T)

  /** A uint8_t value. Bit operations go through bv8 where the source masks. */
  newtype byte = x: int | 0 <= x < 256

  const INT16_MIN: int := -32768
  const INT16_MAX: int := 32767

  predicate IsInt16(x: int) { INT16_MIN <= x <= INT16_MAX }

  /** A cast to int16_t on this two's-complement target: keep the low 16 bits
      and read them as signed. */
  function Wrap16(x: int): (r: int)
    ensures IsInt16(r)
    ensures (x - r) % 65536 == 0
    ensures IsInt16(x) ==> r == x
  {
    var m := x % 65536;
    if m < 32768 then m else m - 65536
  }

  /** A cast to uint8_t: reduction modulo 256. */
  function WrapU8(x: int): (r: int)
    ensures 0 <= r < 256
    ensures (x - r) % 256 == 0
    ensures 0 <= x < 256 ==> r == x
  {
    x % 256
  }

  /** A cast to uint16_t: reduction modulo 65536. */
  function WrapU16(x: int): (r: int)
    ensures 0 <= r < 65536
    ensures (x - r) % 65536 == 0
    ensures 0 <= x < 65536 ==> r == x
  {
    x % 65536
  }

  /** A cast to uint32_t: reduction modulo 2^32. */
  function WrapU32(x: int): (r: int)
    ensures 0 <= r < 0x1_0000_0000
    ensures (x - r) % 0x1_0000_0000 == 0
    ensures 0 <= x < 0x1_0000_0000 ==> r == x
  {
    x % 0x1_0000_0000
  }

  /** C's integer `/` for a positive divisor: the quotient truncates toward
      zero, so the remainder takes the sign of the dividend. */
  function CDiv(a: int, b: int): int
    requires b > 0
  {
    if a >= 0 then a / b else -((-a) / b)
  }

  /** The quotient is the one that truncates toward zero: the remainder
      a - q * b has the sign of a and is smaller than b in magnitude. */
  lemma CDivTruncates(a: int, b: int)
    requires b > 0
    ensures 0 <= a ==> 0 <= a - CDiv(a, b) * b < b
    ensures a < 0 ==> 0 <= CDiv(a, b) * b - a < b
    ensures CDiv(-a, b) == -CDiv(a, b)
  {
    if a < 0 {
      var q := (-a) / b;
      assert 0 <= (-a) - q * b < b;
    }
  }

  /** A float-to-integer conversion: truncation toward zero. */
  function Trunc(x: real): (r: int)
    ensures 0.0 <= x ==> r as real <= x < r as real + 1.0
    ensures x < 0.0 ==> r as real - 1.0 < x <= r as real
  {
    if x >= 0.0 then x.Floor else -((-x).Floor)
  }

  lemma TruncMonotone(x: real, y: real)
    requires x <= y
    ensures Trunc(x) <= Trunc(y)
  {
  }
}
