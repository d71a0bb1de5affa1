/** Java's 32-bit `int` (and unboxed `Integer`) arithmetic, which the entities use
    for quantities and inventory counts. */
module JavaInt {

  const TWO_32: int := 0x1_0000_0000

  /** Whether `x` fits in a Java `int`. */
  predicate InRange(x: int) {
    -0x8000_0000 <= x < 0x8000_0000
  }

  newtype int32 = x: int | InRange(x)

  /** Java's `a + b` on `int`: the mathematical sum reduced into the 32-bit range,
      so that adding to `Integer.MAX_VALUE` wraps to a negative number. */
  function Add(a: int32, b: int32): (r: int32)
    ensures InRange(a as int + b as int) ==> r as int == a as int + b as int
    ensures (a as int + b as int - r as int) % TWO_32 == 0
    ensures 0 < a && 0 < b && !InRange(a as int + b as int) ==> r < 0
    ensures a < 0 && b < 0 && !InRange(a as int + b as int) ==> r >= 0
  {
    var s := a as int + b as int;
    assert InRange(a as int) && InRange(b as int);
    if s >= 0x8000_0000 then (s - TWO_32) as int32
    else if s < -0x8000_0000 then (s + TWO_32) as int32
    else s as int32
  }
}
