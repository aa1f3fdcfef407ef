/** Java's 32-bit `int` and its wrapping subtraction. */
module Int32 {

  const Modulus: int := 0x1_0000_0000

  predicate InRange(x: int) {
    -0x8000_0000 <= x < 0x8000_0000
  }

  newtype int32 = x: int | -0x8000_0000 <= x < 0x8000_0000

  /** `a - b` on Java ints: the exact difference, reduced modulo 2^32 into the signed range. */
  function Sub(a: int32, b: int32): (r: int32)
    ensures InRange(a as int - b as int) ==> r as int == a as int - b as int
    ensures (a as int - b as int - r as int) % Modulus == 0
    ensures a as int - b as int < -0x8000_0000 ==> r as int == a as int - b as int + Modulus
    ensures a as int - b as int >= 0x8000_0000 ==> r as int == a as int - b as int - Modulus
  {
    var d := a as int - b as int;
    if d < -0x8000_0000 then (d + Modulus) as int32
    else if d >= 0x8000_0000 then (d - Modulus) as int32
    else d as int32
  }

  /** Two non-negative ints never overflow when subtracted. */
  lemma SubOfNonNegativeIsExact(a: int32, b: int32)
    requires a >= 0 && b >= 0
    ensures Sub(a, b) as int == a as int - b as int
  {
  }
}
