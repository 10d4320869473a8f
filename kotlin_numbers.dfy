/** The JVM's fixed-width integers (Kotlin `Int` and `Long`) and their arithmetic. */
module KotlinNumbers {

  const IntModulus: int := 0x1_0000_0000
  const LongModulus: int := 0x1_0000_0000_0000_0000

  /** The range of a 32-bit two's-complement integer. */
  predicate IsInt32(x: int) {
    -0x8000_0000 <= x < 0x8000_0000
  }

  /** The range of a 64-bit two's-complement integer. */
  predicate IsInt64(x: int) {
    -0x8000_0000_0000_0000 <= x < 0x8000_0000_0000_0000
  }

  /** A Kotlin `Int`. */
  type Int32 = x: int | IsInt32(x)

  /** A Kotlin `Long`. */
  type Int64 = x: int | IsInt64(x)

  /** The `Int` that an `Int` operation with exact result `x` produces (wrap-around on overflow). */
  function WrapInt(x: int): (r: Int32)
    ensures (x - r) % IntModulus == 0
    ensures IsInt32(x) ==> r == x
  {
    var m := x % IntModulus;
    if m < 0x8000_0000 then m else m - IntModulus
  }

  /** The `Long` that a `Long` operation with exact result `x` produces (wrap-around on overflow). */
  function WrapLong(x: int): (r: Int64)
    ensures (x - r) % LongModulus == 0
    ensures IsInt64(x) ==> r == x
  {
    var m := x % LongModulus;
    if m < 0x8000_0000_0000_0000 then m else m - LongModulus
  }

  /**
   * Kotlin's integer division by two, `x / 2`, which rounds toward zero
   * (Dafny's `/` rounds toward negative infinity for a positive divisor).
   */
  function HalfTowardZero(x: int): (h: int)
    ensures x >= 0 ==> 0 <= x - 2 * h <= 1
    ensures x < 0 ==> -1 <= x - 2 * h <= 0
  {
    if x >= 0 then x / 2 else -((-x) / 2)
  }

  /** The two roundings differ exactly on negative odd numbers: -3 / 2 is -1 in Kotlin, -2 in Dafny. */
  lemma HalfTowardZeroIsNotDafnyDivision()
    ensures HalfTowardZero(-3) == -1 && -3 / 2 == -2
    ensures forall x: int :: x >= 0 ==> HalfTowardZero(x) == x / 2
  {
  }
}
