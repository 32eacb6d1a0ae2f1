/**
 * The JVM's fixed-width integers as the drawer item uses them. A Kotlin `Long`
 * is held as its 64-bit two's-complement bit pattern and an `Int` as its 32-bit
 * pattern; `LongValue` and `IntValue` give the numbers they stand for.
 * `IntToLong` is Kotlin's `Int.toLong()` (sign extension) and `LongHashCode`
 * is `java.lang.Long.hashCode`, which the Java SE API documents as
 * `(int)(value ^ (value >>> 32))`.
 */
module JvmIntegers {

  /** Bit pattern of a Kotlin `Long`. */
  type Long = bv64

  /** Bit pattern of a Kotlin `Int`. */
  type Int = bv32

  /** The `Long` value `-1`. */
  const MINUS_ONE: Long := 0xFFFF_FFFF_FFFF_FFFF

  /** The signed number a `Long` pattern stands for. */
  function LongValue(b: Long): int {
    if b < 0x8000_0000_0000_0000 then b as int else b as int - 0x1_0000_0000_0000_0000
  }

  /** The signed number an `Int` pattern stands for. */
  function IntValue(b: Int): int {
    if b < 0x8000_0000 then b as int else b as int - 0x1_0000_0000
  }

  /** `Int.toLong()`: copies the sign bit into the upper 32 bits. */
  function IntToLong(i: Int): Long {
    if i < 0x8000_0000 then i as bv64 else (i as bv64) | 0xFFFF_FFFF_0000_0000
  }

  /** The `(int)` cast of a `Long`: keeps the low 32 bits. */
  function Low32(v: Long): Int {
    (v & 0xFFFF_FFFF) as bv32
  }

  /** `java.lang.Long.hashCode`: the exclusive or of the two halves of the value. */
  function LongHashCode(v: Long): Int {
    Low32(v ^ (v >> 32))
  }

  /** Two `Long` patterns are equal exactly when the numbers they stand for are. */
  lemma LongValueIsInjective(a: Long, b: Long)
    ensures LongValue(a) == LongValue(b) <==> a == b
  {
    if LongValue(a) == LongValue(b) {
      SameNumber(a, b);
      BitsOfValue(a);
      BitsOfValue(b);
    }
  }

  /** Widening an `Int` to a `Long` keeps its numeric value. */
  lemma IntToLongKeepsValue(i: Int)
    ensures LongValue(IntToLong(i)) == IntValue(i)
  {
    WidenedValue(i);
    if i >= 0x8000_0000 {
      SignFillIsAddition(i);
      AddHighHalf(i as bv64);
    }
  }

  /**
   * On the values of `Int`, `Long.hashCode` is the value itself when its sign
   * bit is clear (it is non-negative) and its bitwise complement when it is set.
   */
  lemma LongHashCodeOfInt(i: Int)
    ensures LongHashCode(IntToLong(i)) == if i < 0x8000_0000 then i else !i
  {
    if i < 0x8000_0000 {
      var v := i as bv64;
      assert IntToLong(i) == v;
      HighHalfOfZeroExtended(i);
      XorZero(v, v >> 32);
      LowHalfOfZeroExtended(i);
    } else {
      HighHalfOfSignFilled(i);
      LowHalfOfSignFilledXor(i);
    }
  }

  /**
   * `Long.hashCode` is not injective: the `Long`s `0` and `2^32 + 1` hash
   * alike, so equal hashes do not make equal identifiers.
   */
  lemma LongHashCodeIsNotInjective()
    ensures exists a: Long, b: Long :: a != b && LongHashCode(a) == LongHashCode(b)
  {
    assert LongHashCode(0) == 0 && LongHashCode(0x1_0000_0001) == 0;
  }

  /** The default identifier `-1` hashes to `0`. */
  lemma MinusOneHashesToZero()
    ensures LongValue(MINUS_ONE) == -1 && LongHashCode(MINUS_ONE) == 0
  {
    assert IntToLong(0xFFFF_FFFF) == MINUS_ONE;
    LongHashCodeOfInt(0xFFFF_FFFF);
  }

  // Single bit-vector steps of the proofs above, each small enough for the solver.

  lemma Below64(b: bv64)
    ensures b as int < 0x1_0000_0000_0000_0000
  {
  }

  lemma SameNumber(a: bv64, b: bv64)
    requires LongValue(a) == LongValue(b)
    ensures a as int == b as int
  {
    Below64(a);
    Below64(b);
  }

  lemma BitsOfValue(a: bv64)
    ensures (a as int) as bv64 == a
  {
  }

  lemma WidenedValue(i: bv32)
    ensures (i as bv64) as int == i as int
  {
  }

  lemma SignFillIsAddition(i: bv32)
    ensures (i as bv64) | 0xFFFF_FFFF_0000_0000 == (i as bv64) + 0xFFFF_FFFF_0000_0000
  {
  }

  lemma AddHighHalf(u: bv64)
    requires u < 0x1_0000_0000
    ensures (u + 0xFFFF_FFFF_0000_0000) as int == u as int + 0xFFFF_FFFF_0000_0000
  {
  }

  lemma HighHalfOfZeroExtended(i: bv32)
    ensures (i as bv64) >> 32 == 0
  {
  }

  lemma LowHalfOfZeroExtended(i: bv32)
    ensures Low32(i as bv64) == i
  {
  }

  lemma HighHalfOfSignFilled(i: bv32)
    ensures ((i as bv64) | 0xFFFF_FFFF_0000_0000) >> 32 == 0xFFFF_FFFF
  {
  }

  lemma LowHalfOfSignFilledXor(i: bv32)
    ensures Low32(((i as bv64) | 0xFFFF_FFFF_0000_0000) ^ 0xFFFF_FFFF) == !i
  {
  }

  lemma XorZero(v: bv64, w: bv64)
    requires w == 0
    ensures v ^ w == v
  {
  }
}
