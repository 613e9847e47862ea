/**
 * Java's fixed-width integers. Dafny's `int` is unbounded, so the narrowing
 * conversions the program relies on (`Number.intValue()`, `Number.shortValue()`)
 * and 32-bit wrap-around are written out here.
 */
module JavaNumbers {

  const MinInt: int := -0x8000_0000
  const MaxInt: int := 0x7FFF_FFFF
  const MinShort: int := -0x8000
  const MaxShort: int := 0x7FFF
  const MinLong: int := -0x8000_0000_0000_0000
  const MaxLong: int := 0x7FFF_FFFF_FFFF_FFFF

  /** The values of a Java `int`. */
  type Int32 = x: int | MinInt <= x <= MaxInt

  /** The values of a Java `short`. */
  type Int16 = x: int | MinShort <= x <= MaxShort

  /** The values of a Java `long`. */
  type Int64 = x: int | MinLong <= x <= MaxLong

  /** The `(int)` cast of a `long`: keep the low 32 bits and read them as signed. */
  function Wrap32(x: int): (r: Int32)
    ensures (r - x) % 0x1_0000_0000 == 0
    ensures MinInt <= x <= MaxInt ==> r == x
  {
    var m := x % 0x1_0000_0000;
    if m <= MaxInt then m else m - 0x1_0000_0000
  }

  /** The `(short)` cast of an `int` or a `long`: keep the low 16 bits and read them as signed. */
  function Wrap16(x: int): (r: Int16)
    ensures (r - x) % 0x1_0000 == 0
    ensures MinShort <= x <= MaxShort ==> r == x
  {
    var m := x % 0x1_0000;
    if m <= MaxShort then m else m - 0x1_0000
  }

  /**
   * The `(int)` cast of a `double` that has already been rounded toward zero:
   * values outside the `int` range saturate at its bounds.
   */
  function Saturate32(x: int): (r: Int32)
    ensures x <= MinInt ==> r == MinInt
    ensures x >= MaxInt ==> r == MaxInt
    ensures MinInt <= x <= MaxInt ==> r == x
  {
    if x < MinInt then MinInt else if x > MaxInt then MaxInt else x
  }
}
