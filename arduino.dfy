/** The Arduino runtime as the firmware sees it: the 32-bit `unsigned long` clock
    and the two pin levels. */
module Arduino {

  /** 2^32: `unsigned long` arithmetic on the AVR wraps modulo this. */
  const ULongModulus: int := 0x1_0000_0000

  /** An `unsigned long`, such as a value of `millis()`. */
  type ULong = x: int | 0 <= x < 0x1_0000_0000

  /** A 16-bit AVR `int`. */
  type Int16 = x: int | -0x8000 <= x < 0x8000

  /** `a + b` in `unsigned long` arithmetic: `b` is converted to `unsigned long` first,
      so a negative `b` wraps as well. */
  function WrapAdd(a: ULong, b: int): (r: ULong)
    ensures 0 <= a + b < ULongModulus ==> r == a + b
    ensures a + b >= ULongModulus && b < ULongModulus ==> r == a + b - ULongModulus
  {
    (a + b) % ULongModulus
  }

  /** The level `digitalWrite` drives a pin to. */
  datatype Level = Low | High
}
