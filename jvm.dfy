/** The few pieces of Java semantics the modelled code relies on: the
    exceptions it throws, the `Result` of a call that may throw, and the
    narrowing conversions to `short` and `byte`. */
module Jvm {

  /** The exceptions the modelled classes raise. */
  datatype Exception =
    | IllegalArgument(parameter: string, value: int)  // IllegalArgumentException naming the rejected argument
    | ArrayIndexOutOfBounds(index: int)
    | NegativeArraySize(size: int)
    | NullPointer

  /** The outcome of a Java call: a returned value or a thrown exception. */
  datatype Result<+T> = Ok(value: T) | Throw(exception: Exception)

  /** A Java reference that may be null. */
  datatype Option<+T> = None | Some(value: T)

  /** Narrowing conversion `(short) x`: keeps the low 16 bits, read as two's complement. */
  function ShortOf(x: int): (s: int)
    ensures -0x8000 <= s < 0x8000
    ensures (x - s) % 0x1_0000 == 0
    ensures -0x8000 <= x < 0x8000 ==> s == x
  {
    (x + 0x8000) % 0x1_0000 - 0x8000
  }

  /** Narrowing conversion `(byte) x`: keeps the low 8 bits, read as two's complement. */
  function ByteOf(x: int): (b: int)
    ensures -0x80 <= b < 0x80
    ensures (x - b) % 0x100 == 0
    ensures -0x80 <= x < 0x80 ==> b == x
  {
    (x + 0x80) % 0x100 - 0x80
  }

  /** The bit pattern of a Java `byte` read as an unsigned octet, as it goes on the wire. */
  function Unsigned(b: int): (u: int)
    requires -0x80 <= b < 0x80
    ensures 0 <= u < 0x100
    ensures (u - b) % 0x100 == 0
  {
    if b < 0 then b + 0x100 else b
  }

  /** `x | 1` for a Java integer `x`: sets the lowest bit. */
  function SetLowBit(x: int): (r: int)
    ensures r % 2 == 1
    ensures r - x == 0 || r - x == 1
  {
    if x % 2 == 0 then x + 1 else x
  }

  /** On an even number, `| 1` adds one. */
  lemma SetLowBitOfEven(v: int)
    ensures SetLowBit(2 * v) == 2 * v + 1
  {
  }
}
