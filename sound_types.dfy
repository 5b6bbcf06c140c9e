/** Basic value types and constants shared by the mixer model. */
module SoundTypes {

  /** An unsigned 8-bit sample byte, the format of the effect lumps. */
  type Byte = x: int | 0 <= x < 0x100

  /** A signed 16-bit PCM value, the format of the output stream and the music buffer. */
  type Int16 = x: int | -0x8000 <= x < 0x8000

  datatype Option<T> = None | Some(value: T)

  /** NUM_CHANNELS: the fixed number of internal mixing channels. */
  const NumChannels: nat := 8

  /** 2^32: the modulus of `unsigned int` arithmetic. */
  const Unsigned32: int := 0x1_0000_0000

  /**
   * The product `a * b`, written as repeated addition of `a` so that
   * unfolding it never puts a product of two unknowns in front of the
   * solver; `ProductIsMultiplication` connects it to `*`.
   */
  function Product(a: int, b: int): int
    decreases if b < 0 then -b else b
  {
    if b == 0 then 0
    else if b > 0 then Product(a, b - 1) + a
    else Product(a, b + 1) - a
  }

  lemma {:induction false} ProductIsMultiplication(a: int, b: int)
    ensures Product(a, b) == a * b
    decreases if b < 0 then -b else b
  {
    if b > 0 {
      ProductIsMultiplication(a, b - 1);
    } else if b < 0 {
      ProductIsMultiplication(a, b + 1);
    }
  }

  /** The distance between two integers. */
  function Distance(x: int, y: int): nat
  {
    if x < y then y - x else x - y
  }

  /** Saturation of a 32-bit accumulator to 16 bits: the representable value nearest to `x`. */
  function ClampToInt16(x: int): (r: Int16)
    ensures forall y: Int16 :: Distance(x, r) <= Distance(x, y)
    ensures -0x8000 <= x <= 0x7fff ==> r == x
  {
    if x > 0x7fff then 0x7fff
    else if x < -0x8000 then -0x8000
    else x
  }
}
