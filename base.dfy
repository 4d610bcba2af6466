/** Value types shared by the whole model: an optional value and the JVM's `byte`. */
module Base {

  /** Stands for a Java reference that may be null. */
  datatype Option<T> = None | Some(value: T)

  /** Java's `byte`: a signed two's-complement 8-bit integer. */
  newtype Byte = b: int | -128 <= b < 128

  /** The narrowing cast `(byte) x`: keeps the low eight bits and reads them as signed. */
  function ToByte(x: int): (b: Byte)
    ensures (x - b as int) % 256 == 0
    ensures -128 <= x < 128 ==> b as int == x
  {
    var low := (x + 128) % 256;
    assert x - (low - 128) == 256 * ((x + 128) / 256);
    (low - 128) as Byte
  }
}
