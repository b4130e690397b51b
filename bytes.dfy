/** Unsigned bytes and little-endian 16-bit values read from a frame. */
module Bytes {

  /** One octet of a frame. */
  type byte = b: int | 0 <= b < 0x100

  /** An unsigned 16-bit value. */
  type u16 = v: int | 0 <= v < 0x1_0000

  /** The unsigned 16-bit value whose low byte is `lo` and whose high byte is `hi`. */
  function U16le(lo: byte, hi: byte): (v: u16)
    ensures v % 0x100 == lo && v / 0x100 == hi
  {
    lo + 0x100 * hi
  }

  /** The byte at the lower address of the little-endian encoding of `v`. */
  function LowByte(v: u16): byte
  {
    v % 0x100
  }

  /** The byte at the higher address of the little-endian encoding of `v`. */
  function HighByte(v: u16): byte
  {
    v / 0x100
  }

  /** Splitting a 16-bit value into its two bytes and reading them back gives the value. */
  lemma U16leOfBytes(v: u16)
    ensures U16le(LowByte(v), HighByte(v)) == v
  {
  }
}
