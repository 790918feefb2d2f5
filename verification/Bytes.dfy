/** Bytes, and 16-bit numbers written with the low byte first. */
module Bytes {
  type Byte = b: int | 0 <= b < 256

  function U16(value: nat): (r: seq<Byte>)
    ensures |r| == 2
  {
    [value % 256, value / 256 % 256]
  }

  function LoadU16(low: Byte, high: Byte): (value: nat)
    ensures value < 65536
  {
    low + 256 * high
  }

  lemma LoadStored(value: nat)
    requires value < 65536
    ensures LoadU16(U16(value)[0], U16(value)[1]) == value
  {
  }

  lemma StoreLoaded(low: Byte, high: Byte)
    ensures U16(LoadU16(low, high)) == [low, high]
  {
  }
}
