/** Octets and the little-endian layout of numbers. */
module Bytes {
  type Byte = x: int | 0 <= x < 256

  // n written in k bytes, the low-order byte first; high-order bytes that do not fit are lost.
  function LittleEndian(n: nat, k: nat): (s: seq<Byte>)
    ensures |s| == k
  {
    if k == 0 then [] else [n % 256] + LittleEndian(n / 256, k - 1)
  }
}
