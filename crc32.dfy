/** CRC-32 as `crc32fast::hash` computes it: the reflected IEEE 802.3
    polynomial 0xEDB88320, initial value and final xor 0xFFFFFFFF. */
module Crc32 {
  import opened Bytes

  const POLYNOMIAL: bv32 := 0xEDB8_8320

  /** n rounds of the bitwise shift register. */
  function Rounds(c: bv32, n: nat): bv32
    decreases n
  {
    if n == 0 then c
    else Rounds(if c & 1 == 1 then (c >> 1) ^ POLYNOMIAL else c >> 1, n - 1)
  }

  /** The register after feeding the bytes of data in order. */
  function Update(c: bv32, data: seq<u8>): bv32
    decreases |data|
  {
    if data == [] then c
    else Update(Rounds(c ^ (data[0] as bv32), 8), data[1..])
  }

  /** The CRC-32 checksum of data. */
  function Hash(data: seq<u8>): u32
  {
    (Update(0xFFFF_FFFF, data) ^ 0xFFFF_FFFF) as int
  }
}
