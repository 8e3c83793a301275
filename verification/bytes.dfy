/** Machine integers of the Rust code (`u8`, `u16`, `u32`) and the big-endian
    split of a `u16` into two bytes (`u16::to_be_bytes` / `u16::from_be_bytes`). */
module Bytes {

  type Byte = b: int | 0 <= b < 0x100
  type U16 = v: int | 0 <= v < 0x1_0000
  type U32 = v: int | 0 <= v < 0x1_0000_0000

  /** `v.to_be_bytes()`: the high byte first. */
  function ToBeBytes(v: U16): (r: seq<Byte>)
    ensures |r| == 2
    ensures (r[0] as int) * 0x100 + (r[1] as int) == v
  {
    [v / 0x100, v % 0x100]
  }

  /** `u16::from_be_bytes([hi, lo])`. */
  function FromBeBytes(hi: Byte, lo: Byte): (v: U16)
    ensures ToBeBytes(v) == [hi, lo]
  {
    hi * 0x100 + lo
  }

  /** The two conversions are inverse to each other in the other direction as well. */
  lemma BeBytesRoundTrip(v: U16)
    ensures FromBeBytes(ToBeBytes(v)[0], ToBeBytes(v)[1]) == v
  {
  }
}
