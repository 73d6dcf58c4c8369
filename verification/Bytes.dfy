// Machine integers of the annotation library, as ranges of mathematical
// integers, and the two fixed-width fields of a frame.

module Bytes {

  type byte = x: int | 0 <= x < 256
  type u32 = x: int | 0 <= x < 0x1_0000_0000
  type i32 = x: int | -0x8000_0000 <= x < 0x8000_0000
  type u64 = x: int | 0 <= x < 0x1_0000_0000_0000_0000
  type i64 = x: int | -0x8000_0000_0000_0000 <= x < 0x8000_0000_0000_0000

  /** The text of a C string: no byte is NUL. A NULL pointer counts as the empty text. */
  type cstring = s: seq<byte> | 0 !in s

  /** The implicit conversion at a call that passes a uint32_t to an int32_t parameter. */
  function AsInt32(x: u32): i32 {
    if x < 0x8000_0000 then x else x - 0x1_0000_0000
  }

  function AsUint32(x: i32): u32 {
    if x >= 0 then x else x + 0x1_0000_0000
  }

  function AsInt64(x: u64): i64 {
    if x < 0x8000_0000_0000_0000 then x else x - 0x1_0000_0000_0000_0000
  }

  function AsUint64(x: i64): u64 {
    if x >= 0 then x else x + 0x1_0000_0000_0000_0000
  }

  /** The four bytes of gator_buf_write_uint32, lowest first. */
  function Uint32Bytes(x: u32): (bs: seq<byte>)
    ensures |bs| == 4
  {
    [x % 256, (x / 0x100) % 256, (x / 0x1_0000) % 256, (x / 0x100_0000) % 256]
  }

  function Uint32Of(bs: seq<byte>): u32
    requires |bs| == 4
  {
    bs[0] as int + 0x100 * bs[1] as int + 0x1_0000 * bs[2] as int + 0x100_0000 * bs[3] as int
  }

  lemma Uint32RoundTrip(x: u32)
    ensures Uint32Of(Uint32Bytes(x)) == x
  {
    var y, z := x / 0x100, x / 0x1_0000;
    assert z == y / 0x100 && x / 0x100_0000 == z / 0x100;
    assert x == x % 0x100 + 0x100 * y && y == y % 0x100 + 0x100 * z;
    assert z == z % 0x100 + 0x100 * (z / 0x100) && z / 0x100 < 0x100;
  }

  /** gator_buf_write_color writes the lowest byte, the ESC or alpha byte of the ANNOTATE_* colours, last. */
  function ColorBytes(color: u32): (bs: seq<byte>)
    ensures |bs| == 4
  {
    [(color / 0x100) % 256, (color / 0x1_0000) % 256, (color / 0x100_0000) % 256, color % 256]
  }

  function ColorOf(bs: seq<byte>): u32
    requires |bs| == 4
  {
    Uint32Of([bs[3], bs[0], bs[1], bs[2]])
  }

  lemma ColorRoundTrip(color: u32)
    ensures ColorOf(ColorBytes(color)) == color
  {
    Uint32RoundTrip(color);
  }

  /** On the wire the named colours of the header are red, green and blue, in this order, and the ESC byte. */
  lemma NamedColors()
    ensures ColorBytes(0x0000_ff1b) == [0xff, 0x00, 0x00, 0x1b]  // ANNOTATE_RED
    ensures ColorBytes(0x00ff_001b) == [0x00, 0xff, 0x00, 0x1b]  // ANNOTATE_GREEN
    ensures ColorBytes(0xff00_001b) == [0x00, 0x00, 0xff, 0x1b]  // ANNOTATE_BLUE
    ensures Uint32Bytes(0x0403_0201) == [1, 2, 3, 4]
  {
  }

  lemma Associative(a: seq<byte>, b: seq<byte>, c: seq<byte>)
    ensures a + b + c == a + (b + c)
  {
  }
}
