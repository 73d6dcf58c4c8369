// Signed LEB128 (section 7.6 of DWARF Version 5), the packing of every integer
// in a frame payload.

module Leb128 {
  import opened Bytes

  datatype Decoded = Truncated | Value(value: int, rest: seq<byte>)

  /** What the packing loop emits. `x / 128` floors, as the arithmetic right shift does. */
  function Encode(x: int): (bs: seq<byte>)
    ensures |bs| >= 1
    decreases if x < 0 then -x else x
  {
    var low := x % 128;
    var high := x / 128;
    if (high == 0 && low < 64) || (high == -1 && low >= 64)
    then [low]
    else [low + 128] + Encode(high)
  }

  lemma EncodeStep(x: int)
    ensures var low, high := x % 128, x / 128;
            Encode(x) == if (high == 0 && low < 64) || (high == -1 && low >= 64) then [low]
                         else [low + 128] + Encode(high)
  {
  }

  /** The decoder of the standard: seven bits a byte, the last byte carries the sign in bit 6. */
  function Decode(bs: seq<byte>): Decoded {
    if bs == [] then
      Truncated
    else if bs[0] < 128 then
      Value(if bs[0] < 64 then bs[0] as int else bs[0] as int - 128, bs[1..])
    else
      match Decode(bs[1..])
      case Truncated => Truncated
      case Value(v, rest) => Value(bs[0] as int - 128 + 128 * v, rest)
  }

  /** The examples of the standard. */
  lemma StandardExamples()
    ensures Encode(2) == [2] && Encode(-2) == [0x7e]
    ensures Encode(127) == [127 + 0x80, 0] && Encode(-127) == [1 + 0x80, 0x7f]
    ensures Encode(128) == [0 + 0x80, 1] && Encode(-128) == [0 + 0x80, 0x7f]
    ensures Encode(129) == [1 + 0x80, 1] && Encode(-129) == [0x7f + 0x80, 0x7e]
  {
  }

  /** Self-delimiting round trip: whatever follows an encoding is left untouched. */
  lemma {:induction false} RoundTrip(x: int, rest: seq<byte>)
    ensures Decode(Encode(x) + rest) == Value(x, rest)
    decreases if x < 0 then -x else x
  {
    var low, high := x % 128, x / 128;
    var bs := Encode(x) + rest;
    if (high == 0 && low < 64) || (high == -1 && low >= 64) {
      assert bs[0] == low && bs[1..] == rest;
    } else {
      RoundTrip(high, rest);
      assert bs[0] == low + 128 && bs[1..] == Encode(high) + rest;
    }
  }

  /** Half the number of values that n bytes can carry: 64 * 128^(n-1). */
  function HalfRange(n: nat): (h: int)
    requires n >= 1
    ensures h >= 64
  {
    if n == 1 then 64 else 128 * HalfRange(n - 1)
  }

  /** An encoding takes at most n bytes exactly when x is in the range of n seven-bit groups. */
  lemma {:induction false} LengthIff(x: int, n: nat)
    requires n >= 1
    ensures |Encode(x)| <= n <==> -HalfRange(n) <= x < HalfRange(n)
    decreases n
  {
    var low, high := x % 128, x / 128;
    if !((high == 0 && low < 64) || (high == -1 && low >= 64)) && n > 1 {
      LengthIff(high, n - 1);
    }
  }

  /** The sizes the reservations rely on: MAXSIZE_PACK_INT and MAXSIZE_PACK_LONG. */
  lemma PackedSizes(x: int)
    ensures -0x8000_0000 <= x < 0x8000_0000 ==> |Encode(x)| <= 5
    ensures -0x8000_0000_0000_0000 <= x < 0x8000_0000_0000_0000 ==> |Encode(x)| <= 10
  {
    LengthIff(x, 5);
    LengthIff(x, 10);
    assert HalfRange(3) == 0x10_0000;
    assert HalfRange(5) == 0x4_0000_0000;
    assert HalfRange(7) == 0x1_0000_0000_0000;
    assert HalfRange(9) == 0x4000_0000_0000_0000;
    assert HalfRange(10) == 128 * HalfRange(9);
  }

  /** What a whole byte sequence decodes to lies in the range of its length. */
  lemma {:induction false} DecodedRange(bs: seq<byte>)
    requires Decode(bs).Value? && Decode(bs).rest == []
    ensures |bs| >= 1 && -HalfRange(|bs|) <= Decode(bs).value < HalfRange(|bs|)
    decreases |bs|
  {
    if bs[0] >= 128 {
      DecodedRange(bs[1..]);
    }
  }

  /** No valid encoding of x is shorter, and no other one is as short. */
  lemma {:induction false} ShortestAndUnique(bs: seq<byte>)
    requires Decode(bs).Value? && Decode(bs).rest == []
    ensures |Encode(Decode(bs).value)| <= |bs|
    ensures |Encode(Decode(bs).value)| == |bs| ==> bs == Encode(Decode(bs).value)
    decreases |bs|
  {
    var x := Decode(bs).value;
    DecodedRange(bs);
    LengthIff(x, |bs|);
    if bs[0] >= 128 {
      ShortestAndUnique(bs[1..]);
      assert x / 128 == Decode(bs[1..]).value && x % 128 == bs[0] - 128;
    }
  }
}
