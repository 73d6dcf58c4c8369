// The gator_buf_write_* functions, in place on the ring. Each is specified by
// the one `Put` it amounts to.

module Writers {
  import opened Bytes
  import opened Ring
  import Leb128

  method WriteByte(buf: array<byte>, writePos: nat, b: byte) returns (next: nat, count: nat)
    requires buf.Length == SIZE && writePos < SIZE
    modifies buf
    ensures buf[..] == Put(old(buf[..]), writePos, [b])
    ensures next == Pos(writePos + 1) && count == 1
  {
    buf[writePos] := b;
    next := Pos(writePos + 1);
    count := 1;
    PutNothing(old(buf[..]), writePos);
    PutByte(old(buf[..]), writePos, [], b);
    assert [] + [b] == [b];
  }

  /** Four bytes, each masked into the ring on its own. */
  method WriteFour(buf: array<byte>, writePos: nat, bs: seq<byte>)
    requires buf.Length == SIZE && writePos < SIZE && |bs| == 4
    modifies buf
    ensures buf[..] == Put(old(buf[..]), writePos, bs)
  {
    ghost var was: slots := buf[..];
    buf[Pos(writePos + 0)] := bs[0];
    buf[Pos(writePos + 1)] := bs[1];
    buf[Pos(writePos + 2)] := bs[2];
    buf[Pos(writePos + 3)] := bs[3];
    PutNothing(was, writePos);
    PutByte(was, writePos, [], bs[0]);
    PutByte(was, writePos, [bs[0]], bs[1]);
    PutByte(was, writePos, [bs[0], bs[1]], bs[2]);
    PutByte(was, writePos, [bs[0], bs[1], bs[2]], bs[3]);
    hide Put;
    assert [] + [bs[0]] == [bs[0]] && [bs[0]] + [bs[1]] == [bs[0], bs[1]];
    assert [bs[0], bs[1]] + [bs[2]] == [bs[0], bs[1], bs[2]] && [bs[0], bs[1], bs[2]] + [bs[3]] == bs;
  }

  method WriteUint32(buf: array<byte>, writePos: nat, x: u32) returns (next: nat, count: nat)
    requires buf.Length == SIZE && writePos < SIZE
    modifies buf
    ensures buf[..] == Put(old(buf[..]), writePos, Uint32Bytes(x))
    ensures next == Pos(writePos + 4) && count == 4
  {
    WriteFour(buf, writePos, [x % 256, (x / 0x100) % 256, (x / 0x1_0000) % 256, (x / 0x100_0000) % 256]);
    next := Pos(writePos + 4);
    count := 4;
  }

  method WriteColor(buf: array<byte>, writePos: nat, color: u32) returns (next: nat, count: nat)
    requires buf.Length == SIZE && writePos < SIZE
    modifies buf
    ensures buf[..] == Put(old(buf[..]), writePos, ColorBytes(color))
    ensures next == Pos(writePos + 4) && count == 4
  {
    WriteFour(buf, writePos,
              [(color / 0x100) % 256, (color / 0x1_0000) % 256, (color / 0x100_0000) % 256, color % 256]);
    next := Pos(writePos + 4);
    count := 4;
  }

  /** gator_buf_write_int and gator_buf_write_long are this loop at two widths. */
  method WritePacked(buf: array<byte>, writePos: nat, value: int) returns (next: nat, packed: nat)
    requires buf.Length == SIZE && writePos < SIZE
    requires |Leb128.Encode(value)| <= SIZE
    modifies buf
    ensures buf[..] == Put(old(buf[..]), writePos, Leb128.Encode(value))
    ensures next == Pos(writePos + |Leb128.Encode(value)|) && packed == |Leb128.Encode(value)|
  {
    hide Put, Leb128.Encode;
    ghost var was: slots := buf[..];
    ghost var done: seq<byte> := [];
    var x := value;
    var more := true;
    packed := 0;
    PutNothing(was, writePos);
    while more
      invariant packed == |done| <= SIZE
      invariant buf[..] == Put(was, writePos, done)
      invariant Leb128.Encode(value) == done + if more then Leb128.Encode(x) else []
      decreases more, if x < 0 then -x else x
    {
      var b: byte := x % 128;
      ghost var rest := Leb128.Encode(x);
      Leb128.EncodeStep(x);
      x := x / 128;
      if (x == 0 && b < 64) || (x == -1 && b >= 64) {
        more := false;
      } else {
        b := b + 128;
      }
      buf[Pos(writePos + packed)] := b;
      PutByte(was, writePos, done, b);
      assert rest == [b] + if more then Leb128.Encode(x) else [];
      Associative(done, [b], if more then Leb128.Encode(x) else []);
      done := done + [b];
      packed := packed + 1;
    }
    assert done == Leb128.Encode(value);
    next := Pos(writePos + packed);
  }

  method WriteInt(buf: array<byte>, writePos: nat, x: i32) returns (next: nat, count: nat)
    requires buf.Length == SIZE && writePos < SIZE
    modifies buf
    ensures |Leb128.Encode(x)| <= 5
    ensures buf[..] == Put(old(buf[..]), writePos, Leb128.Encode(x))
    ensures next == Pos(writePos + |Leb128.Encode(x)|) && count == |Leb128.Encode(x)|
  {
    Leb128.PackedSizes(x);
    next, count := WritePacked(buf, writePos, x);
  }

  method WriteLong(buf: array<byte>, writePos: nat, x: i64) returns (next: nat, count: nat)
    requires buf.Length == SIZE && writePos < SIZE
    modifies buf
    ensures |Leb128.Encode(x)| <= 10
    ensures buf[..] == Put(old(buf[..]), writePos, Leb128.Encode(x))
    ensures next == Pos(writePos + |Leb128.Encode(x)|) && count == |Leb128.Encode(x)|
  {
    Leb128.PackedSizes(x);
    next, count := WritePacked(buf, writePos, x);
  }

  method Memcpy(buf: array<byte>, at: nat, data: seq<byte>)
    requires at + |data| <= buf.Length
    modifies buf
    ensures buf[..] == old(buf[..at]) + data + old(buf[at + |data|..])
  {
    forall i | 0 <= i < |data| {
      buf[at + i] := data[i];
    }
  }

  /** One memcpy, or two when the data runs over the end of the ring. */
  method WriteBytes(buf: array<byte>, writePos: nat, data: seq<byte>) returns (next: nat, count: nat)
    requires buf.Length == SIZE && writePos < SIZE && |data| <= SIZE
    modifies buf
    ensures buf[..] == Put(old(buf[..]), writePos, data)
    ensures next == Pos(writePos + |data|) && count == |data|
  {
    hide Put;
    ghost var was: slots := buf[..];
    PutIsCopy(was, writePos, data);
    if writePos + |data| <= SIZE {
      Memcpy(buf, writePos, data);
    } else {
      var first := SIZE - writePos;
      Memcpy(buf, writePos, data[..first]);
      Memcpy(buf, 0, data[first..]);
      assert buf[..] == data[first..] + was[|data| - first..writePos] + data[..first];
    }
    next := Pos(writePos + |data|);
    count := |data|;
  }
}
