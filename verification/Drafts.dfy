// A frame while it is being written: header in place, four bytes left out for
// the length, and the fields so far.

module Drafts {
  import opened Bytes
  import opened Ring
  import opened Messages
  import opened Layouts
  import Leb128
  import Reservations
  import Writers

  datatype Draft = Draft(base: seq<byte>, start: nat, header: byte, fields: seq<Field>) {
    ghost predicate Valid() {
      |base| == SIZE && start < SIZE && 5 + |Packed(fields)| <= SIZE
    }

    /** The bytes of the frame; the length field still holds what was in the ring before. */
    ghost function Text(): (bs: seq<byte>)
      requires Valid()
      ensures |bs| == 5 + |Packed(fields)|
    {
      [header] + Slice(base, Pos(start + 1), 4) + Packed(fields)
    }

    ghost function Ring(): slots
      requires Valid()
    {
      Put(base, start, Text())
    }

    ghost function End(): nat
      requires Valid()
    {
      Pos(start + 5 + |Packed(fields)|)
    }

    ghost function Length(): nat {
      |Packed(fields)|
    }
  }

  /** gator_msg_begin: only the header is written. */
  lemma Begin(base: slots, start: nat, header: byte) returns (d: Draft)
    requires start < SIZE
    ensures d == Draft(base, start, header, []) && d.Valid()
    ensures d.Ring() == Put(base, start, [header])
    ensures d.End() == Pos(Pos(start + 1) + 4) && d.Length() == 0
  {
    d := Draft(base, start, header, []);
    assert d.Text() == [header] + Slice(base, Pos(start + 1), 4);
    forall j | 0 <= j < SIZE
      ensures d.Ring()[j] == Put(base, start, [header])[j]
    {
      var k := Ahead(start, j);
      if 1 <= k < 5 {
        assert d.Text()[k] == Slice(base, Pos(start + 1), 4)[k - 1];
        assert Pos(Pos(start + 1) + (k - 1)) == j;
      }
    }
  }

  /** One more field is one more write at the end. */
  lemma Extend(d: Draft, f: Field) returns (d': Draft)
    requires d.Valid() && 5 + d.Length() + |f.Packed()| <= SIZE
    ensures d' == d.(fields := d.fields + [f]) && d'.Valid()
    ensures d'.Ring() == Put(d.Ring(), d.End(), f.Packed())
    ensures d'.End() == Pos(d.End() + |f.Packed()|) && d'.Length() == d.Length() + |f.Packed()|
  {
    hide Put, Slice, Packed;
    d' := d.(fields := d.fields + [f]);
    Reservations.Snoc(d.fields, f);
    Associative([d.header] + Slice(d.base, Pos(d.start + 1), 4), Packed(d.fields), f.Packed());
    assert d'.Text() == d.Text() + f.Packed();
    PutPut(d.base, d.start, d.Text(), f.Packed());
  }

  /** gator_msg_end: patching the length in makes the frame of the message. */
  lemma Close(d: Draft, m: Message)
    requires d.Valid() && d.header == Header(m) && d.fields == Fields(m)
    ensures Put(d.Ring(), Pos(d.start + 1), Uint32Bytes(LengthField(m))) == Put(d.base, d.start, RingFrame(m))
    ensures d.End() == Pos(d.start + |RingFrame(m)|)
  {
    hide Put, Slice, Packed, Fields, Header, Uint32Bytes;
    var gap, length := Slice(d.base, Pos(d.start + 1), 4), Uint32Bytes(LengthField(m));
    PutPatch(d.base, d.start, d.Text(), 1, length);
    assert d.Text()[..1] == [d.header] && d.Text()[5..] == Packed(d.fields);
  }

  /** The ring, the local write position and the local length agree with the draft. */
  ghost predicate Holds(d: Draft, buf: array<byte>, next: nat, length: nat)
    reads buf
  {
    d.Valid() && buf[..] == d.Ring() && next == d.End() && length == d.Length()
  }

  lemma CloseHeld(d: Draft, buf: array<byte>, next: nat, length: nat, m: Message)
    requires Holds(d, buf, next, length)
    requires d.header == Header(m) && d.fields == Fields(m)
    ensures length < SIZE && buf.Length == SIZE && d.start < SIZE && |d.base| == SIZE && |RingFrame(m)| <= SIZE
    ensures LengthField(m) == (length + |Image(m)|) % 0x1_0000_0000
    ensures Put(buf[..], Pos(d.start + 1), Uint32Bytes(LengthField(m))) == Put(d.base, d.start, RingFrame(m))
    ensures next == Pos(d.start + |RingFrame(m)|)
  {
    hide Put, Fields, Header, Image;
    Close(d, m);
  }

  lemma ShortPayload(d: Draft, buf: array<byte>, next: nat, length: nat)
    requires Holds(d, buf, next, length)
    ensures 5 + length <= SIZE
  {
  }

  // `length += gator_buf_write_*(thread->buf, &write_pos, ...)`, one kind of field each.

  method AddInt(buf: array<byte>, next: nat, length: nat, x: i32, ghost d: Draft)
    returns (next': nat, length': nat, ghost d': Draft)
    requires buf.Length == SIZE && Holds(d, buf, next, length) && 5 + length + 5 <= SIZE
    modifies buf
    ensures d' == d.(fields := d.fields + [Int(x)])
    ensures Holds(d', buf, next', length') && length' <= length + 5
  {
    hide Put, Packed, Leb128.Encode;
    var count: nat;
    next', count := Writers.WriteInt(buf, next, x);
    length' := length + count;
    d' := Extend(d, Int(x));
  }

  method AddLong(buf: array<byte>, next: nat, length: nat, x: i64, ghost d: Draft)
    returns (next': nat, length': nat, ghost d': Draft)
    requires buf.Length == SIZE && Holds(d, buf, next, length) && 5 + length + 10 <= SIZE
    modifies buf
    ensures d' == d.(fields := d.fields + [Long(x)])
    ensures Holds(d', buf, next', length') && length' <= length + 10
  {
    hide Put, Packed, Leb128.Encode;
    var count: nat;
    next', count := Writers.WriteLong(buf, next, x);
    length' := length + count;
    d' := Extend(d, Long(x));
  }

  method AddColor(buf: array<byte>, next: nat, length: nat, c: u32, ghost d: Draft)
    returns (next': nat, length': nat, ghost d': Draft)
    requires buf.Length == SIZE && Holds(d, buf, next, length) && 5 + length + 4 <= SIZE
    modifies buf
    ensures d' == d.(fields := d.fields + [Color(c)])
    ensures Holds(d', buf, next', length') && length' == length + 4
  {
    hide Put, Packed, ColorBytes;
    var count: nat;
    next', count := Writers.WriteColor(buf, next, c);
    length' := length + count;
    d' := Extend(d, Color(c));
  }

  method AddNul(buf: array<byte>, next: nat, length: nat, ghost d: Draft)
    returns (next': nat, length': nat, ghost d': Draft)
    requires buf.Length == SIZE && Holds(d, buf, next, length) && 5 + length + 1 <= SIZE
    modifies buf
    ensures d' == d.(fields := d.fields + [Nul])
    ensures Holds(d', buf, next', length') && length' == length + 1
  {
    hide Put, Packed;
    var count: nat;
    next', count := Writers.WriteByte(buf, next, 0);
    length' := length + count;
    d' := Extend(d, Nul);
  }

  method AddText(buf: array<byte>, next: nat, length: nat, s: cstring, ghost d: Draft)
    returns (next': nat, length': nat, ghost d': Draft)
    requires buf.Length == SIZE && Holds(d, buf, next, length) && 5 + length + |s| <= SIZE
    modifies buf
    ensures d' == d.(fields := d.fields + [Text(s)])
    ensures Holds(d', buf, next', length') && length' == length + |s|
  {
    hide Put, Packed;
    var count: nat;
    next', count := Writers.WriteBytes(buf, next, s);
    length' := length + count;
    d' := Extend(d, Text(s));
  }

  method AddRest(buf: array<byte>, next: nat, length: nat, bs: seq<byte>, ghost d: Draft)
    returns (next': nat, length': nat, ghost d': Draft)
    requires buf.Length == SIZE && Holds(d, buf, next, length) && 5 + length + |bs| <= SIZE
    modifies buf
    ensures d' == d.(fields := d.fields + [Rest(bs)])
    ensures Holds(d', buf, next', length') && length' == length + |bs|
  {
    hide Put, Packed;
    var count: nat;
    next', count := Writers.WriteBytes(buf, next, bs);
    length' := length + count;
    d' := Extend(d, Rest(bs));
  }

  /** The loop over the dependencies of a job. */
  method AddDeps(buf: array<byte>, next: nat, length: nat, deps: seq<u32>, ghost d: Draft)
    returns (next': nat, length': nat, ghost d': Draft)
    requires buf.Length == SIZE && Holds(d, buf, next, length) && 5 + length + 5 * |deps| <= SIZE
    modifies buf
    ensures d' == d.(fields := d.fields + DepFields(deps))
    ensures Holds(d', buf, next', length') && length' <= length + 5 * |deps|
  {
    hide *;
    next', length', d' := next, length, d;
    AllDeps(deps);
    for i := 0 to |deps|
      invariant Holds(d', buf, next', length') && length' <= length + 5 * i
      invariant d' == d.(fields := d.fields + DepFields(deps[..i]))
    {
      next', length', d' := AddInt(buf, next', length', AsInt32(deps[i]), d');
      MoreDeps(deps, i);
    }
  }

  /** The loop that sums up what is reserved for the activities of a counter. */
  method ActivitySize(acts: seq<Activity>) returns (size: nat)
    ensures size == TextSizes(acts)
  {
    hide *;
    size := 0;
    AllActivities(acts);
    for i := 0 to |acts|
      invariant size == TextSizes(acts[..i])
    {
      MoreActivities(acts, i);
      size := size + |acts[i].name| + 4;
    }
  }

  /** The loop over the activities of a counter. */
  method AddActivities(buf: array<byte>, next: nat, length: nat, acts: seq<Activity>, ghost d: Draft)
    returns (next': nat, length': nat, ghost d': Draft)
    requires buf.Length == SIZE && Holds(d, buf, next, length) && 5 + length + TextSizes(acts) + |acts| <= SIZE
    modifies buf
    ensures d' == d.(fields := d.fields + ActivityFields(acts))
    ensures Holds(d', buf, next', length') && length' == length + TextSizes(acts) + |acts|
  {
    hide *;
    next', length', d' := next, length, d;
    AllActivities(acts);
    for i := 0 to |acts|
      invariant Holds(d', buf, next', length') && length' == length + TextSizes(acts[..i]) + i
      invariant d' == d.(fields := d.fields + ActivityFields(acts[..i]))
    {
      MoreActivities(acts, i);
      PartOfActivities(acts, i + 1);
      next', length', d' := AddText(buf, next', length', acts[i].name, d');
      next', length', d' := AddNul(buf, next', length', d');
      next', length', d' := AddColor(buf, next', length', acts[i].color, d');
    }
  }

  /** The ten integers of a counter before its counts. */
  method AddSettings(buf: array<byte>, next: nat, length: nat, c: Message, ghost d: Draft)
    returns (next': nat, length': nat, ghost d': Draft)
    requires c.Counter?
    requires buf.Length == SIZE && Holds(d, buf, next, length) && 5 + length + 50 <= SIZE
    modifies buf
    ensures d' == d.(fields := d.fields + [
                       Int(AsInt32(c.id)), Int(c.perCpu), Int(c.counterClass), Int(c.display), Int(AsInt32(c.modifier)),
                       Int(c.composition), Int(c.rendering), Int(c.averageSelection), Int(c.averageCores),
                       Int(c.percentage)])
    ensures Holds(d', buf, next', length') && length' <= length + 50
  {
    hide *;
    next', length', d' := AddInt(buf, next, length, AsInt32(c.id), d);
    next', length', d' := AddInt(buf, next', length', c.perCpu, d');
    next', length', d' := AddInt(buf, next', length', c.counterClass, d');
    next', length', d' := AddInt(buf, next', length', c.display, d');
    next', length', d' := AddInt(buf, next', length', AsInt32(c.modifier), d');
    next', length', d' := AddInt(buf, next', length', c.composition, d');
    next', length', d' := AddInt(buf, next', length', c.rendering, d');
    next', length', d' := AddInt(buf, next', length', c.averageSelection, d');
    next', length', d' := AddInt(buf, next', length', c.averageCores, d');
    next', length', d' := AddInt(buf, next', length', c.percentage, d');
  }

  /** The fields of a job up to its primary dependency. */
  method AddJob(buf: array<byte>, next: nat, length: nat, view: u32, job: u32, track: u32, start: u64, duration: u64,
                color: u32, primary: u32, ghost d: Draft)
    returns (next': nat, length': nat, ghost d': Draft)
    requires buf.Length == SIZE && Holds(d, buf, next, length) && 5 + length + 44 <= SIZE
    modifies buf
    ensures d' == d.(fields := d.fields + [
                       Int(AsInt32(view)), Int(AsInt32(job)), Int(AsInt32(track)), Long(AsInt64(start)),
                       Long(AsInt64(duration)), Color(color), Int(AsInt32(primary))])
    ensures Holds(d', buf, next', length') && length' <= length + 44
  {
    hide *;
    next', length', d' := AddInt(buf, next, length, AsInt32(view), d);
    next', length', d' := AddInt(buf, next', length', AsInt32(job), d');
    next', length', d' := AddInt(buf, next', length', AsInt32(track), d');
    next', length', d' := AddLong(buf, next', length', AsInt64(start), d');
    next', length', d' := AddLong(buf, next', length', AsInt64(duration), d');
    next', length', d' := AddColor(buf, next', length', color, d');
    next', length', d' := AddInt(buf, next', length', AsInt32(primary), d');
  }

  /** The two counts and the colour of a counter. */
  method AddCounts(buf: array<byte>, next: nat, length: nat, c: Message, ghost d: Draft)
    returns (next': nat, length': nat, ghost d': Draft)
    requires c.Counter? && |c.activities| < 0x8000_0000
    requires buf.Length == SIZE && Holds(d, buf, next, length) && 5 + length + 14 <= SIZE
    modifies buf
    ensures d' == d.(fields := d.fields + [Int(|c.activities|), Int(AsInt32(c.cores)), Color(c.color)])
    ensures Holds(d', buf, next', length') && length' <= length + 14
  {
    hide *;
    next', length', d' := AddInt(buf, next, length, |c.activities|, d);
    next', length', d' := AddInt(buf, next', length', AsInt32(c.cores), d');
    next', length', d' := AddColor(buf, next', length', c.color, d');
  }

  /** The four texts at the end of a counter; the last one has no NUL. */
  method AddTexts(buf: array<byte>, next: nat, length: nat, c: Message, ghost d: Draft)
    returns (next': nat, length': nat, ghost d': Draft)
    requires c.Counter? && buf.Length == SIZE && Holds(d, buf, next, length)
    requires 5 + length + |c.title| + 1 + |c.name| + 1 + |c.units| + 1 + |c.description| <= SIZE
    modifies buf
    ensures d' == d.(fields := d.fields
                               + [Text(c.title), Nul, Text(c.name), Nul, Text(c.units), Nul, Rest(c.description)])
    ensures Holds(d', buf, next', length')
  {
    hide *;
    next', length', d' := AddText(buf, next, length, c.title, d);
    next', length', d' := AddNul(buf, next', length', d');
    next', length', d' := AddText(buf, next', length', c.name, d');
    next', length', d' := AddNul(buf, next', length', d');
    next', length', d' := AddText(buf, next', length', c.units, d');
    next', length', d' := AddNul(buf, next', length', d');
    next', length', d' := AddRest(buf, next', length', c.description, d');
  }
}
