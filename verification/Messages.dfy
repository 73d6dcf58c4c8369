// The messages of the library, the fields each one writes, the frame they make
// and the number of bytes the library reserves for it.

module Messages {
  import opened Bytes
  import opened Ring
  import Leb128

  /** One call of a gator_buf_write_* function inside a payload. */
  datatype Field =
    | Int(i: i32)
    | Long(l: i64)
    | Color(c: u32)
    | Text(s: cstring)        // a text whose NUL is written next
    | Nul
    | Rest(bytes: seq<byte>)  // runs to the end of the payload
  {
    function Packed(): (bs: seq<byte>) {
      match this
      case Int(i) => Leb128.Encode(i)
      case Long(l) => Leb128.Encode(l)
      case Color(c) => ColorBytes(c)
      case Text(s) => s
      case Nul => [0]
      case Rest(bs) => bs
    }

    /** SIZE_COLOR, MAXSIZE_PACK_INT, MAXSIZE_PACK_LONG, strlen and 1. */
    function MaxSize(): nat {
      match this
      case Int(_) => 5
      case Long(_) => 10
      case Color(_) => 4
      case Text(s) => |s|
      case Nul => 1
      case Rest(bs) => |bs|
    }
  }

  datatype Activity = Activity(name: cstring, color: u32)

  datatype Message =
    | Str(time: u64, channel: u32, text: cstring)
    | StrColor(time: u64, channel: u32, color: u32, text: cstring)
    | NameChannel(time: u64, channel: u32, group: u32, text: cstring)
    | NameGroup(time: u64, group: u32, text: cstring)
    | Visual(time: u64, text: cstring, image: seq<byte>)
    | Marker(time: u64, text: cstring)
    | MarkerColor(time: u64, color: u32, text: cstring)
    | Counter(id: u32, perCpu: i32, counterClass: i32, display: i32, modifier: u32, composition: i32,
              rendering: i32, averageSelection: i32, averageCores: i32, percentage: i32, cores: u32, color: u32,
              activities: seq<Activity>, title: cstring, name: cstring, units: cstring, description: cstring)
    | CounterValue(time: u64, core: u32, id: u32, value: u32)
    | ActivitySwitch(time: u64, core: u32, id: u32, activity: u32, tid: u32)
    | CamTrack(view: u32, track: u32, parent: u32, name: cstring)
    | CamJob(view: u32, job: u32, track: u32, start: u64, duration: u64, color: u32, primary: u32,
             deps: seq<u32>, name: cstring)
    | CamViewName(view: u32, name: cstring)
    | CamJobStart(view: u32, job: u32, track: u32, time: u64, color: u32, name: cstring)
    | CamJobSetDeps(view: u32, job: u32, time: u64, primary: u32, deps: seq<u32>)
    | CamJobStop(view: u32, job: u32, time: u64)

  /** The HEADER_* constants. */
  function Header(m: Message): byte {
    match m
    case Str(_, _, _) => 0x01
    case StrColor(_, _, _, _) => 0x02
    case NameChannel(_, _, _, _) => 0x03
    case NameGroup(_, _, _) => 0x04
    case Visual(_, _, _) => 0x05
    case Marker(_, _) => 0x06
    case MarkerColor(_, _, _) => 0x07
    case Counter(_, _, _, _, _, _, _, _, _, _, _, _, _, _, _, _, _) => 0x08
    case CounterValue(_, _, _, _) => 0x09
    case ActivitySwitch(_, _, _, _, _) => 0x0a
    case CamTrack(_, _, _, _) => 0x0b
    case CamJob(_, _, _, _, _, _, _, _, _) => 0x0c
    case CamViewName(_, _) => 0x0d
    case CamJobStart(_, _, _, _, _, _) => 0x0e
    case CamJobSetDeps(_, _, _, _, _) => 0x0f
    case CamJobStop(_, _, _) => 0x10
  }

  /** A uint32_t or a size_t passed to gator_buf_write_int. */
  function Wrapped(x: nat): Field {
    Int(AsInt32(x % 0x1_0000_0000))
  }

  function Stamp(t: u64): Field {
    Long(AsInt64(t))
  }

  function CounterInts(m: Message): (fs: seq<Field>)
    requires m.Counter?
    ensures |fs| == 12
  {
    CounterSettings(m) + [Wrapped(|m.activities|)] + [Wrapped(m.cores)]
  }

  function CounterSettings(m: Message): (fs: seq<Field>)
    requires m.Counter?
    ensures |fs| == 10 && forall f :: f in fs ==> f.Int?
  {
    [Wrapped(m.id), Int(m.perCpu), Int(m.counterClass), Int(m.display), Wrapped(m.modifier), Int(m.composition),
     Int(m.rendering), Int(m.averageSelection), Int(m.averageCores), Int(m.percentage)]
  }

  /** The fields whose number and kind the header alone decides. */
  function Head(m: Message): (fs: seq<Field>) {
    match m
    case Str(t, ch, s) => [Stamp(t), Wrapped(ch), Rest(s)]
    case StrColor(t, ch, c, s) => [Stamp(t), Wrapped(ch), Color(c), Rest(s)]
    case NameChannel(t, ch, g, s) => [Stamp(t), Wrapped(ch), Wrapped(g), Rest(s)]
    case NameGroup(t, g, s) => [Stamp(t), Wrapped(g), Rest(s)]
    case Visual(t, s, _) => [Stamp(t), Text(s), Nul]
    case Marker(t, s) => [Stamp(t), Rest(s)]
    case MarkerColor(t, c, s) => [Stamp(t), Color(c), Rest(s)]
    case Counter(_, _, _, _, _, _, _, _, _, _, _, cl, _, _, _, _, _) =>
      CounterInts(m) + [Color(cl)]
    case CounterValue(t, c, i, v) => [Stamp(t), Wrapped(c), Wrapped(i), Wrapped(v)]
    case ActivitySwitch(t, c, i, a, tid) => [Stamp(t), Wrapped(c), Wrapped(i), Wrapped(a), Wrapped(tid)]
    case CamTrack(v, t, p, s) => [Wrapped(v), Wrapped(t), Wrapped(p), Rest(s)]
    case CamJob(v, j, t, st, du, c, p, ds, _) =>
      [Wrapped(v), Wrapped(j), Wrapped(t), Stamp(st), Stamp(du), Color(c), Wrapped(p), Wrapped(|ds|)]
    case CamViewName(v, s) => [Wrapped(v), Rest(s)]
    case CamJobStart(v, j, t, ti, c, s) => [Wrapped(v), Wrapped(j), Wrapped(t), Stamp(ti), Color(c), Rest(s)]
    case CamJobSetDeps(v, j, t, p, ds) => [Wrapped(v), Wrapped(j), Stamp(t), Wrapped(p), Wrapped(|ds|)]
    case CamJobStop(v, j, t) => [Wrapped(v), Wrapped(j), Stamp(t)]
  }

  function DepFields(deps: seq<u32>): (fs: seq<Field>)
    ensures |fs| == |deps|
  {
    seq(|deps|, i requires 0 <= i < |deps| => Wrapped(deps[i]))
  }

  function ActivityFields(acts: seq<Activity>): (fs: seq<Field>)
    ensures |fs| == 3 * |acts|
  {
    if acts == [] then []
    else ActivityFields(acts[..|acts| - 1]) + [Text(acts[|acts| - 1].name), Nul, Color(acts[|acts| - 1].color)]
  }

  /** The fields that follow a count written in the head. */
  function Tail(m: Message): (fs: seq<Field>) {
    match m
    case Counter(_, _, _, _, _, _, _, _, _, _, _, _, acts, t, n, u, d) =>
      ActivityFields(acts) + [Text(t), Nul, Text(n), Nul, Text(u), Nul, Rest(d)]
    case CamJob(_, _, _, _, _, _, _, ds, s) => DepFields(ds) + [Rest(s)]
    case CamJobSetDeps(_, _, _, _, ds) => DepFields(ds)
    case _ => []
  }

  function Fields(m: Message): seq<Field> {
    Head(m) + Tail(m)
  }

  function Packed(fs: seq<Field>): (bs: seq<byte>) {
    if fs == [] then [] else Packed(fs[..|fs| - 1]) + fs[|fs| - 1].Packed()
  }

  /** The image of a visual annotation goes out of band; every other message lies in the ring whole. */
  function Image(m: Message): seq<byte> {
    if m.Visual? then m.image else []
  }

  /** The value gator_msg_end patches in: a uint32_t sum. */
  function LengthField(m: Message): u32 {
    (|Packed(Fields(m))| + |Image(m)|) % 0x1_0000_0000
  }

  /** The bytes a message puts in the ring. */
  function RingFrame(m: Message): (bs: seq<byte>)
    ensures |bs| == 5 + |Packed(Fields(m))|
  {
    [Header(m)] + Uint32Bytes(LengthField(m)) + Packed(Fields(m))
  }

  /** The bytes a message puts on the connection. */
  function Frame(m: Message): seq<byte> {
    RingFrame(m) + Image(m)
  }

  function TextSizes(acts: seq<Activity>): (n: nat)
    ensures n >= 4 * |acts|
  {
    if acts == [] then 0 else TextSizes(acts[..|acts| - 1]) + |acts[|acts| - 1].name| + 4
  }

  /** The sum in the argument of gator_buf_wait_bytes, message by message. */
  function Sum(m: Message): nat {
    match m
    case Str(_, _, s) => 1 + 4 + 10 + 5 + |s|
    case StrColor(_, _, _, s) => 1 + 4 + 10 + 5 + 4 + |s|
    case NameChannel(_, _, _, s) => 1 + 4 + 10 + 2 * 5 + |s|
    case NameGroup(_, _, s) => 1 + 4 + 10 + 5 + |s|
    case Visual(_, s, _) => 1 + 4 + 10 + |s| + 1
    case Marker(_, s) => 1 + 4 + 10 + |s|
    case MarkerColor(_, _, s) => 1 + 4 + 10 + 4 + |s|
    case Counter(_, _, _, _, _, _, _, _, _, _, _, _, acts, t, n, u, d) =>
      1 + 4 + 12 * 5 + 4 + TextSizes(acts) + |t| + 1 + |n| + 1 + |u| + 1 + |d|
    case CounterValue(_, _, _, _) => 1 + 4 + 10 + 3 * 5
    case ActivitySwitch(_, _, _, _, _) => 1 + 4 + 10 + 4 * 5
    case CamTrack(_, _, _, s) => 1 + 4 + 3 * 5 + |s|
    case CamJob(_, _, _, _, _, _, _, ds, s) => 1 + 4 + 5 * 5 + 2 * 10 + 4 + |ds| * 5 + |s|
    case CamViewName(_, s) => 1 + 4 + 5 + |s|
    case CamJobStart(_, _, _, _, _, s) => 1 + 4 + 3 * 5 + 10 + 4 + |s|
    case CamJobSetDeps(_, _, _, _, ds) => 1 + 4 + 4 * 5 + 10 + |ds| * 5
    case CamJobStop(_, _, _) => 1 + 4 + 2 * 5 + 10
  }

  /** What is compared and waited for: the sum is cut to a uint32_t. */
  function Reserved(m: Message): nat {
    Sum(m) % 0x1_0000_0000
  }

  /** gator_buf_wait_bytes lets the message through instead of logging "message is too large". */
  predicate Accepted(m: Message) {
    Reserved(m) <= SIZE / 2
  }

  /** The cut does not let a message through that is too large. */
  predicate Safe(m: Message) {
    Accepted(m) ==> Sum(m) < 0x1_0000_0000
  }
}

// Reservations against what is written.

module Reservations {
  import opened Bytes
  import opened Messages
  import Leb128

  function MaxSizes(fs: seq<Field>): nat {
    if fs == [] then 0 else MaxSizes(fs[..|fs| - 1]) + fs[|fs| - 1].MaxSize()
  }

  lemma FieldFits(f: Field)
    ensures |f.Packed()| <= f.MaxSize()
    ensures !f.Int? && !f.Long? ==> |f.Packed()| == f.MaxSize()
  {
    match f
    case Int(i) => Leb128.PackedSizes(i);
    case Long(l) => Leb128.PackedSizes(l);
    case _ =>
  }

  lemma {:induction false} PackedFits(fs: seq<Field>)
    ensures |Packed(fs)| <= MaxSizes(fs)
  {
    if fs != [] {
      PackedFits(fs[..|fs| - 1]);
      FieldFits(fs[|fs| - 1]);
    }
  }

  lemma Snoc(fs: seq<Field>, f: Field)
    ensures Packed(fs + [f]) == Packed(fs) + f.Packed()
    ensures MaxSizes(fs + [f]) == MaxSizes(fs) + f.MaxSize()
  {
    assert (fs + [f])[..|fs|] == fs;
  }

  lemma {:induction false} Concatenation(x: seq<Field>, y: seq<Field>)
    ensures Packed(x + y) == Packed(x) + Packed(y)
    decreases |y|
  {
    if y == [] {
      assert x + y == x;
    } else {
      var z, f := y[..|y| - 1], y[|y| - 1];
      assert x + y == (x + z) + [f];
      Snoc(x + z, f);
      Concatenation(x, z);
      Associative(Packed(x), Packed(z), f.Packed());
    }
  }

  lemma {:induction false} MaxConcatenation(x: seq<Field>, y: seq<Field>)
    ensures MaxSizes(x + y) == MaxSizes(x) + MaxSizes(y)
    decreases |y|
  {
    if y == [] {
      assert x + y == x;
    } else {
      var z, f := y[..|y| - 1], y[|y| - 1];
      assert x + y == (x + z) + [f];
      Snoc(x + z, f);
      MaxConcatenation(x, z);
    }
  }

  lemma {:induction false} DepSizes(deps: seq<u32>)
    ensures MaxSizes(DepFields(deps)) == 5 * |deps|
  {
    if deps != [] {
      var n := |deps| - 1;
      DepSizes(deps[..n]);
      assert DepFields(deps)[..n] == DepFields(deps[..n]);
    }
  }

  /** Every activity is one byte longer than what is reserved for it: its NUL is not counted. */
  lemma {:induction false} ActivitySizes(acts: seq<Activity>)
    ensures MaxSizes(ActivityFields(acts)) == TextSizes(acts) + |acts|
    ensures |Packed(ActivityFields(acts))| == TextSizes(acts) + |acts|
  {
    if acts != [] {
      var n := |acts| - 1;
      ActivitySizes(acts[..n]);
      var fs, name, color := ActivityFields(acts[..n]), Text(acts[n].name), Color(acts[n].color);
      Snoc(fs, name);
      Snoc(fs + [name], Nul);
      Snoc(fs + [name] + [Nul], color);
      assert fs + [name, Nul, color] == fs + [name] + [Nul] + [color];
    }
  }

  function MaxAt(fs: seq<Field>, i: nat): nat {
    if i < |fs| then fs[i].MaxSize() else 0
  }

  function LenAt(fs: seq<Field>, i: nat): nat {
    if i < |fs| then |fs[i].Packed()| else 0
  }

  /** The sums over a short list of fields. */
  lemma {:induction false} MaxSum(fs: seq<Field>)
    requires |fs| <= 8
    ensures MaxSizes(fs) == MaxAt(fs, 0) + MaxAt(fs, 1) + MaxAt(fs, 2) + MaxAt(fs, 3) + MaxAt(fs, 4) + MaxAt(fs, 5)
                            + MaxAt(fs, 6) + MaxAt(fs, 7)
  {
    if fs != [] {
      MaxSum(fs[..|fs| - 1]);
    }
  }

  lemma {:induction false} LenSum(fs: seq<Field>)
    requires |fs| <= 8
    ensures |Packed(fs)| == LenAt(fs, 0) + LenAt(fs, 1) + LenAt(fs, 2) + LenAt(fs, 3) + LenAt(fs, 4) + LenAt(fs, 5)
                            + LenAt(fs, 6) + LenAt(fs, 7)
  {
    if fs != [] {
      LenSum(fs[..|fs| - 1]);
    }
  }

  predicate Fits(m: Message) {
    |RingFrame(m)| <= Reserved(m)
  }

  predicate IsCam(m: Message) {
    m.CamTrack? || m.CamJob? || m.CamViewName? || m.CamJobStart? || m.CamJobSetDeps? || m.CamJobStop?
  }

  lemma AnnotateMax(m: Message)
    requires !m.Counter? && !IsCam(m)
    ensures 5 + MaxSizes(Fields(m)) == Sum(m)
  {
    MaxSum(Head(m));
    assert Fields(m) == Head(m);
  }

  lemma CamMax(m: Message)
    requires IsCam(m) && !m.CamJob? && !m.CamJobSetDeps?
    ensures 5 + MaxSizes(Fields(m)) == Sum(m)
  {
    MaxSum(Head(m));
    assert Fields(m) == Head(m);
  }

  lemma CamHeadMax(m: Message)
    requires m.CamJob? || m.CamJobSetDeps?
    ensures MaxSizes(Head(m)) == if m.CamJob? then 49 else 30
  {
    MaxSum(Head(m));
  }

  lemma CamDepsMax(m: Message)
    requires m.CamJob? || m.CamJobSetDeps?
    ensures 5 + MaxSizes(Fields(m)) == Sum(m)
  {
    hide MaxSizes, Head, DepFields;
    CamHeadMax(m);
    MaxConcatenation(Head(m), Tail(m));
    DepSizes(m.deps);
    if m.CamJob? {
      Snoc(DepFields(m.deps), Rest(m.name));
    }
  }

  lemma {:induction false} MinSizes(fs: seq<Field>)
    ensures MaxSizes(fs) <= 10 * |Packed(fs)|
  {
    if fs != [] {
      MinSizes(fs[..|fs| - 1]);
    }
  }

  lemma FieldsMax(m: Message)
    requires !m.Counter?
    ensures 5 + MaxSizes(Fields(m)) == Sum(m)
  {
    if m.CamJob? || m.CamJobSetDeps? {
      CamDepsMax(m);
    } else if IsCam(m) {
      CamMax(m);
    } else {
      AnnotateMax(m);
    }
  }

  lemma RingFrameSize(m: Message)
    requires !m.Counter?
    ensures |RingFrame(m)| <= Sum(m) <= 10 * |RingFrame(m)|
  {
    hide MaxSizes, Packed, Fields, Sum;
    PackedFits(Fields(m));
    MinSizes(Fields(m));
    FieldsMax(m);
  }

  /** A sum that is let through by the cut alone is far too small. */
  lemma Cut(sum: nat, size: nat)
    requires sum <= 10 * size
    ensures sum < 0x1_0000_0000 ==> sum % 0x1_0000_0000 == sum
    ensures sum >= 0x1_0000_0000 && sum % 0x1_0000_0000 <= 0x8000 ==> size > sum % 0x1_0000_0000
  {
  }

  /**
    * No message but a counter ever writes more than the sum it reserves. What is
    * waited for is that sum only up to 32 bits; of the messages let through
    * exactly those whose sum is not cut stay within their reservation.
    */
  lemma ReservationSuffices(m: Message)
    requires !m.Counter?
    ensures |RingFrame(m)| <= Sum(m)
    ensures Sum(m) < 0x1_0000_0000 ==> Fits(m)
    ensures Accepted(m) ==> (Fits(m) <==> Safe(m))
  {
    RingFrameSize(m);
    Cut(Sum(m), |RingFrame(m)|);
    hide Sum, RingFrame;
  }

  function ManyDeps(k: nat): (m: Message)
    ensures m.CamJobSetDeps? && |m.deps| == k
  {
    CamJobSetDeps(0, 0, 0, 0, seq(k, _ => 0))
  }

  /**
    * The cut happens: a job with that many dependencies reserves 4 bytes, is let
    * through and writes hundreds of megabytes. One dependency less is refused.
    */
  lemma CutReservation()
    ensures Reserved(ManyDeps(858993453)) == 4 && Accepted(ManyDeps(858993453)) && !Fits(ManyDeps(858993453))
    ensures !Accepted(ManyDeps(858993452))
  {
    ReservationSuffices(ManyDeps(858993453));
  }

  lemma CounterSum(m: Message)
    requires m.Counter?
    ensures Sum(m) >= 72 + 4 * |m.activities|
  {
  }

  /**
    * The reservation of a counter allows 60 bytes for its twelve integers and
    * none for the NUL after each activity name, so it suffices exactly when the
    * integers leave a byte for every activity.
    */
  lemma CounterReservationIff(m: Message)
    requires m.Counter?
    ensures |RingFrame(m)| <= Sum(m) <==> |Packed(CounterInts(m))| + |m.activities| <= 60
    ensures Sum(m) < 0x1_0000_0000 ==> (Fits(m) <==> |Packed(CounterInts(m))| + |m.activities| <= 60)
    ensures Accepted(m) ==> (Fits(m) <==> Safe(m) && |Packed(CounterInts(m))| + |m.activities| <= 60)
  {
    CounterOverrun(m);
    CounterSum(m);
    Cut(Sum(m), |RingFrame(m)|);
    hide CounterInts, RingFrame, Sum;
  }

  lemma CounterTail(m: Message)
    requires m.Counter?
    ensures |Packed(Tail(m))| == TextSizes(m.activities) + |m.activities|
                                 + |m.title| + 1 + |m.name| + 1 + |m.units| + 1 + |m.description|
  {
    var texts := [Text(m.title), Nul, Text(m.name), Nul, Text(m.units), Nul, Rest(m.description)];
    ActivitySizes(m.activities);
    Concatenation(ActivityFields(m.activities), texts);
    LenSum(texts);
  }

  lemma {:induction false} IntsBound(fs: seq<Field>)
    requires forall f :: f in fs ==> f.Int?
    ensures |Packed(fs)| <= 5 * |fs|
  {
    if fs != [] {
      IntsBound(fs[..|fs| - 1]);
      FieldFits(fs[|fs| - 1]);
    }
  }

  /** In any case the excess over the sum is at most one byte per activity. */
  lemma CounterOverrun(m: Message)
    requires m.Counter?
    ensures |RingFrame(m)| <= Sum(m) + |m.activities|
    ensures |RingFrame(m)| == Sum(m) + |m.activities| + |Packed(CounterInts(m))| - 60
  {
    IntsBound(CounterInts(m));
    Concatenation(Head(m), Tail(m));
    Snoc(CounterInts(m), Color(m.color));
    CounterTail(m);
  }

  lemma CounterIntsSum(m: Message)
    requires m.Counter?
    ensures |Packed(CounterInts(m))| ==
            |Packed(CounterSettings(m))| + |Wrapped(|m.activities|).Packed()| + |Wrapped(m.cores).Packed()|
  {
    var fs, count := CounterSettings(m), Wrapped(|m.activities|);
    Snoc(fs, count);
    Snoc(fs + [count], Wrapped(m.cores));
  }

  lemma SmallInt(k: nat)
    requires k < 64
    ensures |Wrapped(k).Packed()| == 1
  {
    Leb128.LengthIff(k, 1);
  }

  lemma CounterIntsBound(m: Message)
    requires m.Counter? && |m.activities| < 64
    ensures |Packed(CounterInts(m))| <= 56
  {
    CounterIntsSum(m);
    IntsBound(CounterSettings(m));
    FieldFits(Wrapped(m.cores));
    SmallInt(|m.activities|);
  }

  lemma FewActivitiesFit(m: Message)
    requires m.Counter? && |m.activities| <= 4 && Sum(m) < 0x1_0000_0000
    ensures Fits(m)
  {
    CounterReservationIff(m);
    CounterIntsBound(m);
  }

  /** The non-negative integers that take five bytes. */
  type wide = x: int | 0x800_0000 <= x < 0x8000_0000 witness 0x800_0000

  lemma WideInt(x: wide)
    ensures |Leb128.Encode(x)| == 5
  {
    Leb128.PackedSizes(x);
    Leb128.LengthIff(x, 4);
    assert Leb128.HalfRange(2) == 0x2000 && Leb128.HalfRange(4) == 0x800_0000;
  }

  /** A counter with k nameless activities whose other integers are all x. */
  function WideCounter(k: nat, x: wide): (m: Message)
    ensures m.Counter? && |m.activities| == k
  {
    Counter(x, x, x, x, x, x, x, x, x, x, x, 0, seq(k, _ => Activity([], 0)), [], [], [], [])
  }

  /** With five activities or more such a counter writes more than it reserved; up to 8174 are small enough. */
  lemma WideCounterOverflows(k: nat, x: wide)
    requires k >= 5
    ensures !Fits(WideCounter(k, x))
    ensures Sum(WideCounter(k, x)) <= 0x8000 <==> k <= 8174
    ensures k <= 8174 ==> Accepted(WideCounter(k, x)) && Safe(WideCounter(k, x))
  {
    var m := WideCounter(k, x);
    EmptyNames(m.activities);
    assert Sum(m) == 72 + 4 * k;
    hide Sum, CounterInts, RingFrame;
    CounterOverrun(m);
    WideCounterInts(k, x);
    Cut(Sum(m), |RingFrame(m)|);
  }

  lemma WideCores(m: Message, x: wide)
    requires m.Counter? && m.cores == x
    ensures |Wrapped(m.cores).Packed()| == 5
  {
    assert Wrapped(x) == Int(x);
    WideInt(x);
  }

  lemma WideSettings(k: nat, x: wide)
    ensures |Packed(CounterSettings(WideCounter(k, x)))| == 50
  {
    SettingsSum(WideCounter(k, x));
    assert Wrapped(x) == Int(x);
    hide Packed, CounterSettings;
    IntSizes(x);
  }

  lemma WideCounterInts(k: nat, x: wide)
    ensures |Packed(CounterInts(WideCounter(k, x)))| == 55 + |Wrapped(k).Packed()|
  {
    var m := WideCounter(k, x);
    CounterIntsSum(m);
    WideSettings(k, x);
    WideCores(m, x);
  }

  lemma {:induction false} EmptyNames(acts: seq<Activity>)
    requires forall a :: a in acts ==> a.name == []
    ensures TextSizes(acts) == 4 * |acts|
  {
    if acts != [] {
      EmptyNames(acts[..|acts| - 1]);
    }
  }

  lemma ManyActivities(m: Message)
    requires m.Counter? && Accepted(m) && Safe(m)
    ensures |m.activities| <= 8174
  {
  }

  /**
    * The activity counts that are safe whatever the other arguments are: up to
    * four, and those for which no counter is let through.
    */
  lemma SafeActivityCount(k: nat)
    ensures (forall m: Message :: m.Counter? && |m.activities| == k && Accepted(m) && Safe(m) ==> Fits(m))
            <==> k <= 4 || k > 8174
  {
    if k <= 4 || k > 8174 {
      forall m: Message | m.Counter? && |m.activities| == k && Accepted(m) && Safe(m)
        ensures Fits(m)
      {
        ManyActivities(m);
        FewActivitiesFit(m);
      }
    } else {
      WideCounterOverflows(k, 0x800_0000);
    }
  }

  /** The enumerators the header declares. */
  predicate Declared(m: Message) {
    m.Counter? && 1 <= m.counterClass <= 3 && 1 <= m.display <= 5 && 1 <= m.composition <= 3 && 1 <= m.rendering <= 3
  }

  function IntSize(i: i32): nat {
    |Int(i).Packed()|
  }

  lemma SettingsSum(m: Message)
    requires m.Counter?
    ensures |Packed(CounterSettings(m))| ==
            |Wrapped(m.id).Packed()| + IntSize(m.perCpu) + IntSize(m.counterClass) + IntSize(m.display)
            + |Wrapped(m.modifier).Packed()| + IntSize(m.composition) + IntSize(m.rendering)
            + IntSize(m.averageSelection) + IntSize(m.averageCores) + IntSize(m.percentage)
  {
    var first := [Wrapped(m.id), Int(m.perCpu), Int(m.counterClass), Int(m.display)];
    var middle := [Wrapped(m.modifier), Int(m.composition), Int(m.rendering)];
    var last := [Int(m.averageSelection), Int(m.averageCores), Int(m.percentage)];
    assert CounterSettings(m) == first + middle + last;
    hide Packed;
    Concatenation(first + middle, last);
    Concatenation(first, middle);
    LenSum(first);
    LenSum(middle);
    LenSum(last);
  }

  lemma IntSizes(i: i32)
    ensures IntSize(i) <= 5
    ensures 0 <= i < 64 ==> IntSize(i) == 1
    ensures 0x800_0000 <= i < 0x8000_0000 ==> IntSize(i) == 5
  {
    FieldFits(Int(i));
    if 0 <= i < 64 {
      SmallInt(i);
    } else if 0x800_0000 <= i {
      WideInt(i);
    }
  }

  lemma DeclaredSettings(m: Message)
    requires Declared(m)
    ensures |Packed(CounterSettings(m))| <= 34
  {
    SettingsSum(m);
    hide Packed, CounterSettings, IntSize;
    IntSizes(m.counterClass);
    IntSizes(m.display);
    IntSizes(m.composition);
    IntSizes(m.rendering);
    IntSizes(m.perCpu);
    IntSizes(m.averageSelection);
    IntSizes(m.averageCores);
    IntSizes(m.percentage);
    FieldFits(Wrapped(m.id));
    FieldFits(Wrapped(m.modifier));
  }

  lemma DeclaredFit(m: Message)
    requires Declared(m) && |m.activities| <= 20 && Sum(m) < 0x1_0000_0000
    ensures Fits(m)
  {
    CounterReservationIff(m);
    CounterIntsSum(m);
    DeclaredSettings(m);
    SmallInt(|m.activities|);
    FieldFits(Wrapped(m.cores));
  }

  /** As WideCounter, with enumerators the header declares. */
  function DeclaredCounter(k: nat, x: wide): (m: Message)
    ensures Declared(m) && |m.activities| == k
  {
    Counter(x, x, 1, 1, x, 1, 1, x, x, x, x, 0, seq(k, _ => Activity([], 0)), [], [], [], [])
  }

  lemma DeclaredCounterSettings(k: nat, x: wide)
    ensures |Packed(CounterSettings(DeclaredCounter(k, x)))| == 34
  {
    SettingsSum(DeclaredCounter(k, x));
    assert Wrapped(x) == Int(x);
    hide Packed, CounterSettings;
    IntSizes(1);
    IntSizes(x);
  }

  lemma PackedNotEmpty(i: i32)
    ensures IntSize(i) >= 1
  {
  }

  lemma DeclaredCounterInts(k: nat, x: wide)
    ensures |Packed(CounterInts(DeclaredCounter(k, x)))| >= 40
  {
    var m := DeclaredCounter(k, x);
    CounterIntsSum(m);
    hide CounterInts, CounterSettings, Packed;
    DeclaredCounterSettings(k, x);
    WideCores(m, x);
    PackedNotEmpty(Wrapped(k).i);
  }

  lemma DeclaredSum(k: nat, x: wide)
    ensures Sum(DeclaredCounter(k, x)) == 72 + 4 * k
  {
    EmptyNames(DeclaredCounter(k, x).activities);
  }

  lemma DeclaredOverflows(k: nat, x: wide)
    requires 21 <= k <= 8174
    ensures Accepted(DeclaredCounter(k, x)) && Safe(DeclaredCounter(k, x)) && !Fits(DeclaredCounter(k, x))
  {
    hide Sum, CounterInts, RingFrame, Packed, DeclaredCounter;
    DeclaredSum(k, x);
    CounterReservationIff(DeclaredCounter(k, x));
    DeclaredCounterInts(k, x);
  }

  /**
    * With the enumerators the header declares up to twenty activities are safe
    * whatever the other arguments are, and of the counts let through no others.
    */
  lemma DeclaredActivityCount(k: nat)
    ensures (forall m: Message :: Declared(m) && |m.activities| == k && Accepted(m) && Safe(m) ==> Fits(m))
            <==> k <= 20 || k > 8174
  {
    if k <= 20 || k > 8174 {
      forall m: Message | Declared(m) && |m.activities| == k && Accepted(m) && Safe(m)
        ensures Fits(m)
      {
        ManyActivities(m);
        DeclaredFit(m);
      }
    } else {
      DeclaredOverflows(k, 0x800_0000);
    }
  }
}
