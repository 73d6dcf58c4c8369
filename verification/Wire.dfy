// A reader of the annotation stream, independent of the writer: it knows the
// header bytes, the kinds of field that follow each and the rules that delimit
// them. The theorems say that it recovers exactly the messages written, from
// any prefix of the stream.

module Wire {
  import opened Bytes
  import opened Messages
  import Leb128
  import Reservations

  datatype Kind = KInt | KLong | KColor | KText | KNul | KRest

  datatype Read<+T> = Bad | Good(value: T, rest: seq<byte>)

  datatype Option<+T> = None | Some(value: T)

  /** How many bytes come before the first NUL. */
  function TextLength(bs: seq<byte>): (n: nat)
    ensures n <= |bs| && 0 !in bs[..n] && (n < |bs| ==> bs[n] == 0)
  {
    if bs == [] || bs[0] == 0 then 0
    else
      var n := 1 + TextLength(bs[1..]);
      assert bs[..n] == [bs[0]] + bs[1..][..n - 1];
      n
  }

  function ReadField(k: Kind, bs: seq<byte>): Read<Field> {
    match k
    case KInt =>
      (match Leb128.Decode(bs)
       case Value(v, rest) => if -0x8000_0000 <= v < 0x8000_0000 then Good(Int(v), rest) else Bad
       case Truncated => Bad)
    case KLong =>
      (match Leb128.Decode(bs)
       case Value(v, rest) =>
         if -0x8000_0000_0000_0000 <= v < 0x8000_0000_0000_0000 then Good(Long(v), rest) else Bad
       case Truncated => Bad)
    case KColor => if |bs| >= 4 then Good(Color(ColorOf(bs[..4])), bs[4..]) else Bad
    case KText => var n := TextLength(bs); if n < |bs| then Good(Text(bs[..n]), bs[n..]) else Bad
    case KNul => if |bs| >= 1 && bs[0] == 0 then Good(Nul, bs[1..]) else Bad
    case KRest => Good(Rest(bs), [])
  }

  function ReadFields(ks: seq<Kind>, bs: seq<byte>): Read<seq<Field>> {
    if ks == [] then Good([], bs)
    else
      match ReadField(ks[0], bs)
      case Bad => Bad
      case Good(f, more) =>
        match ReadFields(ks[1..], more)
        case Bad => Bad
        case Good(fs, rest) => Good([f] + fs, rest)
  }

  function KindOf(f: Field): Kind {
    match f
    case Int(_) => KInt
    case Long(_) => KLong
    case Color(_) => KColor
    case Text(_) => KText
    case Nul => KNul
    case Rest(_) => KRest
  }

  function Kinds(fs: seq<Field>): (ks: seq<Kind>)
    ensures |ks| == |fs|
  {
    seq(|fs|, i requires 0 <= i < |fs| => KindOf(fs[i]))
  }

  /** What makes a field readable in front of `tail`. */
  predicate Delimits(f: Field, tail: seq<byte>) {
    (f.Text? ==> tail != [] && tail[0] == 0) && (f.Rest? ==> tail == [])
  }

  lemma {:induction false} TextLengthIs(s: cstring, tail: seq<byte>)
    requires tail != [] && tail[0] == 0
    ensures TextLength(s + tail) == |s|
  {
    if s == [] {
      assert s + tail == tail;
    } else {
      TextLengthIs(s[1..], tail);
      assert (s + tail)[1..] == s[1..] + tail;
    }
  }

  lemma FieldRoundTrip(f: Field, tail: seq<byte>)
    requires Delimits(f, tail)
    ensures ReadField(KindOf(f), f.Packed() + tail) == Good(f, tail)
  {
    match f
    case Int(i) => Leb128.RoundTrip(i, tail);
    case Long(l) => Leb128.RoundTrip(l, tail);
    case Color(c) => ColorField(c, tail);
    case Text(s) => TextField(s, tail);
    case Nul =>
    case Rest(bs) => assert bs + tail == bs;
    hide Leb128.Decode, Leb128.Encode, TextLength, ColorBytes, ColorOf;
  }

  lemma ColorField(c: u32, tail: seq<byte>)
    ensures ReadField(KColor, ColorBytes(c) + tail) == Good(Color(c), tail)
  {
    ColorRoundTrip(c);
    hide ColorBytes, ColorOf;
    assert (ColorBytes(c) + tail)[..4] == ColorBytes(c) && (ColorBytes(c) + tail)[4..] == tail;
  }

  lemma TextField(s: cstring, tail: seq<byte>)
    requires tail != [] && tail[0] == 0
    ensures ReadField(KText, s + tail) == Good(Text(s), tail)
  {
    TextLengthIs(s, tail);
    hide TextLength;
    assert (s + tail)[..|s|] == s && (s + tail)[|s|..] == tail;
  }

  /** Every text is followed by its NUL; only the last field runs to the end. */
  predicate Delimited(fs: seq<Field>) {
    forall i :: 0 <= i < |fs| ==> DelimitedAt(fs, i)
  }

  predicate DelimitedAt(fs: seq<Field>, i: nat)
    requires i < |fs|
  {
    (fs[i].Text? ==> i + 1 < |fs| && fs[i + 1] == Nul) && (fs[i].Rest? ==> i == |fs| - 1)
  }

  lemma DelimitedTail(fs: seq<Field>)
    requires fs != [] && Delimited(fs)
    ensures Delimited(fs[1..])
    ensures fs[0].Text? ==> |fs| >= 2 && fs[1] == Nul
    ensures fs[0].Rest? ==> |fs| == 1
  {
    assert DelimitedAt(fs, 0);
    forall i | 0 <= i < |fs| - 1
      ensures DelimitedAt(fs[1..], i)
    {
      assert DelimitedAt(fs, i + 1);
    }
  }

  lemma OneField(f: Field)
    ensures Packed([f]) == f.Packed()
  {
    Reservations.Snoc([], f);
    assert [] + [f] == [f];
  }

  lemma FirstField(fs: seq<Field>)
    requires fs != []
    ensures Packed(fs) == fs[0].Packed() + Packed(fs[1..])
  {
    hide Packed;
    Reservations.Concatenation([fs[0]], fs[1..]);
    assert [fs[0]] + fs[1..] == fs;
    OneField(fs[0]);
  }

  lemma NulFirst(fs: seq<Field>)
    requires fs != [] && fs[0] == Nul
    ensures |Packed(fs)| > 0 && Packed(fs)[0] == 0
  {
    FirstField(fs);
  }

  lemma FirstFieldIsRead(fs: seq<Field>, tail: seq<byte>)
    requires fs != [] && Delimited(fs)
    requires fs[|fs| - 1].Rest? ==> tail == []
    ensures ReadField(KindOf(fs[0]), Packed(fs) + tail) == Good(fs[0], Packed(fs[1..]) + tail)
  {
    FirstField(fs);
    DelimitedTail(fs);
    Associative(fs[0].Packed(), Packed(fs[1..]), tail);
    if fs[0].Text? {
      NulFirst(fs[1..]);
    }
    FieldRoundTrip(fs[0], Packed(fs[1..]) + tail);
  }

  lemma {:induction false} FieldsRoundTrip(fs: seq<Field>, tail: seq<byte>)
    requires Delimited(fs)
    requires fs != [] && fs[|fs| - 1].Rest? ==> tail == []
    ensures ReadFields(Kinds(fs), Packed(fs) + tail) == Good(fs, tail)
    decreases |fs|
  {
    if fs == [] {
      assert Packed(fs) + tail == tail;
    } else {
      hide Packed, ReadField, ReadFields, Delimited;
      FirstFieldIsRead(fs, tail);
      DelimitedTail(fs);
      FieldsRoundTrip(fs[1..], tail);
      KindsTail(fs);
      hide Kinds;
      ReadOn(Kinds(fs), Packed(fs) + tail, fs[0], Packed(fs[1..]) + tail, fs[1..], tail);
      assert [fs[0]] + fs[1..] == fs;
    }
  }

  lemma KindsTail(fs: seq<Field>)
    requires fs != []
    ensures Kinds(fs)[0] == KindOf(fs[0]) && Kinds(fs)[1..] == Kinds(fs[1..])
  {
  }

  lemma ReadOn(ks: seq<Kind>, bs: seq<byte>, f: Field, more: seq<byte>, fs: seq<Field>, rest: seq<byte>)
    requires ks != [] && ReadField(ks[0], bs) == Good(f, more) && ReadFields(ks[1..], more) == Good(fs, rest)
    ensures ReadFields(ks, bs) == Good([f] + fs, rest)
  {
    hide ReadField;
  }

  function HeadKinds(header: byte): seq<Kind> {
    if header == 0x01 || header == 0x04 then [KLong, KInt, KRest]
    else if header == 0x02 then [KLong, KInt, KColor, KRest]
    else if header == 0x03 then [KLong, KInt, KInt, KRest]
    else if header == 0x05 then [KLong, KText, KNul]
    else if header == 0x06 then [KLong, KRest]
    else if header == 0x07 then [KLong, KColor, KRest]
    else if header == 0x08 then [KInt, KInt, KInt, KInt, KInt, KInt, KInt, KInt, KInt, KInt, KInt, KInt, KColor]
    else if header == 0x09 then [KLong, KInt, KInt, KInt]
    else if header == 0x0a then [KLong, KInt, KInt, KInt, KInt]
    else if header == 0x0b then [KInt, KInt, KInt, KRest]
    else if header == 0x0c then [KInt, KInt, KInt, KLong, KLong, KColor, KInt, KInt]
    else if header == 0x0d then [KInt, KRest]
    else if header == 0x0e then [KInt, KInt, KInt, KLong, KColor, KRest]
    else if header == 0x0f then [KInt, KInt, KLong, KInt, KInt]
    else [KInt, KInt, KLong]
  }

  function Count(f: Field): nat {
    if f.Int? && f.i >= 0 then f.i else 0
  }

  function ActivityKinds(n: nat): (ks: seq<Kind>)
    ensures |ks| == 3 * n
  {
    seq(3 * n, i => if i % 3 == 0 then KText else if i % 3 == 1 then KNul else KColor)
  }

  /** The kinds that follow, once a count has been read. */
  function TailKinds(header: byte, head: seq<Field>): seq<Kind> {
    if header == 0x08 && |head| == 13 then
      ActivityKinds(Count(head[10])) + [KText, KNul, KText, KNul, KText, KNul, KRest]
    else if header == 0x0c && |head| == 8 then seq(Count(head[7]), _ => KInt) + [KRest]
    else if header == 0x0f && |head| == 5 then seq(Count(head[4]), _ => KInt)
    else []
  }

  function U32(f: Field): u32 {
    if f.Int? then AsUint32(f.i) else 0
  }

  function I32(f: Field): i32 {
    if f.Int? then f.i else 0
  }

  function U64(f: Field): u64 {
    if f.Long? then AsUint64(f.l) else 0
  }

  function Rgb(f: Field): u32 {
    if f.Color? then f.c else 0
  }

  function String(f: Field): cstring {
    if f.Text? then f.s else if f.Rest? && 0 !in f.bytes then f.bytes else []
  }

  function DepsOf(fs: seq<Field>): seq<u32> {
    seq(|fs|, i requires 0 <= i < |fs| => U32(fs[i]))
  }

  function ActivitiesOf(fs: seq<Field>): seq<Activity> {
    seq(|fs| / 3, i requires 0 <= i < |fs| / 3 => Activity(String(fs[3 * i]), Rgb(fs[3 * i + 2])))
  }

  /** The message with the given fields; `image` is what is left of the frame after them. */
  function Rebuild(header: byte, h: seq<Field>, t: seq<Field>, image: seq<byte>): Option<Message> {
    if header == 0x05 then
      if |h| == 3 then Some(Visual(U64(h[0]), String(h[1]), image)) else None
    else if image != [] then None
    else if header < 0x0b && header != 0x08 then RebuildAnnotation(header, h)
    else if header == 0x08 then RebuildCounter(h, t)
    else RebuildCam(header, h, t)
  }

  function RebuildAnnotation(header: byte, h: seq<Field>): Option<Message> {
    if header == 0x01 && |h| == 3 then Some(Str(U64(h[0]), U32(h[1]), String(h[2])))
    else if header == 0x02 && |h| == 4 then Some(StrColor(U64(h[0]), U32(h[1]), Rgb(h[2]), String(h[3])))
    else if header == 0x03 && |h| == 4 then Some(NameChannel(U64(h[0]), U32(h[1]), U32(h[2]), String(h[3])))
    else if header == 0x04 && |h| == 3 then Some(NameGroup(U64(h[0]), U32(h[1]), String(h[2])))
    else if header == 0x06 && |h| == 2 then Some(Marker(U64(h[0]), String(h[1])))
    else if header == 0x07 && |h| == 3 then Some(MarkerColor(U64(h[0]), Rgb(h[1]), String(h[2])))
    else if header == 0x09 && |h| == 4 then Some(CounterValue(U64(h[0]), U32(h[1]), U32(h[2]), U32(h[3])))
    else if header == 0x0a && |h| == 5 then
      Some(ActivitySwitch(U64(h[0]), U32(h[1]), U32(h[2]), U32(h[3]), U32(h[4])))
    else None
  }

  function RebuildCounter(h: seq<Field>, t: seq<Field>): Option<Message> {
    if |h| == 13 && |t| >= 7 then
      var n := |t| - 7;
      Some(Counter(U32(h[0]), I32(h[1]), I32(h[2]), I32(h[3]), U32(h[4]), I32(h[5]), I32(h[6]), I32(h[7]), I32(h[8]),
                   I32(h[9]), U32(h[11]), Rgb(h[12]), ActivitiesOf(t[..n]),
                   String(t[n]), String(t[n + 2]), String(t[n + 4]), String(t[n + 6])))
    else None
  }

  function RebuildCam(header: byte, h: seq<Field>, t: seq<Field>): Option<Message> {
    if header == 0x0b && |h| == 4 then Some(CamTrack(U32(h[0]), U32(h[1]), U32(h[2]), String(h[3])))
    else if header == 0x0c && |h| == 8 && |t| >= 1 then
      Some(CamJob(U32(h[0]), U32(h[1]), U32(h[2]), U64(h[3]), U64(h[4]), Rgb(h[5]), U32(h[6]),
                  DepsOf(t[..|t| - 1]), String(t[|t| - 1])))
    else if header == 0x0d && |h| == 2 then Some(CamViewName(U32(h[0]), String(h[1])))
    else if header == 0x0e && |h| == 6 then
      Some(CamJobStart(U32(h[0]), U32(h[1]), U32(h[2]), U64(h[3]), Rgb(h[4]), String(h[5])))
    else if header == 0x0f && |h| == 5 then Some(CamJobSetDeps(U32(h[0]), U32(h[1]), U64(h[2]), U32(h[3]), DepsOf(t)))
    else if header == 0x10 && |h| == 3 then Some(CamJobStop(U32(h[0]), U32(h[1]), U64(h[2])))
    else None
  }

  function ReadPayload(header: byte, bs: seq<byte>): Option<Message> {
    match ReadFields(HeadKinds(header), bs)
    case Bad => None
    case Good(h, more) =>
      match ReadFields(TailKinds(header, h), more)
      case Bad => None
      case Good(t, image) => Rebuild(header, h, t, image)
  }

  /** The sizes that the 32-bit length and count fields can carry. */
  predicate Sized(m: Message) {
    && |Packed(Fields(m))| + |Image(m)| < 0x1_0000_0000
    && (m.Counter? ==> |m.activities| < 0x8000_0000)
    && (m.CamJob? || m.CamJobSetDeps? ==> |m.deps| < 0x8000_0000)
  }

  /** Passing an unsigned value as a signed one loses nothing. */
  lemma IntegersComeBack()
    ensures forall x: u32 :: U32(Wrapped(x)) == x
    ensures forall t: u64 :: U64(Stamp(t)) == t
  {
  }

  predicate HeadMatches(m: Message) {
    HeadKinds(Header(m)) == Kinds(Head(m)) && Delimited(Head(m))
  }

  lemma AnnotationHead(m: Message)
    requires !m.Counter? && !Reservations.IsCam(m)
    ensures HeadMatches(m)
  {
  }

  lemma CamHead(m: Message)
    requires Reservations.IsCam(m)
    ensures HeadMatches(m)
  {
  }

  lemma CounterHead(m: Message)
    requires m.Counter?
    ensures HeadMatches(m)
  {
    assert Kinds(CounterSettings(m)) == [KInt, KInt, KInt, KInt, KInt, KInt, KInt, KInt, KInt, KInt];
  }

  lemma HeadIsRead(m: Message)
    ensures HeadMatches(m)
    ensures Head(m) != [] && (Head(m)[|Head(m)| - 1].Rest? ==> Packed(Tail(m)) + Image(m) == [])
  {
    if m.Counter? {
      CounterHead(m);
    } else if Reservations.IsCam(m) {
      CamHead(m);
    } else {
      AnnotationHead(m);
    }
  }

  lemma ActivityKindsStep(n: nat)
    requires n > 0
    ensures ActivityKinds(n) == ActivityKinds(n - 1) + [KText, KNul, KColor]
  {
  }

  lemma {:induction false} ActivitiesAreRead(acts: seq<Activity>)
    ensures Kinds(ActivityFields(acts)) == ActivityKinds(|acts|)
  {
    if acts != [] {
      var n := |acts| - 1;
      ActivitiesAreRead(acts[..n]);
      ActivityKindsStep(n + 1);
    }
  }

  lemma {:induction false} ActivityFieldAt(acts: seq<Activity>, i: nat)
    requires i < |acts|
    ensures ActivityFields(acts)[3 * i] == Text(acts[i].name)
    ensures ActivityFields(acts)[3 * i + 1] == Nul
    ensures ActivityFields(acts)[3 * i + 2] == Color(acts[i].color)
    decreases |acts|
  {
    if i < |acts| - 1 {
      ActivityFieldAt(acts[..|acts| - 1], i);
    }
  }

  lemma ActivitiesAreRebuilt(acts: seq<Activity>)
    ensures ActivitiesOf(ActivityFields(acts)) == acts
  {
    var read := ActivitiesOf(ActivityFields(acts));
    assert |ActivityFields(acts)| / 3 == |acts|;
    forall i | 0 <= i < |acts|
      ensures read[i] == acts[i]
    {
      ActivityFieldAt(acts, i);
    }
  }

  lemma ActivitiesAreDelimited(acts: seq<Activity>)
    ensures Delimited(ActivityFields(acts))
    ensures forall f :: f in ActivityFields(acts) ==> !f.Rest?
  {
    var fs := ActivityFields(acts);
    forall j | 0 <= j < |fs|
      ensures DelimitedAt(fs, j) && !fs[j].Rest?
    {
      ActivityFieldAt(acts, j / 3);
    }
  }

  lemma DelimitedJoin(x: seq<Field>, y: seq<Field>)
    requires Delimited(x) && Delimited(y)
    requires forall f :: f in x ==> !f.Rest?
    ensures Delimited(x + y)
  {
    forall i | 0 <= i < |x + y|
      ensures DelimitedAt(x + y, i)
    {
      if i < |x| {
        assert DelimitedAt(x, i) && x[i] in x;
      } else {
        assert DelimitedAt(y, i - |x|);
      }
    }
  }

  function CounterTexts(m: Message): (fs: seq<Field>)
    requires m.Counter?
    ensures Delimited(fs)
  {
    [Text(m.title), Nul, Text(m.name), Nul, Text(m.units), Nul, Rest(m.description)]
  }

  lemma CounterTailIsRead(m: Message)
    requires m.Counter? && Sized(m)
    ensures TailKinds(Header(m), Head(m)) == Kinds(Tail(m)) && Delimited(Tail(m))
  {
    var fs, texts := ActivityFields(m.activities), CounterTexts(m);
    assert Tail(m) == fs + texts;
    assert Head(m)[10] == Int(|m.activities|);
    ActivitiesAreRead(m.activities);
    ActivitiesAreDelimited(m.activities);
    assert Kinds(texts) == [KText, KNul, KText, KNul, KText, KNul, KRest];
    hide Kinds, CounterTexts, ActivityFields, ActivityKinds;
    DelimitedJoin(fs, texts);
    KindsJoin(fs, texts);
  }

  lemma KindsJoin(x: seq<Field>, y: seq<Field>)
    ensures Kinds(x + y) == Kinds(x) + Kinds(y)
  {
  }

  lemma CounterTailShape(m: Message)
    requires m.Counter?
    ensures var n, t := 3 * |m.activities|, Tail(m);
            && |t| == n + 7 && t[..n] == ActivityFields(m.activities)
            && t[n] == Text(m.title) && t[n + 2] == Text(m.name) && t[n + 4] == Text(m.units)
            && t[n + 6] == Rest(m.description)
  {
  }

  lemma CounterHeadShape(m: Message)
    requires m.Counter?
    ensures var h := Head(m);
            && |h| == 13 && U32(h[0]) == m.id && h[1] == Int(m.perCpu) && h[2] == Int(m.counterClass)
            && h[3] == Int(m.display) && U32(h[4]) == m.modifier && h[5] == Int(m.composition)
            && h[6] == Int(m.rendering) && h[7] == Int(m.averageSelection) && h[8] == Int(m.averageCores)
            && h[9] == Int(m.percentage) && U32(h[11]) == m.cores && h[12] == Color(m.color)
  {
    IntegersComeBack();
    hide U32, Wrapped;
  }

  lemma CounterIsRebuilt(m: Message)
    requires m.Counter?
    ensures Rebuild(Header(m), Head(m), Tail(m), []) == Some(m)
  {
    CounterTailShape(m);
    ActivitiesAreRebuilt(m.activities);
    CounterHeadShape(m);
    hide Head, Tail, ActivityFields, ActivitiesOf, U32, Wrapped;
  }

  lemma CamTailIsRead(m: Message)
    requires Reservations.IsCam(m) && Sized(m)
    ensures TailKinds(Header(m), Head(m)) == Kinds(Tail(m)) && Delimited(Tail(m))
  {
    if m.CamJob? {
      CamJobTailIsRead(m);
    } else if m.CamJobSetDeps? {
      CamSetDepsTailIsRead(m);
    } else {
      assert Tail(m) == [];
    }
  }

  lemma CamJobTailIsRead(m: Message)
    requires m.CamJob? && Sized(m)
    ensures TailKinds(Header(m), Head(m)) == Kinds(Tail(m)) && Delimited(Tail(m))
  {
  }

  lemma CamSetDepsTailIsRead(m: Message)
    requires m.CamJobSetDeps? && Sized(m)
    ensures TailKinds(Header(m), Head(m)) == Kinds(Tail(m)) && Delimited(Tail(m))
  {
    DepsAreDelimited(m.deps);
    SetDepsHead(m);
    hide DepFields, Kinds, Delimited, Head, Sized;
  }

  lemma SetDepsHead(m: Message)
    requires m.CamJobSetDeps? && Sized(m)
    ensures |Head(m)| == 5 && Head(m)[4] == Int(|m.deps|) && Tail(m) == DepFields(m.deps) && Header(m) == 0x0f
  {
    hide DepFields, Packed, Fields;
  }

  lemma DepsAreDelimited(deps: seq<u32>)
    ensures Kinds(DepFields(deps)) == seq(|deps|, _ => KInt) && Delimited(DepFields(deps))
  {
  }

  lemma CamIsRebuilt(m: Message)
    requires Reservations.IsCam(m)
    ensures Rebuild(Header(m), Head(m), Tail(m), []) == Some(m)
  {
    if m.CamJob? {
      CamJobIsRebuilt(m);
    } else {
      if m.CamJobSetDeps? {
        DepsAreRebuilt(m.deps);
      }
      IntegersComeBack();
      hide DepFields, DepsOf, U32, U64, Wrapped, Stamp;
    }
  }

  lemma CamJobIsRebuilt(m: Message)
    requires m.CamJob?
    ensures RebuildCam(Header(m), Head(m), Tail(m)) == Some(m)
  {
    var fs := DepFields(m.deps);
    DepsAreRebuilt(m.deps);
    assert Tail(m)[..|m.deps|] == fs;
    IntegersComeBack();
    hide DepFields, DepsOf, U32, U64, Wrapped, Stamp;
  }

  lemma DepsAreRebuilt(deps: seq<u32>)
    ensures DepsOf(DepFields(deps)) == deps
  {
  }

  lemma AnnotationIsRead(m: Message)
    requires !m.Counter? && !Reservations.IsCam(m)
    ensures TailKinds(Header(m), Head(m)) == Kinds(Tail(m)) && Delimited(Tail(m)) && Tail(m) == []
    ensures Rebuild(Header(m), Head(m), [], Image(m)) == Some(m)
  {
    IntegersComeBack();
    hide U32, U64, Wrapped, Stamp;
  }

  lemma PayloadRoundTrip(m: Message)
    requires Sized(m)
    ensures ReadPayload(Header(m), Packed(Fields(m)) + Image(m)) == Some(m)
  {
    hide Head, Tail, Packed, Header, HeadKinds, TailKinds, Kinds, Rebuild, Delimited, ReadFields;
    var h, t := Head(m), Tail(m);
    HeadIsRead(m);
    if m.Counter? {
      CounterTailIsRead(m);
      CounterIsRebuilt(m);
    } else if Reservations.IsCam(m) {
      CamTailIsRead(m);
      CamIsRebuilt(m);
    } else {
      AnnotationIsRead(m);
    }
    Reservations.Concatenation(h, t);
    Associative(Packed(h), Packed(t), Image(m));
    FieldsRoundTrip(h, Packed(t) + Image(m));
    FieldsRoundTrip(t, Image(m));
  }

  /** The bytes of a run of messages. */
  function Frames(ms: seq<Message>): seq<byte> {
    if ms == [] then [] else Frame(ms[0]) + Frames(ms[1..])
  }

  /** What a reader has understood and what it still waits to complete. */
  datatype Stream = Stream(messages: seq<Message>, pending: seq<byte>)

  function ReadStream(bs: seq<byte>): Stream
    decreases |bs|
  {
    if |bs| < 5 || |bs| < 5 + Uint32Of(bs[1..5]) then Stream([], bs)
    else
      var end := 5 + Uint32Of(bs[1..5]);
      match ReadPayload(bs[0], bs[5..end])
      case None => Stream([], bs)
      case Some(m) =>
        var more := ReadStream(bs[end..]);
        Stream([m] + more.messages, more.pending)
  }

  lemma Sections(header: byte, length: seq<byte>, body: seq<byte>, tail: seq<byte>)
    requires |length| == 4
    ensures var bs := [header] + length + body + tail;
            && bs[0] == header && bs[1..5] == length
            && bs[5..5 + |body|] == body && bs[5 + |body|..] == tail
  {
  }

  /** Header, length and payload sit where a reader looks for them. */
  lemma FrameShape(m: Message, tail: seq<byte>)
    requires Sized(m)
    ensures var bs, body := Frame(m) + tail, Packed(Fields(m)) + Image(m);
            && |Frame(m)| == 5 + |body|
            && bs[0] == Header(m) && Uint32Of(bs[1..5]) == |body|
            && bs[5..5 + |body|] == body && bs[5 + |body|..] == tail
  {
    hide Packed, Fields, Uint32Bytes, Image, Header;
    var body := Packed(Fields(m)) + Image(m);
    Uint32RoundTrip(LengthField(m));
    Sections(Header(m), Uint32Bytes(LengthField(m)), body, tail);
    Associative([Header(m)] + Uint32Bytes(LengthField(m)), Packed(Fields(m)), Image(m));
  }

  lemma FirstFrame(m: Message, tail: seq<byte>)
    requires Sized(m)
    ensures ReadStream(Frame(m) + tail) ==
            Stream([m] + ReadStream(tail).messages, ReadStream(tail).pending)
  {
    FrameShape(m, tail);
    PayloadRoundTrip(m);
  }

  /** A frame that is not yet complete is not read. */
  lemma TornFrame(m: Message, n: nat)
    requires Sized(m) && n < |Frame(m)|
    ensures ReadStream(Frame(m)[..n]) == Stream([], Frame(m)[..n])
  {
    FrameShape(m, []);
    hide Frame, ReadPayload, Uint32Of, Packed, Fields, Image, Header, Sized;
    assert Frame(m) + [] == Frame(m);
    if n >= 5 {
      assert Frame(m)[..n][1..5] == Frame(m)[1..5];
    }
  }

  predicate AllSized(ms: seq<Message>) {
    forall i :: 0 <= i < |ms| ==> Sized(ms[i])
  }

  /** A reader of whole frames followed by part of one recovers exactly the whole ones. */
  lemma {:induction false} StreamRoundTrip(ms: seq<Message>, tail: seq<byte>)
    requires AllSized(ms)
    requires ReadStream(tail) == Stream([], tail)
    ensures ReadStream(Frames(ms) + tail) == Stream(ms, tail)
    decreases |ms|
  {
    hide Frame, ReadPayload, Sized;
    if ms == [] {
      assert Frames(ms) + tail == tail;
    } else {
      StreamRoundTrip(ms[1..], tail);
      FirstFrame(ms[0], Frames(ms[1..]) + tail);
      Associative(Frame(ms[0]), Frames(ms[1..]), tail);
      assert [ms[0]] + ms[1..] == ms;
    }
  }

  lemma {:induction false} FramesJoin(x: seq<Message>, y: seq<Message>)
    ensures Frames(x + y) == Frames(x) + Frames(y)
  {
    hide Frame;
    if x == [] {
      assert x + y == y;
    } else {
      FramesJoin(x[1..], y);
      Associative(Frame(x[0]), Frames(x[1..]), Frames(y));
      assert (x + y)[1..] == x[1..] + y;
    }
  }

  /** The number of frames that lie whole in the first n bytes. */
  function WholeFrames(ms: seq<Message>, n: nat): (k: nat)
    ensures k <= |ms|
  {
    if ms == [] || n < |Frame(ms[0])| then 0 else 1 + WholeFrames(ms[1..], n - |Frame(ms[0])|)
  }

  /** Wherever a stream of frames is cut, a reader recovers exactly the frames before the cut. */
  lemma {:induction false} CutStream(ms: seq<Message>, n: nat)
    requires AllSized(ms) && n <= |Frames(ms)|
    ensures ReadStream(Frames(ms)[..n]).messages == ms[..WholeFrames(ms, n)]
    ensures Frames(ms[..WholeFrames(ms, n)]) + ReadStream(Frames(ms)[..n]).pending == Frames(ms)[..n]
    ensures n == |Frames(ms)| ==> WholeFrames(ms, n) == |ms|
    decreases |ms|
  {
    hide Frame, ReadPayload, ReadStream, Sized;
    if ms == [] {
      EmptyStream();
    } else if n < |Frame(ms[0])| {
      TornFrame(ms[0], n);
      assert Frames(ms)[..n] == Frame(ms[0])[..n];
    } else {
      CutStream(ms[1..], n - |Frame(ms[0])|);
      CutStep(ms, n);
    }
  }

  lemma CutStep(ms: seq<Message>, n: nat)
    requires AllSized(ms) && ms != [] && |Frame(ms[0])| <= n <= |Frames(ms)|
    ensures var f, k := Frame(ms[0]), WholeFrames(ms, n) - 1;
            var cut := Frames(ms[1..])[..n - |f|];
            && k == WholeFrames(ms[1..], n - |f|)
            && ms[..k + 1] == [ms[0]] + ms[1..][..k]
            && Frames(ms)[..n] == f + cut
            && Frames(ms[..k + 1]) == f + Frames(ms[1..][..k])
            && ReadStream(Frames(ms)[..n]).messages == [ms[0]] + ReadStream(cut).messages
            && Frames(ms[..k + 1]) + ReadStream(Frames(ms)[..n]).pending
               == f + (Frames(ms[1..][..k]) + ReadStream(cut).pending)
  {
    hide Frame, ReadPayload, ReadStream, Sized;
    var f, k := Frame(ms[0]), WholeFrames(ms, n) - 1;
    var cut := Frames(ms[1..])[..n - |f|];
    assert Frames(ms)[..n] == f + cut;
    FirstFrame(ms[0], cut);
    assert ms[..k + 1][1..] == ms[1..][..k];
    Associative(f, Frames(ms[1..][..k]), ReadStream(cut).pending);
  }

  lemma EmptyStream()
    ensures ReadStream([]) == Stream([], [])
  {
  }
}
