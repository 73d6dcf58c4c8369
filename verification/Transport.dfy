// One annotating thread and the sender thread, interleaved at the level of
// single loads and stores of the shared fields. The stores of a frame may come
// in any order between reservation and commit, a send may take any number of
// bytes and copies them one at a time, and a stop of the capture may strike
// between any two turns. A thread tests the capture once when it enters the
// library; one that then finds resend_state up takes it down and sends the saved
// entries again, many frames after that single test, also when the capture has
// meanwhile gone off. Visual messages and
// counters that overflow their reservation are kept out (see Sending and
// Reservations for what they do).

module Transport {
  import opened Bytes
  import opened Ring
  import opened Messages
  import opened Wire
  import Reservations

  /** The program points of the annotating thread. */
  datatype Producer =
    | Ready                                            // outside the library
    | Entered                                          // has found the capture on
    | Inside(resend: bool)                             // past gator_get_thread; `resend`: saved entries go first
    | Checking(m: Message, more: bool)                 // about to evaluate gator_buf_free; `more` frames follow
    | Blocked(m: Message, more: bool)                  // in sem_wait on its semaphore
    | Writing(m: Message, more: bool, done: set<nat>)  // past the wait loop; the offsets of the frame stored so far

  /** The program points of the sender, as far as this thread is concerned. */
  datatype Sender =
    | Idle
    | Leg(w: nat, second: bool, want: nat, copied: nat)  // inside a send call on the ring
    | Posting                                            // gator_send has returned true
    | Stopping                                           // capturing is off, write_pos not read yet
    | StopLoaded(w: nat)                                 // write_pos read, read_pos not stored yet
    | StopStored                                         // read_pos stored, semaphore not posted yet
    | Raising(again: bool)                               // capture is on again, resend_state not up yet

  /** History: a place between two committed frames, as a number of messages and of bytes. */
  datatype Mark = Mark(index: nat, pos: nat)

  /** History: a connection, the mark it started at and the bytes it has taken. */
  datatype Connection = Connection(mark: Mark, sent: seq<byte>)

  datatype State = State(
    ring: seq<byte>, w: nat, r: nat, sem: nat, fd: int, capturing: bool, resend: bool,
    producer: Producer, sender: Sender,
    // history: messages committed, their bytes, how many of these read_pos has passed,
    // the same at the start of the turn, the mark of the last load of write_pos,
    // the connections, and whether no stop has yet dropped bytes of a connection
    // that lives on
    log: seq<Message>, out: seq<byte>, taken: nat, turnStart: nat, snap: Mark,
    conn: Connection, past: seq<Connection>, intact: bool)

  datatype Step =
    | Enter | Claim | Leave | OtherClaim | Begin(m: Message, more: bool) | CheckFree | Wake | Store(i: nat) | Commit
    | Connect(fd: int) | Snapshot | Copy | Return | Post
    | Stop | StopLoad | StopStore | StopPost | Start(again: bool) | Raise

  /** The messages the whole-run theorem is about. */
  predicate Sendable(m: Message) {
    Messages.Accepted(m) && !m.Visual? && Reservations.Fits(m)
  }

  /** The kinds of message that are saved and sent again. */
  predicate Listed(m: Message) {
    m.Counter? || m.CamTrack? || m.CamViewName?
  }

  ghost predicate Initial(s: State) {
    && |s.ring| == SIZE && s.w == 0 && s.r == 0 && s.sem == 0 && s.fd < 0 && s.capturing && !s.resend
    && s.producer == Ready && s.sender == Idle
    && s.log == [] && s.out == [] && s.taken == 0 && s.turnStart == 0 && s.snap == Mark(0, 0)
    && s.conn == Connection(Mark(0, 0), []) && s.past == [] && s.intact
  }

  predicate Sound(s: State) {
    |s.ring| == SIZE && s.w < SIZE && s.r < SIZE
  }

  predicate AllStored(p: Producer)
    requires p.Writing?
  {
    forall i: nat :: i < |RingFrame(p.m)| ==> i in p.done
  }

  predicate Enabled(s: State, step: Step) {
    && Sound(s)
    && match step
       case Enter => s.producer == Ready && s.capturing
       case Claim => s.producer == Entered
       case OtherClaim => s.resend
       case Leave => s.producer.Inside?
       case Begin(m, more) => s.producer.Inside? && (more ==> s.producer.resend && Listed(m)) && Sendable(m)
       case CheckFree => s.producer.Checking?
       case Wake => s.producer.Blocked? && s.sem > 0
       case Store(i) => s.producer.Writing? && i < |RingFrame(s.producer.m)|
       case Commit => s.producer.Writing? && AllStored(s.producer)
       case Connect(_) => s.sender == Idle && s.capturing && s.fd < 0
       case Snapshot => s.sender == Idle && s.capturing && s.fd >= 0
       case Copy => s.sender.Leg? && s.sender.copied < s.sender.want && s.r + s.sender.copied < SIZE
       case Return => s.sender.Leg?
       case Post => s.sender == Posting
       case Stop => s.sender == Idle && s.capturing
       case StopLoad => s.sender == Stopping
       case StopStore => s.sender.StopLoaded? && s.sender.w < SIZE
       case StopPost => s.sender == StopStored
       case Start(_) => s.sender == Idle && !s.capturing
       case Raise => s.sender.Raising?
  }

  // The effect of each step that does more than move a program point.

  function AfterCheck(s: State, m: Message, more: bool): State
    requires Sound(s)
  {
    s.(producer := if Free(s.r, s.w) < Reserved(m) then Blocked(m, more) else Writing(m, more, {}))
  }

  function AfterStore(s: State, i: nat): State
    requires Sound(s) && s.producer.Writing? && i < |RingFrame(s.producer.m)|
  {
    s.(ring := s.ring[Pos(s.w + i) := RingFrame(s.producer.m)[i]],
       producer := s.producer.(done := s.producer.done + {i}))
  }

  function AfterCommit(s: State, m: Message, more: bool): State {
    s.(w := Pos(s.w + |RingFrame(m)|), producer := if more then Inside(true) else Ready,
       log := s.log + [m], out := s.out + RingFrame(m))
  }

  function AfterConnect(s: State, fd: int): State {
    if fd < 0 then s.(capturing := false, sender := Stopping) else s.(fd := fd)
  }

  function AfterSnapshot(s: State): State
    requires Sound(s)
  {
    if s.w == s.r then s
    else s.(sender := Leg(s.w, false, if s.w > s.r then s.w - s.r else SIZE - s.r, 0),
            snap := Mark(|s.log|, |s.out|), turnStart := s.taken)
  }

  function AfterCopy(s: State): State
    requires Sound(s) && s.sender.Leg? && s.r + s.sender.copied < SIZE
  {
    s.(conn := s.conn.(sent := s.conn.sent + [s.ring[s.r + s.sender.copied]]),
       sender := s.sender.(copied := s.sender.copied + 1))
  }

  function AfterReturn(s: State): State
    requires s.sender.Leg?
  {
    var Leg(w, second, want, n) := s.sender;
    if n == 0 then s.(capturing := false, sender := Stopping)
    else s.(r := Pos(s.r + n), taken := s.taken + n,
            sender := if !second && w < s.r && n == want then Leg(w, true, w, 0) else Posting)
  }

  function AfterStopStore(s: State, w: nat): State {
    s.(r := w, taken := s.snap.pos, sender := StopStored)
  }

  /** gator_stop_capturing closes positive descriptors only. */
  function AfterStopPost(s: State): State {
    var t := s.(sem := s.sem + 1, sender := Idle);
    if s.fd > 0 then t.(fd := -1, past := s.past + [s.conn], conn := Connection(s.snap, []))
    else if s.fd < 0 then t.(conn := Connection(s.snap, []))
    else t.(intact := s.intact && !Drops(s))
  }

  /** The connection lives on although bytes have been dropped that it never got. */
  predicate Drops(s: State) {
    s.fd == 0 && s.conn.mark.pos + |s.conn.sent| != s.taken
  }

  function Do(s: State, step: Step): State
    requires Enabled(s, step)
  {
    match step
    case Enter => s.(producer := Entered)
    case Claim => s.(producer := Inside(s.resend), resend := false)
    case OtherClaim => s.(resend := false)
    case Leave => s.(producer := Ready)
    case Begin(m, more) => s.(producer := Checking(m, more))
    case CheckFree => AfterCheck(s, s.producer.m, s.producer.more)
    case Wake => s.(sem := s.sem - 1, producer := Checking(s.producer.m, s.producer.more))
    case Store(i) => AfterStore(s, i)
    case Commit => AfterCommit(s, s.producer.m, s.producer.more)
    case Connect(fd) => AfterConnect(s, fd)
    case Snapshot => AfterSnapshot(s)
    case Copy => AfterCopy(s)
    case Return => AfterReturn(s)
    case Post => s.(sem := s.sem + 1, sender := Idle)
    case Stop => s.(capturing := false, sender := Stopping)
    case StopLoad => s.(sender := StopLoaded(s.w), snap := Mark(|s.log|, |s.out|))
    case StopStore => AfterStopStore(s, s.sender.w)
    case StopPost => AfterStopPost(s)
    case Start(again) => s.(capturing := true, sender := Raising(again))
    case Raise => s.(resend := true, sender := if s.sender.again then Raising(false) else Idle)
  }

  /** The states of a run: s, and after each step the next. */
  predicate Run(s: State, steps: seq<Step>, t: State)
    decreases |steps|
  {
    if steps == [] then s == t
    else Enabled(s, steps[0]) && Run(Do(s, steps[0]), steps[1..], t)
  }

  // ---------------------------------------------------------------- invariant

  /** The unread region holds the committed bytes that read_pos has not passed. */
  predicate RingInv(s: State) {
    && Sound(s)
    && s.taken <= |s.out| && Used(s.r, s.w) == |s.out| - s.taken
    && Unread(s.ring, s.r, s.w) == s.out[s.taken..]
  }

  /** What has been reserved stays reserved, and what has been stored stays stored. */
  predicate ProducerInv(s: State)
    requires Sound(s)
  {
    match s.producer
    case Ready => true
    case Entered => true
    case Inside(_) => true
    case Checking(m, _) => Sendable(m)
    case Blocked(m, _) => Sendable(m)
    case Writing(m, _, done) =>
      Sendable(m) && |RingFrame(m)| <= Free(s.r, s.w) && Stored(s.ring, s.w, RingFrame(m), done)
  }

  predicate Stored(a: slots, w: nat, frame: seq<byte>, done: set<nat>)
    requires w < SIZE
  {
    forall i: nat :: i < |frame| && i in done ==> a[Pos(w + i)] == frame[i]
  }

  /** How many bytes of the current send call have been copied. */
  function Copied(s: State): nat {
    if s.sender.Leg? then s.sender.copied else 0
  }

  predicate SenderInv(s: State)
    requires Sound(s)
  {
    && s.snap.pos <= |s.out|
    && match s.sender
       case Idle => true
       case Leg(w, second, want, copied) =>
         && s.capturing && s.fd >= 0 && w < SIZE
         && s.taken <= s.snap.pos && Used(s.r, w) == s.snap.pos - s.taken
         && copied <= want
         && (if second then s.r == 0 && want == w && s.taken > s.turnStart
             else s.r != w && want == (if w > s.r then w - s.r else SIZE - s.r) && s.taken == s.turnStart)
       case Posting => s.capturing && s.fd >= 0 && s.taken > s.turnStart
       case Stopping => !s.capturing
       case StopLoaded(w) => !s.capturing && w < SIZE && s.taken <= s.snap.pos && Used(s.r, w) == s.snap.pos - s.taken
       case StopStored => !s.capturing && s.taken == s.snap.pos
       case Raising(_) => s.capturing
  }

  predicate IsPrefix(x: seq<byte>, y: seq<byte>) {
    x <= y
  }

  /** What the live connection has taken are the bytes from its mark up to the read position. */
  predicate ConnInv(s: State) {
    && s.conn.mark.pos <= s.taken <= s.taken + Copied(s) <= |s.out|
    && (s.intact ==> SentInv(s))
  }

  predicate SentInv(s: State)
    requires s.conn.mark.pos <= s.taken <= s.taken + Copied(s) <= |s.out|
  {
    && (s.sender != StopStored ==> s.conn.sent == s.out[s.conn.mark.pos..s.taken + Copied(s)])
    && (s.sender == StopStored ==> IsPrefix(s.conn.sent, s.out[s.conn.mark.pos..s.taken]))
    && (s.fd < 0 ==> s.conn.sent == [])
  }

  predicate MarkOk(s: State, k: Mark) {
    k.index <= |s.log| && k.pos == |Frames(s.log[..k.index])|
  }

  predicate PastOk(s: State, c: Connection) {
    MarkOk(s, c.mark) && c.mark.pos <= |s.out| && IsPrefix(c.sent, s.out[c.mark.pos..])
  }

  predicate HistoryInv(s: State) {
    && s.out == Frames(s.log)
    && (forall i :: 0 <= i < |s.log| ==> Sendable(s.log[i]))
    && MarkOk(s, s.snap) && MarkOk(s, s.conn.mark)
    && (s.intact ==> forall c :: c in s.past ==> PastOk(s, c))
  }

  /** No wakeup is lost: a blocked producer whose semaphore is down between turns still lacks the space. */
  predicate WakeInv(s: State)
    requires Sound(s)
  {
    s.producer.Blocked? && s.sem == 0 && (s.sender == Idle || s.sender.Raising?) ==>
      Free(s.r, s.w) < Reserved(s.producer.m)
  }

  predicate Inv(s: State) {
    RingInv(s) && ProducerInv(s) && SenderInv(s) && ConnInv(s) && HistoryInv(s) && WakeInv(s)
  }

  // ------------------------------------------------------- the steps keep it

  /** A store ahead of write_pos, inside the free space, is invisible to the sender. */
  lemma StoreKeepsUnread(a: slots, r: nat, w: nat, i: nat, b: byte)
    requires r < SIZE && w < SIZE && i < Free(r, w)
    ensures Unread(a[Pos(w + i) := b], r, w) == Unread(a, r, w)
  {
    var after, before := Unread(a[Pos(w + i) := b], r, w), Unread(a, r, w);
    forall j | 0 <= j < Used(r, w)
      ensures after[j] == before[j]
    {
      assert Pos(r + j) != Pos(w + i);
    }
  }

  predicate InPlace(a: slots, w: nat, frame: seq<byte>)
    requires w < SIZE
  {
    forall i :: 0 <= i < |frame| ==> a[Pos(w + i)] == frame[i]
  }

  /** Publishing n stored bytes appends them to the unread region. */
  lemma PublishAppends(a: slots, r: nat, w: nat, frame: seq<byte>)
    requires r < SIZE && w < SIZE && |frame| <= Free(r, w) && InPlace(a, w, frame)
    ensures Used(r, Pos(w + |frame|)) == Used(r, w) + |frame|
    ensures Unread(a, r, Pos(w + |frame|)) == Unread(a, r, w) + frame
  {
    assert Slice(a, w, |frame|) == frame;
    SliceSplit(a, r, Used(r, w), |frame|);
  }

  lemma StoreKeepsStored(a: slots, w: nat, frame: seq<byte>, done: set<nat>, i: nat)
    requires w < SIZE && i < |frame| <= SIZE && Stored(a, w, frame, done)
    ensures Stored(a[Pos(w + i) := frame[i]], w, frame, done + {i})
  {
    forall j: nat | j < |frame| && j in done + {i}
      ensures a[Pos(w + i) := frame[i]][Pos(w + j)] == frame[j]
    {
      if j != i {
        assert Pos(w + j) != Pos(w + i);
      }
    }
  }

  /** The history is a matter of the committed messages and the marks alone. */
  lemma SameHistory(s: State, t: State)
    requires HistoryInv(s)
    requires t.log == s.log && t.out == s.out && t.snap == s.snap && t.conn.mark == s.conn.mark && t.past == s.past
    requires t.intact == s.intact
    ensures HistoryInv(t)
  {
    forall c | t.intact && c in t.past
      ensures PastOk(t, c)
    {
      assert PastOk(s, c);
    }
  }

  /** The annotating thread's own steps leave the sender and the connection alone. */
  lemma SameSender(s: State, t: State)
    requires Sound(s) && Sound(t) && SenderInv(s) && ConnInv(s)
    requires t.sender == s.sender && t.r == s.r && t.fd == s.fd && t.capturing == s.capturing
    requires t.taken == s.taken && t.turnStart == s.turnStart && t.snap == s.snap
    requires t.conn == s.conn && t.out == s.out && t.intact == s.intact
    ensures SenderInv(t) && ConnInv(t)
  {
  }

  /** Steps that move the annotating thread to a point where nothing is asked of the ring. */
  lemma PointInv(s: State, p: Producer, resend: bool)
    requires Inv(s) && (p == Ready || p == Entered || p.Inside? || (p.Checking? && Sendable(p.m)))
    ensures Inv(s.(producer := p, resend := resend))
  {
    hide HistoryInv, SenderInv, ConnInv, RingFrame, Reserved, Sendable, Used, Unread, Free;
    SameHistory(s, s.(producer := p, resend := resend));
    SameSender(s, s.(producer := p, resend := resend));
  }

  /** Another thread takes the flag down. */
  lemma OtherClaimInv(s: State)
    requires Inv(s)
    ensures Inv(s.(resend := false))
  {
    assert Sound(s);
    hide HistoryInv, SenderInv, ConnInv, RingInv, ProducerInv, RingFrame, Reserved, Used, Unread, Free;
    SameHistory(s, s.(resend := false));
    SameSender(s, s.(resend := false));
    SameProducer(s, s.(resend := false));
  }

  lemma CheckFreeInv(s: State)
    requires Inv(s) && s.producer.Checking?
    ensures Inv(AfterCheck(s, s.producer.m, s.producer.more))
  {
    hide HistoryInv, SenderInv, ConnInv, RingFrame, Reserved, Used, Unread, Free, Messages.Accepted;
    SameHistory(s, AfterCheck(s, s.producer.m, s.producer.more));
    SameSender(s, AfterCheck(s, s.producer.m, s.producer.more));
  }

  lemma WakeInvariant(s: State)
    requires Inv(s) && Enabled(s, Wake)
    ensures Inv(Do(s, Wake))
  {
    hide HistoryInv, SenderInv, ConnInv, RingFrame, Reserved, Sendable, Used, Unread, Free;
    SameHistory(s, Do(s, Wake));
    SameSender(s, Do(s, Wake));
  }

  lemma StoreInv(s: State, i: nat)
    requires Inv(s) && s.producer.Writing? && i < |RingFrame(s.producer.m)|
    ensures Inv(AfterStore(s, i))
  {
    assert Sound(s);
    hide HistoryInv, SenderInv, ConnInv, RingInv, ProducerInv, RingFrame;
    StoreRing(s, i);
    SameHistory(s, AfterStore(s, i));
    SameSender(s, AfterStore(s, i));
  }

  lemma StoreRing(s: State, i: nat)
    requires RingInv(s) && ProducerInv(s) && s.producer.Writing? && i < |RingFrame(s.producer.m)|
    ensures RingInv(AfterStore(s, i)) && ProducerInv(AfterStore(s, i))
  {
    StoreBytes(s, i);
    StoreProducer(s, i);
    hide RingInv, ProducerInv, RingFrame;
  }

  lemma StoreBytes(s: State, i: nat)
    requires RingInv(s) && s.producer.Writing? && i < |RingFrame(s.producer.m)| <= Free(s.r, s.w)
    ensures RingInv(AfterStore(s, i))
  {
    hide RingFrame, Used, Unread, Free, Pos;
    StoreKeepsUnread(s.ring, s.r, s.w, i, RingFrame(s.producer.m)[i]);
  }

  lemma StoreProducer(s: State, i: nat)
    requires Sound(s) && ProducerInv(s) && s.producer.Writing? && i < |RingFrame(s.producer.m)|
    ensures ProducerInv(AfterStore(s, i))
  {
    hide RingFrame, Sendable, Free, Pos, Stored;
    StoreKeepsStored(s.ring, s.w, RingFrame(s.producer.m), s.producer.done, i);
  }

  lemma FrameOfSendable(m: Message)
    requires Sendable(m)
    ensures Frame(m) == RingFrame(m) && Sized(m) && 5 <= |RingFrame(m)| <= SIZE / 2
  {
    assert Image(m) == [];
    FitsIsSafe(m);
    ActivitySizes(m);
  }

  lemma ActivitySizes(m: Message)
    ensures m.Counter? ==> |m.activities| <= Sum(m)
    ensures m.CamJob? || m.CamJobSetDeps? ==> |m.deps| <= Sum(m)
  {
  }

  lemma FitsIsSafe(m: Message)
    requires Messages.Accepted(m) && Reservations.Fits(m)
    ensures Sum(m) < 0x1_0000_0000
  {
    hide Sum, RingFrame, Reserved;
    if m.Counter? {
      Reservations.CounterReservationIff(m);
    } else {
      Reservations.ReservationSuffices(m);
    }
  }

  /** A mark stays a mark when another message is committed. */
  lemma MarkGrows(s: State, t: State, m: Message, k: Mark)
    requires MarkOk(s, k) && t.log == s.log + [m]
    ensures MarkOk(t, k)
  {
    assert t.log[..k.index] == s.log[..k.index];
  }

  lemma CommitHistory(s: State, m: Message, more: bool)
    requires HistoryInv(s) && Sendable(m)
    ensures HistoryInv(AfterCommit(s, m, more))
  {
    hide RingFrame, Sendable, Frames, Frame, PastOk;
    var t := AfterCommit(s, m, more);
    FrameOfSendable(m);
    FramesJoin(s.log, [m]);
    OneFrame(m);
    MarkGrows(s, t, m, s.snap);
    MarkGrows(s, t, m, s.conn.mark);
    forall c | t.intact && c in t.past
      ensures PastOk(t, c)
    {
      PastGrows(s, t, m, c);
    }
  }

  lemma PastGrows(s: State, t: State, m: Message, c: Connection)
    requires PastOk(s, c) && t.log == s.log + [m] && t.out == s.out + RingFrame(m)
    ensures PastOk(t, c)
  {
    hide RingFrame;
    MarkGrows(s, t, m, c.mark);
    TailGrows(s.out, RingFrame(m), c.mark.pos);
  }

  lemma OneFrame(m: Message)
    ensures Frames([m]) == Frame(m)
  {
    assert Frame(m) + [] == Frame(m);
  }

  lemma CommitRing(s: State, m: Message, more: bool)
    requires RingInv(s) && |RingFrame(m)| <= Free(s.r, s.w)
    requires InPlace(s.ring, s.w, RingFrame(m))
    ensures RingInv(AfterCommit(s, m, more))
  {
    RingGrows(s, AfterCommit(s, m, more), RingFrame(m));
    hide *;
  }

  lemma RingGrows(s: State, t: State, frame: seq<byte>)
    requires RingInv(s) && |frame| <= Free(s.r, s.w) && InPlace(s.ring, s.w, frame)
    requires t.ring == s.ring && t.r == s.r && t.w == Pos(s.w + |frame|)
    requires t.out == s.out + frame && t.taken == s.taken
    ensures RingInv(t)
  {
    PublishAppends(s.ring, s.r, s.w, frame);
    TailGrows(s.out, frame, s.taken);
    hide Unread, Used, Free, Pos, InPlace;
  }

  lemma TailGrows(out: seq<byte>, frame: seq<byte>, n: nat)
    requires n <= |out|
    ensures (out + frame)[n..] == out[n..] + frame
  {
  }

  lemma CommitSender(s: State, m: Message, more: bool)
    requires RingInv(s) && SenderInv(s) && ConnInv(s) && RingInv(AfterCommit(s, m, more))
    ensures SenderInv(AfterCommit(s, m, more)) && ConnInv(AfterCommit(s, m, more))
  {
    CommitLeg(s, m, more);
    CommitSent(s, m, more);
    hide RingInv, SenderInv, ConnInv;
  }

  lemma CommitLeg(s: State, m: Message, more: bool)
    requires Sound(s) && SenderInv(s) && Sound(AfterCommit(s, m, more))
    ensures SenderInv(AfterCommit(s, m, more))
  {
    hide RingFrame, Used, Pos;
  }

  lemma CommitSent(s: State, m: Message, more: bool)
    requires ConnInv(s)
    ensures ConnInv(AfterCommit(s, m, more))
  {
    hide RingFrame, Pos;
    SameSlice(s.out, RingFrame(m), s.conn.mark.pos, s.taken);
    SameSlice(s.out, RingFrame(m), s.conn.mark.pos, s.taken + Copied(s));
  }

  lemma SameSlice(out: seq<byte>, frame: seq<byte>, a: nat, b: nat)
    requires a <= b <= |out|
    ensures (out + frame)[a..b] == out[a..b]
  {
  }

  /** At the commit the whole frame is in place, inside the free space. */
  lemma WholeFrame(s: State)
    requires Sound(s) && ProducerInv(s) && s.producer.Writing? && AllStored(s.producer)
    ensures var frame := RingFrame(s.producer.m);
            && Sendable(s.producer.m) && |frame| <= Free(s.r, s.w) && InPlace(s.ring, s.w, frame)
  {
    hide RingFrame, Sendable, Free, Pos;
  }

  lemma CommitInv(s: State)
    requires Inv(s) && s.producer.Writing? && AllStored(s.producer)
    ensures Inv(AfterCommit(s, s.producer.m, s.producer.more))
  {
    WholeFrame(s);
    hide HistoryInv, SenderInv, ConnInv, RingInv, AllStored, InPlace, RingFrame, Sendable, Unread, Used, Free, Pos;
    var m, more := s.producer.m, s.producer.more;
    CommitRing(s, m, more);
    CommitSender(s, m, more);
    CommitHistory(s, m, more);
  }

  // The steps of the sender.

  /** The sender's steps that leave the positions alone keep what the annotating thread relies on. */
  lemma SameProducer(s: State, t: State)
    requires RingInv(s) && ProducerInv(s)
    requires t.ring == s.ring && t.w == s.w && t.r == s.r && t.out == s.out && t.taken == s.taken
    requires t.producer == s.producer
    ensures RingInv(t) && ProducerInv(t)
  {
  }

  lemma ConnectInv(s: State, fd: int)
    requires Inv(s) && Enabled(s, Connect(fd))
    ensures Inv(AfterConnect(s, fd))
  {
    hide HistoryInv, RingInv, ProducerInv, Unread, Used, Free;
    SameHistory(s, AfterConnect(s, fd));
    SameProducer(s, AfterConnect(s, fd));
  }

  lemma StopInv(s: State)
    requires Inv(s) && Enabled(s, Stop)
    ensures Inv(Do(s, Stop))
  {
    hide HistoryInv, RingInv, ProducerInv, Unread, Used, Free;
    SameHistory(s, Do(s, Stop));
    SameProducer(s, Do(s, Stop));
  }

  lemma StartInv(s: State, again: bool)
    requires Inv(s) && Enabled(s, Start(again))
    ensures Inv(Do(s, Start(again)))
  {
    hide HistoryInv, RingInv, ProducerInv, Unread, Used, Free;
    SameHistory(s, Do(s, Start(again)));
    SameProducer(s, Do(s, Start(again)));
  }

  lemma RaiseInv(s: State)
    requires Inv(s) && Enabled(s, Raise)
    ensures Inv(Do(s, Raise))
  {
    hide HistoryInv, RingInv, ProducerInv, Unread, Used, Free;
    SameHistory(s, Do(s, Raise));
    SameProducer(s, Do(s, Raise));
  }

  lemma PostInv(s: State)
    requires Inv(s) && Enabled(s, Post)
    ensures Inv(Do(s, Post))
  {
    hide HistoryInv, RingInv, ProducerInv, Unread, Used, Free;
    SameHistory(s, Do(s, Post));
    SameProducer(s, Do(s, Post));
  }

  /** Loading write_pos marks the end of everything committed so far. */
  lemma LoadHistory(s: State, t: State)
    requires HistoryInv(s)
    requires t.log == s.log && t.out == s.out && t.conn.mark == s.conn.mark && t.past == s.past
    requires t.intact == s.intact
    requires t.snap == Mark(|s.log|, |s.out|)
    ensures HistoryInv(t)
  {
    assert s.log[..|s.log|] == s.log;
    forall c | t.intact && c in t.past
      ensures PastOk(t, c)
    {
      assert PastOk(s, c);
    }
  }

  lemma SnapshotInv(s: State)
    requires Inv(s) && Enabled(s, Snapshot)
    ensures Inv(AfterSnapshot(s))
  {
    hide HistoryInv, ProducerInv, Unread, Free;
    if s.w != s.r {
      LoadHistory(s, AfterSnapshot(s));
      SameProducer(s, AfterSnapshot(s));
    }
  }

  lemma StopLoadInv(s: State)
    requires Inv(s) && Enabled(s, StopLoad)
    ensures Inv(Do(s, StopLoad))
  {
    hide HistoryInv, ProducerInv, Unread, Free;
    LoadHistory(s, Do(s, StopLoad));
    SameProducer(s, Do(s, StopLoad));
  }

  /** In the middle of a send the bytes still asked for are published ones. */
  lemma LegIsPublished(s: State)
    requires RingInv(s) && SenderInv(s) && s.sender.Leg?
    ensures s.taken + s.sender.want <= s.snap.pos <= |s.out|
    ensures s.r + s.sender.want <= SIZE && s.sender.want <= Used(s.r, s.w)
  {
    hide Unread;
  }

  /** The byte the sender copies is the next byte of the stream. */
  lemma CopiedByte(s: State)
    requires RingInv(s) && SenderInv(s) && s.sender.Leg? && s.sender.copied < s.sender.want
    ensures s.r + s.sender.copied < SIZE && s.taken + s.sender.copied < |s.out|
    ensures s.ring[s.r + s.sender.copied] == s.out[s.taken + s.sender.copied]
  {
    LegIsPublished(s);
    var i := s.sender.copied;
    assert Unread(s.ring, s.r, s.w)[i] == s.ring[Pos(s.r + i)];
    assert s.out[s.taken..][i] == s.out[s.taken + i];
  }

  lemma MoreSent(out: seq<byte>, a: nat, n: nat)
    requires a <= n < |out|
    ensures out[a..n] + [out[n]] == out[a..n + 1]
  {
  }

  lemma CopySent(s: State)
    requires Sound(s) && ConnInv(s) && s.fd >= 0 && s.sender.Leg? && s.r + s.sender.copied < SIZE
    requires s.taken + s.sender.copied < |s.out|
    requires s.ring[s.r + s.sender.copied] == s.out[s.taken + s.sender.copied]
    ensures ConnInv(AfterCopy(s))
  {
    MoreSent(s.out, s.conn.mark.pos, s.taken + s.sender.copied);
  }

  lemma CopyLeg(s: State)
    requires Sound(s) && SenderInv(s) && s.sender.Leg? && s.sender.copied < s.sender.want
    requires s.r + s.sender.copied < SIZE
    ensures SenderInv(AfterCopy(s))
  {
  }

  lemma CopySender(s: State)
    requires RingInv(s) && SenderInv(s) && ConnInv(s) && s.sender.Leg? && s.sender.copied < s.sender.want
    requires s.r + s.sender.copied < SIZE
    ensures SenderInv(AfterCopy(s)) && ConnInv(AfterCopy(s))
  {
    assert Sound(s) && s.fd >= 0;
    hide RingInv, SenderInv, ConnInv;
    CopiedByte(s);
    CopySent(s);
    CopyLeg(s);
  }

  lemma CopyInv(s: State)
    requires Inv(s) && s.sender.Leg? && s.sender.copied < s.sender.want && s.r + s.sender.copied < SIZE
    ensures Inv(AfterCopy(s))
  {
    assert Sound(s);
    hide HistoryInv, RingInv, ProducerInv, SenderInv, ConnInv;
    CopySender(s);
    SameHistory(s, AfterCopy(s));
    SameProducer(s, AfterCopy(s));
  }

  /** Moving read_pos forward inside the published region. */
  lemma AdvanceRing(s: State, t: State, n: nat)
    requires RingInv(s) && ProducerInv(s) && n <= Used(s.r, s.w)
    requires t.ring == s.ring && t.w == s.w && t.out == s.out && t.producer == s.producer
    requires t.r == Pos(s.r + n) && t.taken == s.taken + n
    ensures RingInv(t) && ProducerInv(t)
  {
    AdvanceUnread(s, t, n);
    AdvanceProducer(s, t, n);
    hide RingInv, ProducerInv, Pos, Used;
  }

  lemma AdvanceUnread(s: State, t: State, n: nat)
    requires RingInv(s) && n <= Used(s.r, s.w)
    requires t.ring == s.ring && t.w == s.w && t.out == s.out
    requires t.r == Pos(s.r + n) && t.taken == s.taken + n
    ensures RingInv(t)
  {
    hide Unread, Slice, Pos, Used;
    ConsumeIsDrop(s.ring, s.r, s.w, n);
    DropsFront(s.out, s.taken, n, Slice(s.ring, s.r, n), Unread(s.ring, t.r, s.w));
  }

  lemma AdvanceProducer(s: State, t: State, n: nat)
    requires Sound(s) && Sound(t) && ProducerInv(s) && n <= Used(s.r, s.w)
    requires t.ring == s.ring && t.w == s.w && t.producer == s.producer && t.r == Pos(s.r + n)
    ensures ProducerInv(t)
  {
    hide Unread, Slice, Pos, Used, Free, Stored, RingFrame, Sendable;
    ConsumeIsDrop(s.ring, s.r, s.w, n);
  }

  lemma DropsFront(out: seq<byte>, k: nat, n: nat, front: seq<byte>, rest: seq<byte>)
    requires k <= |out| && front + rest == out[k..] && |front| == n
    ensures k + n <= |out| && rest == out[k + n..]
  {
    assert (front + rest)[n..] == rest && out[k..][n..] == out[k + n..];
  }

  lemma ReturnSender(s: State)
    requires RingInv(s) && SenderInv(s) && ConnInv(s) && s.sender.Leg?
    ensures Sound(AfterReturn(s)) && SenderInv(AfterReturn(s)) && ConnInv(AfterReturn(s))
  {
    LegIsPublished(s);
    ReturnLeg(s);
    ReturnSent(s);
    hide RingInv, SenderInv, ConnInv, Pos;
  }

  lemma ReturnLeg(s: State)
    requires Sound(s) && SenderInv(s) && s.sender.Leg?
    ensures Sound(AfterReturn(s)) && SenderInv(AfterReturn(s))
  {
  }

  lemma ReturnSent(s: State)
    requires Sound(s) && ConnInv(s) && s.sender.Leg?
    ensures ConnInv(AfterReturn(s))
  {
    hide Pos;
  }

  lemma ReturnInv(s: State)
    requires Inv(s) && s.sender.Leg?
    ensures Inv(AfterReturn(s))
  {
    ReturnSender(s);
    ReturnRing(s);
    ReturnWake(s);
    hide HistoryInv, RingInv, ProducerInv, SenderInv, ConnInv, WakeInv, Pos;
    SameHistory(s, AfterReturn(s));
  }

  lemma ReturnWake(s: State)
    requires s.sender.Leg? && Sound(AfterReturn(s))
    ensures WakeInv(AfterReturn(s))
  {
    hide Pos, Free, Reserved;
  }

  lemma ReturnRing(s: State)
    requires RingInv(s) && ProducerInv(s) && SenderInv(s) && s.sender.Leg?
    ensures RingInv(AfterReturn(s)) && ProducerInv(AfterReturn(s))
  {
    LegIsPublished(s);
    hide RingInv, ProducerInv, SenderInv, Used, Pos;
    if s.sender.copied == 0 {
      SameProducer(s, AfterReturn(s));
    } else {
      ReturnAdvances(s);
    }
  }

  lemma ReturnAdvances(s: State)
    requires RingInv(s) && ProducerInv(s) && SenderInv(s) && s.sender.Leg? && s.sender.copied > 0
    requires s.sender.want <= Used(s.r, s.w)
    ensures RingInv(AfterReturn(s)) && ProducerInv(AfterReturn(s))
  {
    AtMostWanted(s);
    hide RingInv, ProducerInv, SenderInv, Used, Pos;
    AdvanceRing(s, AfterReturn(s), s.sender.copied);
  }

  lemma AtMostWanted(s: State)
    requires Sound(s) && SenderInv(s) && s.sender.Leg?
    ensures s.sender.copied <= s.sender.want
  {
  }

  lemma StopStoreSender(s: State)
    requires RingInv(s) && SenderInv(s) && ConnInv(s) && s.sender.StopLoaded?
    ensures var t := AfterStopStore(s, s.sender.w); Sound(t) && SenderInv(t) && ConnInv(t)
    ensures Pos(s.r + (s.snap.pos - s.taken)) == s.sender.w && s.snap.pos - s.taken <= Used(s.r, s.w)
  {
    hide Unread;
    assert s.out[s.conn.mark.pos..s.taken] <= s.out[s.conn.mark.pos..];
  }

  lemma StopStoreInv(s: State)
    requires Inv(s) && s.sender.StopLoaded?
    ensures Inv(AfterStopStore(s, s.sender.w))
  {
    StopLoadedBounds(s);
    hide HistoryInv, RingInv, ProducerInv, SenderInv, ConnInv, Unread, Used, Free, Pos;
    SameHistory(s, AfterStopStore(s, s.sender.w));
    StopStoreSender(s);
    AdvanceRing(s, AfterStopStore(s, s.sender.w), s.snap.pos - s.taken);
  }

  lemma StopLoadedBounds(s: State)
    requires Sound(s) && SenderInv(s) && s.sender.StopLoaded?
    ensures s.taken <= s.snap.pos
  {
  }

  lemma StopPostHistory(s: State)
    requires HistoryInv(s) && ConnInv(s) && s.sender == StopStored
    ensures HistoryInv(AfterStopPost(s))
  {
    hide Frames, Sendable;
    var t := AfterStopPost(s);
    if s.intact {
      var mark := s.conn.mark.pos;
      assert s.out[mark..s.taken] == s.out[mark..][..s.taken - mark];
      assert PastOk(s, s.conn);
    }
    forall c | t.intact && c in t.past
      ensures PastOk(t, c)
    {
      assert PastOk(s, c);
    }
  }

  lemma StopPostSender(s: State)
    requires Sound(s) && SenderInv(s) && ConnInv(s) && s.sender == StopStored
    ensures SenderInv(AfterStopPost(s)) && ConnInv(AfterStopPost(s))
  {
    assert s.out[s.taken..s.taken] == [];
  }

  lemma StopPostInv(s: State)
    requires Inv(s) && s.sender == StopStored
    ensures Inv(AfterStopPost(s))
  {
    assert Sound(s);
    hide HistoryInv, RingInv, ProducerInv, SenderInv, ConnInv, WakeInv;
    StopPostHistory(s);
    StopPostSender(s);
    StopPostLeaves(s);
    hide AfterStopPost;
    SameProducer(s, AfterStopPost(s));
    StopPostWakes(s);
  }

  /** The parts of the state that the end of a stop does not touch, and the token it posts. */
  lemma StopPostLeaves(s: State)
    ensures var t := AfterStopPost(s);
            && t.ring == s.ring && t.w == s.w && t.r == s.r && t.out == s.out && t.taken == s.taken
            && t.producer == s.producer && t.sem == s.sem + 1
  {
  }

  lemma StopPostWakes(s: State)
    requires Sound(AfterStopPost(s)) && AfterStopPost(s).sem == s.sem + 1
    ensures WakeInv(AfterStopPost(s))
  {
    hide AfterStopPost;
  }

  lemma StepInv(s: State, step: Step)
    requires Inv(s) && Enabled(s, step)
    ensures Inv(Do(s, step))
  {
    hide Inv;
    match step
    case Enter => PointInv(s, Entered, s.resend);
    case Claim => PointInv(s, Inside(s.resend), false);
    case Leave => PointInv(s, Ready, s.resend);
    case OtherClaim => OtherClaimInv(s);
    case Begin(m, more) => PointInv(s, Checking(m, more), s.resend);
    case CheckFree => CheckFreeInv(s);
    case Wake => WakeInvariant(s);
    case Store(i) => StoreInv(s, i);
    case Commit => CommitInv(s);
    case Connect(fd) => ConnectInv(s, fd);
    case Snapshot => SnapshotInv(s);
    case Copy => CopyInv(s);
    case Return => ReturnInv(s);
    case Post => PostInv(s);
    case Stop => StopInv(s);
    case StopLoad => StopLoadInv(s);
    case StopStore => StopStoreInv(s);
    case StopPost => StopPostInv(s);
    case Start(again) => StartInv(s, again);
    case Raise => RaiseInv(s);
  }

  // ------------------------------------------------------- what a call may do

  predicate WithoutStart(steps: seq<Step>) {
    forall i :: 0 <= i < |steps| ==> !steps[i].Start?
  }

  lemma SilentStep(s: State, step: Step)
    requires Enabled(s, step) && !step.Start? && !s.capturing && s.producer == Ready
    ensures var u := Do(s, step); !u.capturing && u.producer == Ready && u.log == s.log
  {
    hide RingFrame, Used, Free, Reserved, Drops, Pos, Sendable, Listed;
  }

  /** With the capture off and no call under way nothing is written before the next start. */
  lemma {:induction false} SilentWithoutCapture(s: State, steps: seq<Step>, t: State)
    requires !s.capturing && s.producer == Ready && Run(s, steps, t) && WithoutStart(steps)
    ensures t.log == s.log && t.producer == Ready
    decreases |steps|
  {
    if steps != [] {
      SilentStep(s, steps[0]);
      hide Enabled, Do;
      SilentWithoutCapture(Do(s, steps[0]), steps[1..], t);
    }
  }

  /** The flag is down and stays down, and no saved entries are being sent again. */
  predicate Plain(s: State) {
    && !s.resend && !s.sender.Raising?
    && (s.producer.Inside? ==> !s.producer.resend)
    && (s.producer.Checking? || s.producer.Blocked? || s.producer.Writing? ==> !s.producer.more)
  }

  function UnderWay(s: State): nat {
    if s.producer == Ready then 0 else 1
  }

  function Calls(steps: seq<Step>): nat {
    if steps == [] then 0 else (if steps[0] == Enter then 1 else 0) + Calls(steps[1..])
  }

  lemma PlainStep(s: State, step: Step)
    requires Enabled(s, step) && !step.Start? && Plain(s)
    ensures var u := Do(s, step);
            Plain(u) && |u.log| + UnderWay(u) <= |s.log| + UnderWay(s) + if step == Enter then 1 else 0
  {
    StaysPlain(s, step);
    hide RingFrame, Used, Free, Reserved, Drops, Pos, Sendable, Listed, AllStored, Plain;
  }

  lemma StaysPlain(s: State, step: Step)
    requires Enabled(s, step) && !step.Start? && Plain(s)
    ensures Plain(Do(s, step))
    ensures step == Commit ==> !s.producer.more
  {
    hide RingFrame, Used, Free, Reserved, Drops, Pos, Sendable, Listed, AllStored;
  }

  lemma {:induction false} PlainRun(s: State, steps: seq<Step>, t: State)
    requires Plain(s) && Run(s, steps, t) && WithoutStart(steps)
    ensures |t.log| + UnderWay(t) <= |s.log| + UnderWay(s) + Calls(steps)
    decreases |steps|
  {
    if steps != [] {
      PlainStep(s, steps[0]);
      hide Enabled, Do, Plain, UnderWay;
      PlainRun(Do(s, steps[0]), steps[1..], t);
    }
  }

  /** Until the flag is raised no call commits more than one frame. */
  lemma OneFrameEach(s: State, steps: seq<Step>, t: State)
    requires Initial(s) && Run(s, steps, t) && WithoutStart(steps)
    ensures |t.log| <= Calls(steps)
  {
    PlainRun(s, steps, t);
  }

  /** Nor does one after another thread has taken the flag down. */
  lemma OneFrameAfterOther(s: State, steps: seq<Step>, t: State)
    requires s.producer == Ready && !s.sender.Raising? && Enabled(s, OtherClaim)
    requires Run(Do(s, OtherClaim), steps, t) && WithoutStart(steps)
    ensures |t.log| <= |s.log| + Calls(steps)
  {
    PlainRun(Do(s, OtherClaim), steps, t);
  }

  /** A call that leaves the library, its message being too large, commits nothing any more. */
  lemma NothingBehindLeave(s: State, steps: seq<Step>, t: State)
    requires Plain(s) && Enabled(s, Leave) && Run(Do(s, Leave), steps, t) && WithoutStart(steps)
    ensures |t.log| <= |s.log| + Calls(steps)
  {
    PlainRun(Do(s, Leave), steps, t);
  }
}
