// The thread record of the library: the ring with its two positions, the
// out-of-band image, the connection, and the functions that work on them in
// place. A method that emits a message starts where gator_get_thread has returned
// the thread; while it waits the sender takes its turns.

module Gator {
  import opened Bytes
  import opened Ring
  import opened Messages
  import opened Drafts
  import opened Layouts
  import Images
  import Reservations
  import Sending
  import Turns
  import Writers

  /** The shared fields of gator_state. */
  class GatorState {
    var senderSem: nat
    var capturing: bool
    var resendState: bool

    constructor ()
      ensures senderSem == 0 && capturing && !resendState
    {
      senderSem, capturing, resendState := 0, true, false;
    }

    /** Capture that was off comes on with a pending resend of the saved state; capture that was on is left alone. */
    method StartCapturing()
      modifies this
      ensures capturing && senderSem == old(senderSem)
      ensures resendState == (old(resendState) || !old(capturing))
    {
      if !capturing {
        capturing := true;
        resendState := true;
      }
    }
  }

  /** What the other side makes of the n-th connection attempt and of the n-th turn's send calls. */
  datatype Peer = Peer(connects: nat -> int, answers: nat -> Sending.Socket) {
    /** An image of k bytes is accepted in one piece, whenever it is sent. */
    ghost predicate TakesWhole(k: nat) {
      forall n: nat :: answers(n).oob >= k
    }
  }

  /** What the store of an image finds: the read position and the point of the sender in its turn. */
  datatype Stage = Stage(read: nat, point: Images.Point)

  type place = x: nat | x < SIZE witness 0

  /** What a call finds. */
  datatype Before = Before(ring: slots, start: place, read: place, capturing: bool, posts: nat, tokens: nat) {
    function Queue(): seq<byte> {
      Unread(ring, read, start)
    }

    /** The reserved space is there without waiting. */
    predicate Room(m: Message) {
      Reserved(m) <= Free(read, start)
    }

    /** The least number of posts for the sender in a wait: one before each token is used up, one before the next. */
    function WaitPosts(m: Message): nat {
      if Room(m) then 0 else tokens + 1
    }
  }

  class GatorThread {
    const buf: array<byte>
    const gator: GatorState
    const tid: int
    var writePos: nat
    var readPos: nat
    var oobData: seq<byte>
    var oobLength: nat
    var sem: nat
    var fd: int
    var exited: bool

    constructor (gator: GatorState, tid: int)
      ensures Valid() && fresh(buf) && this.gator == gator
      ensures Contents() == [] && Oob() == [] && fd < 0 && sem == 0 && !exited
    {
      buf := new byte[SIZE];
      this.gator, this.tid := gator, tid;
      writePos, readPos := 0, 0;
      oobData, oobLength := [], 0;
      sem, fd, exited := 0, -1, false;
    }

    ghost predicate InRing()
      reads this`writePos, this`readPos
    {
      buf.Length == SIZE && writePos < SIZE && readPos < SIZE
    }

    ghost predicate Valid()
      reads this`writePos, this`readPos, this`oobData, this`oobLength
    {
      InRing() && oobLength <= |oobData|
    }

    /** The published bytes that the sender has not sent yet. */
    ghost function Contents(): seq<byte>
      requires InRing()
      reads this`writePos, this`readPos, buf
    {
      Unread(buf[..], readPos, writePos)
    }

    /** The image bytes that the sender has not sent yet. */
    ghost function Oob(): seq<byte>
      requires Valid()
      reads this`writePos, this`readPos, this`oobData, this`oobLength
    {
      oobData[..oobLength]
    }

    /** Between two calls there is no image waiting. */
    ghost predicate Ready()
      reads this`oobLength
    {
      oobLength == 0
    }

    ghost function Snapshot(): Before
      requires Valid()
      reads this, buf, gator
    {
      Before(buf[..], writePos, readPos, gator.capturing, gator.senderSem, sem)
    }

    /**
      * What a call that emits m leaves of the state b it found. If m is let
      * through, the call gets past its wait loop exactly when the capture was on
      * or the reserved space was there; else it waits for a start of the capture.
      */
    ghost predicate Called(m: Message, released: bool, sent: seq<byte>, b: Before)
      requires Valid()
      reads this, buf, gator
    {
      if !Accepted(m) then released && Untouched(sent, b) && gator.senderSem == b.posts
      else if !released then
        !b.capturing && !b.Room(m) && Untouched(sent, b) && gator.senderSem == b.posts + b.WaitPosts(m)
      else
        && Waited(m, sent, b) && Published(m, b.ring, b.start) && Woken(m, b)
        // to the sender the whole call is one append to the byte queue
        && (|RingFrame(m)| <= Free(readPos, b.start) && gator.capturing == b.capturing ==>
              sent + Contents() == b.Queue() + RingFrame(m))
    }

    ghost predicate Untouched(sent: seq<byte>, b: Before)
      reads this, buf, gator
    {
      && sent == [] && buf[..] == b.ring && writePos == b.start && readPos == b.read
      && gator.capturing == b.capturing
    }

    /** The wait loop is over: the reserved space is there, and what the sender took meanwhile came off the queue. */
    ghost predicate Waited(m: Message, sent: seq<byte>, b: Before)
      reads this`readPos, gator`capturing
    {
      && readPos < SIZE && (b.capturing || b.Room(m)) && Reserved(m) <= Free(readPos, b.start)
      && (b.Room(m) ==> sent == [] && readPos == b.read && gator.capturing == b.capturing)
      && (gator.capturing == b.capturing ==> sent + Unread(b.ring, readPos, b.start) == b.Queue())
      && (gator.capturing != b.capturing ==> b.capturing && readPos == b.start)
    }

    /** gator_msg_end wakes the sender when the ring is three quarters full; every round of a wait wakes it first. */
    ghost predicate Woken(m: Message, b: Before)
      requires Valid()
      reads this, gator
    {
      var wake := if Used(readPos, writePos) >= 3 * SIZE / 4 then 1 else 0;
      gator.senderSem >= b.posts + b.WaitPosts(m) + wake && (b.Room(m) ==> gator.senderSem == b.posts + wake)
    }

    /** The frame of m lies behind `start`; that is one append to the byte queue exactly when the frame fits. */
    ghost predicate Published(m: Message, ring: slots, start: nat)
      requires InRing() && start < SIZE
      reads this`writePos, this`readPos, buf
    {
      && |RingFrame(m)| <= SIZE
      && buf[..] == Put(ring, start, RingFrame(m))
      && writePos == Pos(start + |RingFrame(m)|)
      && (Contents() == Unread(ring, readPos, start) + RingFrame(m) <==> |RingFrame(m)| <= Free(readPos, start))
    }

    /** The header is in place; next and sizePos are where the payload and the length go. */
    method MsgBegin(header: byte) returns (next: nat, sizePos: nat, length: nat, ghost d: Draft)
      requires Valid()
      modifies buf
      ensures d == Draft(old(buf[..]), writePos, header, [])
      ensures buf.Length == SIZE && Holds(d, buf, next, length) && length == 0
      ensures sizePos == Pos(writePos + 1)
    {
      var n: nat;
      d := Begin(buf[..], writePos, header);
      next, n := Writers.WriteByte(buf, writePos, header);
      sizePos := next;
      next := Pos(next + 4);
      length := 0;
    }

    /** The length is patched in and the write position published. */
    method Publish(next: nat, sizePos: nat, length: u32, ghost payload: nat, ghost d: Draft, ghost m: Message)
      requires Valid() && Holds(d, buf, next, payload)
      requires d.start == writePos && d.header == Header(m) && d.fields == Fields(m)
      requires sizePos == Pos(writePos + 1) && length == (payload + |Image(m)|) % 0x1_0000_0000
      modifies this`writePos, buf
      ensures |d.base| == SIZE && Valid() && Published(m, d.base, d.start)
    {
      hide Put, Holds, Fields, Header, RingFrame, Image, Uint32Bytes, Used, Pos, LengthField, Unread;
      CloseHeld(d, buf, next, payload, m);
      CommitIsAppendIff(d.base, readPos, d.start, RingFrame(m));
      var unused, n := Writers.WriteUint32(buf, sizePos, length);
      writePos := next;
    }

    method MsgEnd(next: nat, sizePos: nat, length: nat, ghost d: Draft, ghost m: Message,
                  ghost sent: seq<byte>, ghost b: Before)
      requires Valid() && Ready() && Holds(d, buf, next, length)
      requires d.start == writePos && d.header == Header(m) && d.fields == Fields(m) && Image(m) == []
      requires sizePos == Pos(writePos + 1)
      requires d.base == b.ring && d.start == b.start && Accepted(m) && Waited(m, sent, b)
      requires gator.senderSem >= b.posts + b.WaitPosts(m) && (b.Room(m) ==> gator.senderSem == b.posts)
      modifies this`writePos, buf, gator`senderSem
      ensures Valid() && Ready() && Called(m, true, sent, b)
    {
      hide Called, Published, Waited, Holds, Fields, Header, Image, Accepted, Put;
      ShortPayload(d, buf, next, length);
      Publish(next, sizePos, length, length, d, m);
      if Used(readPos, writePos) >= 3 * SIZE / 4 {
        gator.senderSem := gator.senderSem + 1;
      }
      Conclude(m, sent, b);
    }

    lemma Conclude(m: Message, sent: seq<byte>, b: Before)
      requires Valid() && Ready() && Accepted(m) && Waited(m, sent, b) && Published(m, b.ring, b.start) && Woken(m, b)
      ensures Called(m, true, sent, b)
    {
      hide RingFrame, Put, Unread, Reserved, Woken;
      Associative(sent, Unread(b.ring, readPos, b.start), RingFrame(m));
    }

    /** gator_buf_wait_bytes: the size check and the wait. */
    method Reserve(sum: nat, peer: Peer, ghost m: Message, ghost b: Before)
      returns (go: bool, released: bool, sent: seq<byte>)
      requires Valid() && Ready() && b == Snapshot() && Sum(m) == sum && Safe(m)
      modifies this, gator
      ensures Valid() && Ready() && b.ring == buf[..] && b.start == writePos == old(writePos)
      ensures go ==>
                && released && sum <= SIZE / 2 == 0x8000 && Accepted(m) && Waited(m, sent, b)
                && gator.senderSem >= b.posts + b.WaitPosts(m) && (b.Room(m) ==> gator.senderSem == b.posts)
      ensures !go ==> Called(m, released, sent, b) && (released ==> !Accepted(m))
      ensures go && b.Room(m) ==>
                readPos == old(readPos) && fd == old(fd) && sem == old(sem) && gator.capturing == old(gator.capturing)
    {
      hide Sum, Unread, RingFrame, Published, Woken, Used;
      var bytes := sum % 0x1_0000_0000;
      if bytes > SIZE / 2 {
        return false, true, [];
      }
      hide Called, Waited, Accepted, Safe, Free;
      assert b.ring == buf[..] && b.start == writePos && b.read == readPos;
      var turns: nat;
      released, sent, turns := WaitBytes(bytes, peer);
      go := released;
      if go {
        WaitOver(m, sent, b);
      } else {
        WaitInVain(m, sent, b);
      }
    }

    lemma WaitOver(m: Message, sent: seq<byte>, b: Before)
      requires InRing() && b.start == writePos && b.ring == buf[..] && Reserved(m) <= Free(readPos, writePos)
      requires b.capturing || b.Room(m)
      requires b.Room(m) ==> sent == [] && readPos == b.read && gator.capturing == b.capturing
      requires gator.capturing == b.capturing ==> sent + Contents() == b.Queue()
      requires gator.capturing != b.capturing ==> b.capturing && readPos == writePos
      ensures Waited(m, sent, b)
    {
      hide Unread, Free, Reserved;
    }

    lemma WaitInVain(m: Message, sent: seq<byte>, b: Before)
      requires Valid() && Accepted(m) && !b.capturing && !b.Room(m) && Untouched(sent, b)
      requires gator.senderSem == b.posts + b.tokens + 1
      ensures Called(m, false, sent, b)
    {
    }

    /** What the sender works on, at point p of its turn. */
    ghost function ViewAt(p: Images.Point): Turns.View
      reads this`readPos, this`fd, this`sem, gator`capturing
    {
      Turns.View(readPos, fd, sem, gator.capturing, p)
    }

    lemma ViewIs(p: Images.Point)
      ensures ViewAt(p) == Turns.View(readPos, fd, sem, gator.capturing, p)
    {
    }

    /**
      * __gator_buf_wait_bytes with the sender as its environment: whenever the
      * semaphore is down and the capture on, the sender takes a turn, the n-th
      * with whatever connection and whatever socket `peer` says. The loop ends with
      * the space there exactly when the capture was on or the space was there;
      * else, with the last token used up, nobody posts the semaphore any more. It
      * ends as soon as the space is there, after `turns` whole turns, and it has
      * woken the sender before every wait on the semaphore.
      */
    method WaitBytes(bytes: nat, peer: Peer) returns (released: bool, sent: seq<byte>, turns: nat)
      requires Valid() && Ready() && bytes <= SIZE / 2
      modifies this, gator
      ensures Valid() && Ready() && writePos == old(writePos)
      ensures released <==> old(gator.capturing) || bytes <= Free(old(readPos), writePos)
      ensures released ==> bytes <= Free(readPos, writePos)
      ensures !released ==> sem == 0 && !gator.capturing && sent == [] && readPos == old(readPos)
      ensures gator.capturing == old(gator.capturing) ==> sent + Contents() == old(Contents())
      ensures gator.capturing != old(gator.capturing) ==> old(gator.capturing) && readPos == writePos
      ensures var m := Turns.After(buf[..], writePos, old(ViewAt(Images.Away)), peer.connects, peer.answers, turns);
              m.bytes == sent && m.view.(sem := sem) == ViewAt(Images.Away)
      ensures Turns.ShortBefore(buf[..], writePos, old(ViewAt(Images.Away)), peer.connects, peer.answers, turns, bytes)
      ensures gator.senderSem ==
              old(gator.senderSem)
              + if bytes <= Free(old(readPos), writePos) then 0
                else old(sem) + if released then turns else 1
      ensures bytes <= Free(old(readPos), writePos) ==> turns == 0 && sem == old(sem)
      ensures bytes > Free(old(readPos), writePos) ==> sem == 0 && (released ==> turns > 0)
    {
      hide Unread, Turns.Turned, Turns.After, Turns.ShortBefore;
      released, sent, turns := true, [], 0;
      ghost var before, view := Contents(), ViewAt(Images.Away);
      assert sent + before == before;
      Turns.NoneAfter(buf[..], writePos, view, peer.connects, peer.answers);
      Turns.ShortOnce(buf[..], writePos, view, peer.connects, peer.answers, 0, bytes);
      while Free(readPos, writePos) < bytes
        invariant Valid() && Ready() && writePos == old(writePos)
        invariant gator.capturing == old(gator.capturing) ==> sent + Contents() == before
        invariant gator.capturing != old(gator.capturing) ==> old(gator.capturing) && readPos == writePos
        invariant !old(gator.capturing) ==> turns == 0
        invariant Turns.After(buf[..], writePos, view, peer.connects, peer.answers, turns)
                  == Turns.Moved(ViewAt(Images.Away).(sem := view.sem + turns), sent)
        invariant Turns.ShortBefore(buf[..], writePos, view, peer.connects, peer.answers, turns, bytes)
        invariant turns == 0 ==> readPos == old(readPos)
        invariant gator.senderSem + sem == old(gator.senderSem) + view.sem + turns
        invariant turns > 0 ==> sem == 0
        invariant bytes <= Free(old(readPos), writePos) ==> turns == 0 && sem == view.sem
        decreases Used(readPos, writePos), sem
      {
        gator.senderSem := gator.senderSem + 1;
        if sem == 0 {
          if !gator.capturing {
            released := false;
            return;
          }
          Turns.ShortOnce(buf[..], writePos, view, peer.connects, peer.answers, turns, bytes);
          var taken := WaitTurn(peer, turns, sent, before, view);
          turns := turns + 1;
          sent := sent + taken;
        }
        sem := sem - 1;
      }
    }

    /** One turn of the sender while a producer waits for space. */
    method WaitTurn(peer: Peer, n: nat, ghost sent: seq<byte>, ghost before: seq<byte>, ghost view: Turns.View)
      returns (taken: seq<byte>)
      requires Valid() && Ready() && gator.capturing && readPos != writePos && sent + Contents() == before
      requires view.read < SIZE
      requires Turns.After(buf[..], writePos, view, peer.connects, peer.answers, n)
               == Turns.Moved(ViewAt(Images.Away).(sem := view.sem + n), sent)
      modifies this, gator`capturing
      ensures Valid() && Ready() && writePos == old(writePos) && sem == old(sem) + 1
      ensures Used(readPos, writePos) < Used(old(readPos), writePos)
      ensures gator.capturing ==> sent + taken + Contents() == before
      ensures !gator.capturing ==> readPos == writePos
      ensures Turns.After(buf[..], writePos, view, peer.connects, peer.answers, n + 1)
              == Turns.Moved(ViewAt(Images.Away).(sem := view.sem + n + 1), sent + taken)
    {
      hide Unread, Sending.Send, Sending.SendOob;
      Sending.NoImage(buf[..], readPos, writePos, peer.answers(n));
      assert Oob() == [];
      taken := SenderTurn(gator, [this], 0, peer.connects(n), peer.answers(n));
      if gator.capturing {
        Associative(sent, taken, Contents());
        assert taken + Contents() + [] == taken + Contents();
      }
      NothingUnread(buf[..], readPos, writePos);
    }

    // The steps of the sender one by one, while there is no image.

    /**
      * One step of the sender in its turn for this thread: connect and load
      * write_pos, test for work, send on from the read position, send on from slot
      * 0, or post. Whatever has been committed since the load, the bytes go out in
      * order. The step is the one of Turns.
      */
    method Step(p: Images.Point, act: Turns.Act) returns (next: Images.Point, sent: seq<byte>)
      requires Valid() && Ready() && gator.capturing && Images.Running(p, readPos, writePos)
      modifies this, gator`capturing
      ensures Valid() && Ready() && Images.Running(next, readPos, writePos) && writePos == old(writePos)
      ensures Turns.Stepped(buf[..], writePos, old(ViewAt(p)), act) == Turns.Moved(ViewAt(next), sent)
      ensures gator.capturing ==> sent + Contents() == old(Contents())
      ensures Free(readPos, writePos) >= Free(old(readPos), writePos)
      ensures !gator.capturing ==> next == Images.Away
    {
      hide Unread, Slice;
      var failed := false;
      sent, next := [], Images.Away;
      assert [] + Contents() == Contents();
      match p {
        case Away =>
          if fd < 0 {
            fd := act.connected;
          }
          failed := fd < 0;
          next := Images.Loaded(writePos);
        case Loaded(v) =>
          if v != readPos || oobLength > 0 {
            next := Images.Begun(v);
          }
        case Begun(v) =>
          failed, sent, next := SendOn(v, act);
        case Second(v) =>
          failed, sent, next := SendSecond(v, act);
        case Sent(_) =>
          sem := sem + 1;
      }
      if failed {
        next := Images.Away;
        StopCapturing(gator, [this]);
        NothingUnread(buf[..], readPos, writePos);
      }
    }

    /** The send from the read position on, up to the copy v or the end of the ring. */
    method SendOn(v: nat, act: Turns.Act) returns (failed: bool, sent: seq<byte>, next: Images.Point)
      requires Valid() && Ready() && Images.Running(Images.Begun(v), readPos, writePos)
      modifies this`readPos
      ensures Turns.Stepped(buf[..], writePos, old(ViewAt(Images.Begun(v))), act)
              == Turns.Moved(if failed then Turns.Halted(ViewAt(next), writePos) else ViewAt(next), sent)
      ensures failed ==> readPos == old(readPos)
      ensures Valid() && Images.Running(next, readPos, writePos)
      ensures sent + Contents() == old(Contents())
      ensures Free(readPos, writePos) >= Free(old(readPos), writePos)
    {
      hide Unread, Slice;
      var write := if v > readPos then v - readPos else SIZE - readPos;
      var bytes := Sending.Accepted(act.socket.first, write);
      if bytes <= 0 {
        assert [] + Contents() == Contents();
        return true, [], Images.Away;
      }
      sent := buf[readPos..readPos + bytes];
      Images.FollowsRunning(readPos, v, writePos, bytes);
      hide Used, Free, Pos, Images.Running;
      Sending.FlatSlice(buf[..], readPos, bytes);
      ConsumeIsDrop(buf[..], readPos, writePos, bytes);
      next := if v > readPos then Images.Sent(bytes == write)
              else if bytes == write then Images.Second(v)
              else Images.Sent(false);
      readPos := Pos(readPos + bytes);
      failed := false;
    }

    /** The send from slot 0 on. */
    method SendSecond(v: nat, act: Turns.Act) returns (failed: bool, sent: seq<byte>, next: Images.Point)
      requires Valid() && Ready() && Images.Running(Images.Second(v), readPos, writePos)
      modifies this`readPos
      ensures Turns.Stepped(buf[..], writePos, old(ViewAt(Images.Second(v))), act)
              == Turns.Moved(if failed then Turns.Halted(ViewAt(next), writePos) else ViewAt(next), sent)
      ensures failed ==> readPos == old(readPos)
      ensures Valid() && Images.Running(next, readPos, writePos)
      ensures sent + Contents() == old(Contents())
      ensures Free(readPos, writePos) >= Free(old(readPos), writePos)
    {
      hide Unread, Slice;
      var bytes := Sending.Accepted(act.socket.second, v);
      if bytes <= 0 {
        assert [] + Contents() == Contents();
        return true, [], Images.Away;
      }
      sent := buf[..bytes];
      Sending.FlatSlice(buf[..], 0, bytes);
      ConsumeIsDrop(buf[..], 0, writePos, bytes);
      assert buf[..][0..0 + bytes] == sent;
      readPos := Pos(readPos + bytes);
      failed, next := false, Images.Sent(bytes == v);
    }

    /** The steps of the sender one after the other; they end when the capture does. */
    method Steps(p: Images.Point, acts: seq<Turns.Act>) returns (next: Images.Point, sent: seq<byte>)
      requires Valid() && Ready() && gator.capturing && Images.Running(p, readPos, writePos)
      modifies this, gator`capturing
      ensures Valid() && Ready() && Images.Running(next, readPos, writePos) && writePos == old(writePos)
      ensures gator.capturing ==> sent + Contents() == old(Contents())
      ensures Free(readPos, writePos) >= Free(old(readPos), writePos)
      ensures !gator.capturing ==> next == Images.Away
      ensures Turns.SteppedAll(buf[..], writePos, old(ViewAt(p)), acts) == Turns.Moved(ViewAt(next), sent)
      ensures acts == [] ==> next == p && sent == [] && readPos == old(readPos) && gator.capturing
    {
      hide Unread, Images.Running, Turns.Stepped;
      next, sent := p, [];
      assert [] + Contents() == Contents();
      RunningIsProper(p);
      ghost var total := Turns.SteppedAll(buf[..], writePos, ViewAt(p), acts);
      Turns.BehindNothing(total);
      assert acts[0..] == acts;
      for i := 0 to |acts|
        invariant InRing() && ViewAt(next).Proper()
        invariant total == Turns.SteppedAll(buf[..], writePos, ViewAt(next), acts[i..]).Behind(sent)
        invariant Valid() && Ready() && Images.Running(next, readPos, writePos) && writePos == old(writePos)
        invariant gator.capturing ==> sent + Contents() == old(Contents())
        invariant Free(readPos, writePos) >= Free(old(readPos), writePos)
        invariant !gator.capturing ==> next == Images.Away
        invariant i == 0 ==> next == p && sent == [] && readPos == old(readPos) && gator.capturing
      {
        Turns.StepOn(buf[..], writePos, ViewAt(next), acts[i..], sent);
        assert acts[i..][1..] == acts[i + 1..];
        if gator.capturing {
          var taken;
          next, taken := Step(next, acts[i]);
          RunningIsProper(next);
          if gator.capturing {
            Associative(sent, taken, Contents());
          }
          sent := sent + taken;
        }
      }
      Turns.StepsOver(buf[..], writePos, ViewAt(next), acts[|acts|..], sent);
    }

    lemma RunningIsProper(p: Images.Point)
      requires InRing() && Images.Running(p, readPos, writePos)
      ensures ViewAt(p).Proper()
    {
    }

    /**
      * What gator_annotate_visual leaves, with the sender at the stage `at` when the
      * image was stored. The call returns when the image is gone. With the capture
      * still on, the whole message has then gone out behind the queue if the sender
      * came to the image just when all of the ring was sent and the socket took it
      * in one piece. Else too much has gone out, or image bytes have gone ahead of
      * the header, which is still in the ring if the image went in one piece.
      */
    ghost predicate VisualCalled(m: Message, released: bool, sent: seq<byte>, b: Before, at: Stage,
                                 last: Sending.Socket, viewer: Peer)
      requires m.Visual? && Valid()
      reads this, buf, gator
    {
      if !Accepted(m) then released && Untouched(sent, b) && Oob() == [] && gator.senderSem == b.posts
      else if !b.capturing && !b.Room(m) then
        !released && Untouched(sent, b) && Oob() == [] && gator.senderSem == b.posts + b.WaitPosts(m)
      else
        // the sender is woken before every wait, for space and for the image
        && gator.senderSem >= b.posts + b.WaitPosts(m) + (if m.image != [] && at.point == Images.Away then 1 else 0)
        && |RingFrame(m)| <= SIZE && buf[..] == Put(b.ring, b.start, RingFrame(m))
        && writePos == Pos(b.start + |RingFrame(m)|)
        && (released ==> Oob() == [])
        // the capture was off before the image was offered: nobody takes it
        && (!released ==> !gator.capturing && Oob() == m.image != [])
        && (!b.capturing && m.image != [] ==> !released)
        && (gator.capturing ==>
              && released
              && (m.image == [] ==> sent + Contents() == b.Queue() + Frame(m))
              && (m.image != [] ==> Delivered(m, sent, b, at, last, viewer)))
    }

    ghost predicate Delivered(m: Message, sent: seq<byte>, b: Before, at: Stage, last: Sending.Socket, viewer: Peer)
      requires m.Visual? && InRing()
      reads this`writePos, this`readPos, buf
    {
      && at.read < SIZE && Images.May(at.point, at.read, writePos)
      && (if Images.InOrder(buf[..], at.read, writePos, at.point, |m.image|, last, viewer.answers) then
            sent == b.Queue() + Frame(m) && Contents() == []
          else if Images.Early(buf[..], at.read, writePos, at.point, last) then
            last.oob >= |m.image| ==> Contents() != []
          else
            |sent| > |b.Queue() + Frame(m)|)
    }

    /** The sender, at v when the call began, has taken the early steps, and those between commit and store. */
    ghost predicate Staged(at: Stage, v: Turns.View, ring: slots, start: nat, early: seq<Turns.Act>,
                           between: seq<Turns.Act>)
      requires InRing()
      reads this`writePos, this`readPos, buf
    {
      && start < SIZE && v.Proper()
      && var u := Turns.SteppedAll(buf[..], writePos, Turns.SteppedAll(ring, start, v, early).view, between).view;
         at == Stage(u.read, u.at)
    }

    lemma StagedAt(at: Stage, v: Turns.View, ring: slots, start: nat, early: seq<Turns.Act>, between: seq<Turns.Act>)
      requires InRing() && start < SIZE && v.Proper()
      requires var u := Turns.SteppedAll(buf[..], writePos, Turns.SteppedAll(ring, start, v, early).view, between).view;
               at == Stage(u.read, u.at)
      ensures Staged(at, v, ring, start, early, between)
    {
    }

    /**
      * The sender may be in the middle of a turn when the call begins (`under`; a
      * wait for space sees the end of it). It may take any steps before the commit
      * of the header (`early`) and between the commit and the store of the image
      * (`between`), and be at any point of a turn then; `last` answers the rest of
      * that turn.
      */
    method AnnotateVisual(time: u64, image: seq<byte>, str: cstring, peer: Peer, under: Images.Point,
                          early: seq<Turns.Act>, between: seq<Turns.Act>, last: Sending.Socket, viewer: Peer)
      returns (released: bool, sent: seq<byte>, at: Stage)
      requires Valid() && Ready() && Safe(Visual(time, str, image)) && |image| < 0x1_0000_0000
      requires Images.Running(under, readPos, writePos)
      modifies this, buf, gator
      ensures Valid()
      ensures VisualCalled(Visual(time, str, image), released, sent, old(Snapshot()), at, last, viewer)
      // without a wait for space the store of the image finds the sender behind these very steps
      ensures Accepted(Visual(time, str, image)) && old(Snapshot()).Room(Visual(time, str, image)) ==>
                Staged(at, old(ViewAt(if gator.capturing then under else Images.Away)),
                       old(buf[..]), old(writePos), early, between)
      // undisturbed and taken in one piece, the whole message is delivered
      ensures Accepted(Visual(time, str, image)) && under == Images.Away && early == between == []
              && viewer.TakesWhole(|image|)
              && gator.capturing && released && image != [] ==>
                sent == old(Snapshot()).Queue() + Frame(Visual(time, str, image)) && Contents() == []
    {
      hide *;
      ghost var b := Snapshot();
      ghost var m := Visual(time, str, image);
      VisualLayout(time, str, image);
      at := Stage(0, Images.Away);
      ViewIs(if gator.capturing then under else Images.Away);
      var r, go := readPos, false;
      go, released, sent := Reserve(1 + 4 + 10 + |str| + 1, peer, m, b);
      if !go {
        NothingShown(m, released, sent, b, at, last, viewer);
        return;
      }
      var p := if readPos == r && gator.capturing then under else Images.Away;
      ViewIs(p);
      ghost var v, w := ViewAt(p), writePos;
      p, sent := EarlySteps(p, early, sent, m, b);
      WriteVisual(time, image, str, m, b);
      released, sent, at := ShowImage(image, between, last, viewer, p, sent, m, b);
      StagedAt(at, v, b.ring, w, early, between);
      if under == Images.Away && early == between == [] && viewer.TakesWhole(|image|)
         && gator.capturing && released && image != [] {
        CalledIsDelivered(m, sent, b, at, last, viewer);
        Undisturbed(m, sent, b, at, last, viewer);
      }
    }

    /** The first part of the message: everything but the image, whose size is part of the length. */
    method WriteVisual(time: u64, image: seq<byte>, str: cstring, ghost m: Message, ghost b: Before)
      requires Valid() && m == Visual(time, str, image) && |image| < 0x1_0000_0000
      requires 1 + 4 + 10 + |str| + 1 <= SIZE / 2
      requires b.ring == buf[..] && b.start == writePos
      modifies this`writePos, buf
      ensures Valid() && Published(m, b.ring, b.start)
    {
      hide *;
      VisualLayout(time, str, image);
      var next, size, length, d := MsgBegin(0x05);
      next, length, d := AddLong(buf, next, length, AsInt64(time), d);
      next, length, d := AddText(buf, next, length, str, d);
      next, length, d := AddNul(buf, next, length, d);
      Publish(next, size, (length + |image|) % 0x1_0000_0000, length, d, m);
    }

    lemma NothingShown(m: Message, released: bool, sent: seq<byte>, b: Before, at: Stage, last: Sending.Socket,
                       viewer: Peer)
      requires m.Visual? && Valid() && Ready() && Called(m, released, sent, b) && (released ==> !Accepted(m))
      ensures VisualCalled(m, released, sent, b, at, last, viewer)
      ensures released || !b.Room(m)
    {
      hide Published, Waited, Woken, RingFrame, Accepted, Delivered;
    }

    lemma VisualFits(m: Message)
      requires m.Visual? && Accepted(m) && Safe(m)
      ensures 0 < |RingFrame(m)| <= Reserved(m)
    {
      Reservations.ReservationSuffices(m);
    }

    /** The space is there, and what the sender took so far came off the queue. */
    ghost predicate Pending(m: Message, sent: seq<byte>, b: Before)
      reads this`readPos, gator`capturing
    {
      && readPos < SIZE && (b.capturing || b.Room(m)) && Reserved(m) <= Free(readPos, b.start)
      && (gator.capturing ==> b.capturing && sent + Unread(b.ring, readPos, b.start) == b.Queue())
    }

    method EarlySteps(under: Images.Point, acts: seq<Turns.Act>, before: seq<byte>, ghost m: Message, ghost b: Before)
      returns (p: Images.Point, sent: seq<byte>)
      requires Valid() && Ready() && b.ring == buf[..] && b.start == writePos && Waited(m, before, b)
      requires under == Images.Away || (gator.capturing && Images.Running(under, readPos, writePos))
      modifies this, gator`capturing
      ensures Valid() && Ready() && writePos == old(writePos)
      ensures Images.Running(p, readPos, writePos) && Pending(m, sent, b)
      ensures !gator.capturing ==> p == Images.Away
      ensures old(ViewAt(under)).Proper()
      ensures Turns.SteppedAll(buf[..], writePos, old(ViewAt(under)), acts).view == ViewAt(p)
      ensures acts == [] ==> p == under && (b.Room(m) ==> readPos == b.read)
    {
      hide Unread, Reserved, Used, Free;
      p, sent := under, before;
      UnderIsProper(under);
      if gator.capturing {
        var taken;
        ghost var was := Contents();
        p, taken := Steps(p, acts);
        if gator.capturing {
          Associative(before, taken, Contents());
        }
        sent := before + taken;
      }
    }

    lemma UnderIsProper(p: Images.Point)
      requires InRing() && (p == Images.Away || Images.Running(p, readPos, writePos))
      ensures ViewAt(p).Proper()
    {
    }

    /** The committed frame is an append to the queue that the sender may have shortened meanwhile. */
    lemma VisualCommitted(m: Message, p: Images.Point, sent: seq<byte>, b: Before)
      requires Valid() && m.Visual? && Accepted(m) && Safe(m) && readPos < SIZE && Images.Running(p, readPos, b.start)
      requires Pending(m, sent, b) && Published(m, b.ring, b.start)
      ensures gator.capturing ==> sent + Contents() == b.Queue() + RingFrame(m)
      ensures readPos != writePos && Images.Running(p, readPos, writePos)
    {
      VisualFits(m);
      CommitMovesOn(readPos, b.start, |RingFrame(m)|);
      PointStays(p, readPos, b.start, |RingFrame(m)|);
      hide RingFrame, Put, Unread, Used, Free, Pos, Reserved, Accepted, Safe;
      Associative(sent, Unread(b.ring, readPos, b.start), RingFrame(m));
    }

    /**
      * The rest of gator_annotate_visual behind the commit: the image is left out of
      * the ring and offered to the sender in place, oob_data before oob_length.
      */
    method ShowImage(image: seq<byte>, between: seq<Turns.Act>, last: Sending.Socket, viewer: Peer, p: Images.Point,
                     before: seq<byte>, ghost m: Message, ghost b: Before)
      returns (released: bool, sent: seq<byte>, at: Stage)
      requires Valid() && Ready() && m.Visual? && m.image == image && Accepted(m) && Safe(m)
      requires Images.Running(p, readPos, b.start) && (!gator.capturing ==> p == Images.Away)
      requires Pending(m, before, b) && Published(m, b.ring, b.start)
      requires gator.senderSem >= b.posts + b.WaitPosts(m)
      modifies this, gator
      ensures Valid() && VisualCalled(m, released, sent, b, at, last, viewer)
      ensures between == [] && p == Images.Away ==>
                at == Stage(old(readPos), Images.Away) && at.read < SIZE && at.read != writePos
      ensures InRing() && old(ViewAt(p)).Proper()
      ensures var u := Turns.SteppedAll(buf[..], writePos, old(ViewAt(p)), between).view; at == Stage(u.read, u.at)
    {
      hide RingFrame, Put, Unread, Used, Reserved, Accepted, Images.ShowFrom, Images.InOrder, Images.Early;
      VisualCommitted(m, p, before, b);
      RunningIsProper(p);
      var point, taken := p, [];
      if gator.capturing {
        point, taken := Steps(p, between);
      }
      sent := before + taken;
      at := Stage(readPos, point);
      ghost var contents := Contents();
      if gator.capturing {
        Associative(before, taken, contents);
      }
      oobData := image;
      oobLength := |image|;
      assert Oob() == image;
      released, taken := WaitImage(viewer, point, last);
      if gator.capturing {
        ImageShown(m, sent, taken, contents, b, at, last, viewer);
      }
      sent := sent + taken;
    }

    lemma ImageShown(m: Message, sent: seq<byte>, taken: seq<byte>, contents: seq<byte>, b: Before, at: Stage,
                     last: Sending.Socket, viewer: Peer)
      requires m.Visual? && InRing() && at.read < SIZE && Images.May(at.point, at.read, writePos)
      requires contents == Unread(buf[..], at.read, writePos) && sent + contents == b.Queue() + RingFrame(m)
      requires if m.image == [] then taken == [] && readPos == at.read
               else var t := Images.ShowFrom(buf[..], at.read, writePos, at.point, m.image, last, viewer.answers);
                    t.on && t.sent == taken && t.readPos == readPos
      ensures m.image == [] ==> sent + taken + Contents() == b.Queue() + Frame(m)
      ensures m.image != [] ==> Delivered(m, sent + taken, b, at, last, viewer)
    {
      hide RingFrame, Images.ShowFrom, Images.InOrder, Images.RingRest, Unread, Used;
      if m.image == [] {
        assert sent + [] == sent && RingFrame(m) + [] == RingFrame(m);
      } else {
        Images.Judge(buf[..], at.read, writePos, at.point, m.image, last, viewer.answers);
        if Images.Early(buf[..], at.read, writePos, at.point, last) {
          Images.JudgeEarly(buf[..], at.read, writePos, at.point, m.image, last, viewer.answers);
        }
        JoinImage(sent, taken, contents, m.image, b.Queue(), RingFrame(m));
        NothingUnread(buf[..], readPos, writePos);
        assert |sent| + |contents| == |b.Queue()| + |RingFrame(m)|;
      }
    }

    lemma CalledIsDelivered(m: Message, sent: seq<byte>, b: Before, at: Stage, last: Sending.Socket, viewer: Peer)
      requires m.Visual? && Valid() && Accepted(m) && gator.capturing && m.image != []
      requires VisualCalled(m, true, sent, b, at, last, viewer)
      ensures Delivered(m, sent, b, at, last, viewer)
    {
    }

    lemma Undisturbed(m: Message, sent: seq<byte>, b: Before, at: Stage, last: Sending.Socket, viewer: Peer)
      requires m.Visual? && Valid() && at.read < SIZE && at.point == Images.Away && at.read != writePos
      requires Delivered(m, sent, b, at, last, viewer) && viewer.TakesWhole(|m.image|)
      ensures sent == b.Queue() + Frame(m) && Contents() == []
    {
      hide RingFrame, Sending.ImageTurn;
      assert Used(at.read, writePos) > 0;
    }

    /** How often the caller has woken the sender before it found the image gone. */
    ghost function Rounds(t: Images.Shown, p: Images.Point, tokens: nat): nat {
      if t.turns == 0 then 0 else tokens + (if p == Images.Away then 0 else 1) + t.turns
    }

    /**
      * The wait loop of gator_annotate_visual. A turn that is under way at p goes on
      * with the copy it has; the turns after it load the write position afresh. The
      * loop ends with the image sent or dropped by a stop, unless the capture was
      * off from the beginning; what it comes to is Images.ShowFrom, and it has woken
      * the sender before every wait on the semaphore.
      */
    method WaitImage(viewer: Peer, p: Images.Point, last: Sending.Socket) returns (released: bool, sent: seq<byte>)
      requires Valid() && Images.May(p, readPos, writePos) && (!gator.capturing ==> p == Images.Away)
      modifies this, gator
      ensures Valid() && writePos == old(writePos)
      ensures released <==> old(gator.capturing) || old(oobLength) == 0
      ensures released ==> Oob() == []
      ensures !released ==> sent == [] && Oob() == old(Oob()) && readPos == old(readPos) && !gator.capturing
      ensures gator.capturing ==> old(gator.capturing)
      ensures old(oobLength) == 0 ==>
                sent == [] && readPos == old(readPos) && gator.capturing == old(gator.capturing)
                && gator.senderSem == old(gator.senderSem)
      ensures old(oobLength) > 0 && old(gator.capturing) && (gator.capturing || old(fd) >= 0) ==>
                var t := Images.ShowFrom(buf[..], old(readPos), writePos, p, old(Oob()), last, viewer.answers);
                && gator.capturing == t.on && sent == t.sent && (t.on ==> readPos == t.readPos)
                && gator.senderSem == old(gator.senderSem) + Rounds(t, p, old(sem))
      ensures !released ==> gator.senderSem == old(gator.senderSem) + old(sem) + 1
      ensures old(oobLength) > 0 && p == Images.Away ==> gator.senderSem > old(gator.senderSem) + old(sem)
      ensures gator.senderSem >= old(gator.senderSem)
    {
      hide Unread, Used, Images.Rest, Images.Show;
      ghost var r, oob := readPos, Oob();
      sent := [];
      if oobLength > 0 && gator.capturing {
        if p == Images.Away {
          Images.NothingLeft(buf[..], readPos, Oob(), last);
        }
        sent := FinishTurn(p, last);
      }
      ghost var r1, oob1 := readPos, Oob();
      var taken;
      released, taken := AwaitImage(viewer);
      Images.SomeTurn(buf[..], r1, writePos, oob1, viewer.answers, 0);
      if oob1 == [] {
        Images.NoTurn(buf[..], r1, writePos, viewer.answers, 0);
      }
      sent := sent + taken;
    }

    /** The loop itself, with the sender between two turns. */
    method AwaitImage(viewer: Peer) returns (released: bool, sent: seq<byte>)
      requires Valid()
      modifies this, gator
      ensures Valid() && writePos == old(writePos)
      ensures released <==> old(gator.capturing) || old(oobLength) == 0
      ensures released ==> Oob() == []
      ensures !released ==>
                && sent == [] && Oob() == old(Oob()) && readPos == old(readPos) && !gator.capturing
                && gator.senderSem == old(gator.senderSem) + old(sem) + 1
      ensures gator.capturing ==> old(gator.capturing)
      ensures old(oobLength) == 0 ==>
                sent == [] && readPos == old(readPos) && gator.capturing == old(gator.capturing)
                && gator.senderSem == old(gator.senderSem)
      ensures old(oobLength) > 0 && (gator.capturing || (old(gator.capturing) && old(fd) >= 0)) ==>
                var t := Images.Show(buf[..], old(readPos), writePos, old(Oob()), viewer.answers, 0);
                && gator.capturing == t.on && sent == t.sent && (t.on ==> readPos == t.readPos)
                && gator.senderSem == old(gator.senderSem) + old(sem) + t.turns
      ensures old(oobLength) > 0 ==> gator.senderSem > old(gator.senderSem) + old(sem)
    {
      hide Unread, Used, Images.Show;
      released, sent := true, [];
      ghost var image, r, tokens := Oob(), readPos, sem;
      ghost var connected, live := fd >= 0, gator.capturing && oobLength > 0;
      ghost var total := Images.Show(buf[..], r, writePos, image, viewer.answers, 0);
      Images.AfterNothing(total);
      var n: nat := 0;
      while oobLength > 0
        invariant Valid() && writePos == old(writePos)
        invariant gator.capturing ==> old(gator.capturing)
        invariant !gator.capturing && old(gator.capturing) ==> oobLength == 0 || !live
        invariant n == 0 ==> sent == [] && Oob() == image && readPos == r && gator.capturing == old(gator.capturing)
        invariant live && gator.capturing ==>
                    total == Images.Show(buf[..], readPos, writePos, Oob(), viewer.answers, n).After(sent, n)
        invariant live && connected && !gator.capturing ==> !total.on && total.sent == sent && total.turns == n
        invariant connected && gator.capturing ==> fd >= 0
        invariant gator.senderSem + sem == old(gator.senderSem) + tokens + n
        invariant n > 0 ==> sem == 0
        invariant image == [] ==> n == 0 && sem == tokens
        invariant !live ==> n == 0
        decreases oobLength, Images.Distance(readPos, writePos), sem
      {
        gator.senderSem := gator.senderSem + 1;
        if sem == 0 {
          if !gator.capturing {
            released := false;
            return;
          }
          NextShown(buf[..], readPos, writePos, Oob(), viewer, n, sent);
          var taken := ImageStep(viewer, n);
          sent := sent + taken;
          n := n + 1;
        }
        sem := sem - 1;
      }
      if gator.capturing && live {
        LastShown(buf[..], readPos, writePos, viewer, n, sent);
      }
    }

    /** The rest of the turn under way, with the image in place. */
    method FinishTurn(p: Images.Point, socket: Sending.Socket) returns (sent: seq<byte>)
      requires Valid() && gator.capturing && oobLength > 0 && Images.May(p, readPos, writePos)
      modifies this, gator`capturing
      ensures Valid() && writePos == old(writePos)
      ensures var o := Images.Rest(buf[..], old(readPos), p, old(Oob()), socket);
              && gator.capturing == o.ok && sent == o.bytes
              && (o.ok ==> readPos == o.readPos && Oob() == o.oob)
      ensures gator.capturing ==> fd == old(fd) && sem == old(sem) + if p == Images.Away then 0 else 1
      ensures !gator.capturing ==> oobLength == 0
    {
      hide Unread, Used, Sending.Send, Sending.SendOob;
      var ok := true;
      sent := [];
      match p {
        case Away =>
          Images.NothingLeft(buf[..], readPos, Oob(), socket);
          return;
        case Loaded(v) =>
          Images.RestIsSend(buf[..], readPos, v, Oob(), socket);
          ok, sent := GatorSend(v, socket);
        case Begun(v) =>
          Images.RestIsSend(buf[..], readPos, v, Oob(), socket);
          ok, sent := GatorSend(v, socket);
        case Second(v) =>
          ok, sent := FinishSecond(v, socket);
        case Sent(complete) =>
          ok, sent := SendImage(complete, [], socket);
      }
      if ok {
        sem := sem + 1;
      } else {
        StopCapturing(gator, [this]);
        assert Oob() == [];
      }
    }

    method FinishSecond(v: nat, socket: Sending.Socket) returns (ok: bool, sent: seq<byte>)
      requires Valid() && readPos == 0 && v < SIZE
      modifies this`readPos, this`oobData, this`oobLength
      ensures Valid()
      ensures Images.Rest(buf[..], old(readPos), Images.Second(v), old(Oob()), socket)
              == Sending.Outcome(ok, sent, readPos, Oob())
    {
      hide Sending.SendOob;
      var bytes := Sending.Accepted(socket.second, v);
      if bytes <= 0 {
        return false, [];
      }
      sent := buf[..bytes];
      assert [] + sent == sent;
      readPos := Pos(readPos + bytes);
      ok, sent := SendImage(bytes == v, sent, socket);
    }

    /** One turn of the sender while the image waits. */
    method ImageStep(viewer: Peer, n: nat) returns (taken: seq<byte>)
      requires Valid() && gator.capturing && oobLength > 0
      modifies this, gator`capturing
      ensures Valid() && writePos == old(writePos) && sem == old(sem) + 1
      ensures gator.capturing || old(fd) >= 0 ==>
                var o := Sending.Send(buf[..], old(readPos), writePos, old(Oob()), viewer.answers(n));
                gator.capturing == o.ok && taken == o.bytes && (o.ok ==> readPos == o.readPos && Oob() == o.oob)
      ensures gator.capturing ==>
                && fd >= 0
                && (oobLength < old(oobLength)
                    || (oobLength == old(oobLength)
                        && Images.Distance(readPos, writePos) < Images.Distance(old(readPos), writePos)))
      ensures !gator.capturing ==> oobLength == 0
    {
      hide Unread, Used, Sending.Send, Sending.SendOob;
      ghost var r, oob := readPos, Oob();
      ghost var o := Sending.Send(buf[..], r, writePos, oob, viewer.answers(n));
      if o.ok {
        Sending.ImageProgress(buf[..], r, writePos, oob, viewer.answers(n));
      }
      taken := SenderTurn(gator, [this], 0, viewer.connects(n), viewer.answers(n));
      if gator.capturing {
        assert o == Sending.Outcome(true, taken, readPos, Oob());
      } else {
        assert Oob() == [];
      }
    }

    method WriteCamJob(view: u32, job: u32, name: cstring, track: u32, start: u64, duration: u64, color: u32,
                       primary: u32, deps: seq<u32>, peer: Peer)
      returns (released: bool, sent: seq<byte>)
      requires Valid() && Ready() && Safe(CamJob(view, job, track, start, duration, color, primary, deps, name))
      modifies this, buf, gator
      ensures Valid() && Ready()
      ensures Called(CamJob(view, job, track, start, duration, color, primary, deps, name),
                     released, sent, old(Snapshot()))
    {
      hide *;
      ghost var b := Snapshot();
      ghost var m := CamJob(view, job, track, start, duration, color, primary, deps, name);
      CamJobLayout(view, job, name, track, start, duration, color, primary, deps);
      var go: bool;
      go, released, sent := Reserve(1 + 4 + 5 * 5 + 2 * 10 + 4 + |deps| * 5 + |name|, peer, m, b);
      if !go {
        return;
      }
      var next, size, length, d := MsgBegin(0x0c);
      next, length, d := AddJob(buf, next, length, view, job, track, start, duration, color, primary, d);
      next, length, d := AddInt(buf, next, length, |deps|, d);
      next, length, d := AddDeps(buf, next, length, deps, d);
      next, length, d := AddRest(buf, next, length, name, d);
      MsgEnd(next, size, length, d, m, sent, b);
    }

    method WriteCamJobSetDeps(view: u32, job: u32, time: u64, primary: u32, deps: seq<u32>, peer: Peer)
      returns (released: bool, sent: seq<byte>)
      requires Valid() && Ready() && Safe(CamJobSetDeps(view, job, time, primary, deps))
      modifies this, buf, gator
      ensures Valid() && Ready()
      ensures Called(CamJobSetDeps(view, job, time, primary, deps), released, sent, old(Snapshot()))
    {
      hide *;
      ghost var b := Snapshot();
      ghost var m := CamJobSetDeps(view, job, time, primary, deps);
      CamJobSetDepsLayout(view, job, time, primary, deps);
      var go: bool;
      go, released, sent := Reserve(1 + 4 + 4 * 5 + 10 + |deps| * 5, peer, m, b);
      if !go {
        return;
      }
      var next, size, length, d := MsgBegin(0x0f);
      next, length, d := AddInt(buf, next, length, AsInt32(view), d);
      next, length, d := AddInt(buf, next, length, AsInt32(job), d);
      next, length, d := AddLong(buf, next, length, AsInt64(time), d);
      next, length, d := AddInt(buf, next, length, AsInt32(primary), d);
      next, length, d := AddInt(buf, next, length, |deps|, d);
      next, length, d := AddDeps(buf, next, length, deps, d);
      MsgEnd(next, size, length, d, m, sent, b);
    }

    /** gator_annotate_write_counter, for a saved counter. */
    method WriteCounter(counter: Message, peer: Peer)
      returns (released: bool, sent: seq<byte>)
      requires counter.Counter?
      requires Valid() && Ready() && Safe(counter)
      modifies this, buf, gator
      ensures Valid() && Ready() && Called(counter, released, sent, old(Snapshot()))
    {
      hide *;
      ghost var b := Snapshot();
      var c := counter;
      CounterLayout(c);
      var activitySize := ActivitySize(c.activities);
      var go: bool;
      go, released, sent := Reserve(1 + 4 + 12 * 5 + 4 + activitySize + |c.title| + 1 + |c.name| + 1 + |c.units| + 1
                                    + |c.description|, peer, c, b);
      if !go {
        return;
      }
      var next, size, length, d := MsgBegin(0x08);
      next, length, d := AddSettings(buf, next, length, c, d);
      next, length, d := AddCounts(buf, next, length, c, d);
      next, length, d := AddActivities(buf, next, length, c.activities, d);
      next, length, d := AddTexts(buf, next, length, c, d);
      MsgEnd(next, size, length, d, c, sent, b);
    }

    method AnnotateStr(time: u64, channel: u32, str: cstring, peer: Peer)
      returns (released: bool, sent: seq<byte>)
      requires Valid() && Ready() && Safe(Str(time, channel, str))
      modifies this, buf, gator
      ensures Valid() && Ready() && Called(Str(time, channel, str), released, sent, old(Snapshot()))
    {
      hide *;
      ghost var b := Snapshot();
      ghost var m := Str(time, channel, str);
      StrLayout(time, channel, str);
      var go: bool;
      go, released, sent := Reserve(1 + 4 + 10 + 5 + |str|, peer, m, b);
      if !go {
        return;
      }
      var next, size, length, d := MsgBegin(0x01);
      next, length, d := AddLong(buf, next, length, AsInt64(time), d);
      next, length, d := AddInt(buf, next, length, AsInt32(channel), d);
      next, length, d := AddRest(buf, next, length, str, d);
      MsgEnd(next, size, length, d, m, sent, b);
    }

    method AnnotateColor(time: u64, channel: u32, color: u32, str: cstring, peer: Peer)
      returns (released: bool, sent: seq<byte>)
      requires Valid() && Ready() && Safe(StrColor(time, channel, color, str))
      modifies this, buf, gator
      ensures Valid() && Ready() && Called(StrColor(time, channel, color, str), released, sent, old(Snapshot()))
    {
      hide *;
      ghost var b := Snapshot();
      ghost var m := StrColor(time, channel, color, str);
      StrColorLayout(time, channel, color, str);
      var go: bool;
      go, released, sent := Reserve(1 + 4 + 10 + 5 + 4 + |str|, peer, m, b);
      if !go {
        return;
      }
      var next, size, length, d := MsgBegin(0x02);
      next, length, d := AddLong(buf, next, length, AsInt64(time), d);
      next, length, d := AddInt(buf, next, length, AsInt32(channel), d);
      next, length, d := AddColor(buf, next, length, color, d);
      next, length, d := AddRest(buf, next, length, str, d);
      MsgEnd(next, size, length, d, m, sent, b);
    }

    method AnnotateNameChannel(time: u64, channel: u32, group: u32, str: cstring, peer: Peer)
      returns (released: bool, sent: seq<byte>)
      requires Valid() && Ready() && Safe(NameChannel(time, channel, group, str))
      modifies this, buf, gator
      ensures Valid() && Ready() && Called(NameChannel(time, channel, group, str), released, sent, old(Snapshot()))
    {
      hide *;
      ghost var b := Snapshot();
      ghost var m := NameChannel(time, channel, group, str);
      NameChannelLayout(time, channel, group, str);
      var go: bool;
      go, released, sent := Reserve(1 + 4 + 10 + 2 * 5 + |str|, peer, m, b);
      if !go {
        return;
      }
      var next, size, length, d := MsgBegin(0x03);
      next, length, d := AddLong(buf, next, length, AsInt64(time), d);
      next, length, d := AddInt(buf, next, length, AsInt32(channel), d);
      next, length, d := AddInt(buf, next, length, AsInt32(group), d);
      next, length, d := AddRest(buf, next, length, str, d);
      MsgEnd(next, size, length, d, m, sent, b);
    }

    method AnnotateNameGroup(time: u64, group: u32, str: cstring, peer: Peer)
      returns (released: bool, sent: seq<byte>)
      requires Valid() && Ready() && Safe(NameGroup(time, group, str))
      modifies this, buf, gator
      ensures Valid() && Ready() && Called(NameGroup(time, group, str), released, sent, old(Snapshot()))
    {
      hide *;
      ghost var b := Snapshot();
      ghost var m := NameGroup(time, group, str);
      NameGroupLayout(time, group, str);
      var go: bool;
      go, released, sent := Reserve(1 + 4 + 10 + 5 + |str|, peer, m, b);
      if !go {
        return;
      }
      var next, size, length, d := MsgBegin(0x04);
      next, length, d := AddLong(buf, next, length, AsInt64(time), d);
      next, length, d := AddInt(buf, next, length, AsInt32(group), d);
      next, length, d := AddRest(buf, next, length, str, d);
      MsgEnd(next, size, length, d, m, sent, b);
    }

    method AnnotateMarker(time: u64, str: cstring, peer: Peer)
      returns (released: bool, sent: seq<byte>)
      requires Valid() && Ready() && Safe(Marker(time, str))
      modifies this, buf, gator
      ensures Valid() && Ready() && Called(Marker(time, str), released, sent, old(Snapshot()))
    {
      hide *;
      ghost var b := Snapshot();
      ghost var m := Marker(time, str);
      MarkerLayout(time, str);
      var go: bool;
      go, released, sent := Reserve(1 + 4 + 10 + |str|, peer, m, b);
      if !go {
        return;
      }
      var next, size, length, d := MsgBegin(0x06);
      next, length, d := AddLong(buf, next, length, AsInt64(time), d);
      next, length, d := AddRest(buf, next, length, str, d);
      MsgEnd(next, size, length, d, m, sent, b);
    }

    method AnnotateMarkerColor(time: u64, color: u32, str: cstring, peer: Peer)
      returns (released: bool, sent: seq<byte>)
      requires Valid() && Ready() && Safe(MarkerColor(time, color, str))
      modifies this, buf, gator
      ensures Valid() && Ready() && Called(MarkerColor(time, color, str), released, sent, old(Snapshot()))
    {
      hide *;
      ghost var b := Snapshot();
      ghost var m := MarkerColor(time, color, str);
      MarkerColorLayout(time, color, str);
      var go: bool;
      go, released, sent := Reserve(1 + 4 + 10 + 4 + |str|, peer, m, b);
      if !go {
        return;
      }
      var next, size, length, d := MsgBegin(0x07);
      next, length, d := AddLong(buf, next, length, AsInt64(time), d);
      next, length, d := AddColor(buf, next, length, color, d);
      next, length, d := AddRest(buf, next, length, str, d);
      MsgEnd(next, size, length, d, m, sent, b);
    }

    method AnnotateCounterValue(time: u64, core: u32, id: u32, value: u32, peer: Peer)
      returns (released: bool, sent: seq<byte>)
      requires Valid() && Ready() && Safe(CounterValue(time, core, id, value))
      modifies this, buf, gator
      ensures Valid() && Ready() && Called(CounterValue(time, core, id, value), released, sent, old(Snapshot()))
    {
      hide *;
      ghost var b := Snapshot();
      ghost var m := CounterValue(time, core, id, value);
      CounterValueLayout(time, core, id, value);
      var go: bool;
      go, released, sent := Reserve(1 + 4 + 10 + 3 * 5, peer, m, b);
      if !go {
        return;
      }
      var next, size, length, d := MsgBegin(0x09);
      next, length, d := AddLong(buf, next, length, AsInt64(time), d);
      next, length, d := AddInt(buf, next, length, AsInt32(core), d);
      next, length, d := AddInt(buf, next, length, AsInt32(id), d);
      next, length, d := AddInt(buf, next, length, AsInt32(value), d);
      MsgEnd(next, size, length, d, m, sent, b);
    }

    method AnnotateActivitySwitch(time: u64, core: u32, id: u32, activity: u32, tid: u32, peer: Peer)
      returns (released: bool, sent: seq<byte>)
      requires Valid() && Ready() && Safe(ActivitySwitch(time, core, id, activity, tid))
      modifies this, buf, gator
      ensures Valid() && Ready()
      ensures Called(ActivitySwitch(time, core, id, activity, tid), released, sent, old(Snapshot()))
    {
      hide *;
      ghost var b := Snapshot();
      ghost var m := ActivitySwitch(time, core, id, activity, tid);
      ActivitySwitchLayout(time, core, id, activity, tid);
      var go: bool;
      go, released, sent := Reserve(1 + 4 + 10 + 4 * 5, peer, m, b);
      if !go {
        return;
      }
      var next, size, length, d := MsgBegin(0x0a);
      next, length, d := AddLong(buf, next, length, AsInt64(time), d);
      next, length, d := AddInt(buf, next, length, AsInt32(core), d);
      next, length, d := AddInt(buf, next, length, AsInt32(id), d);
      next, length, d := AddInt(buf, next, length, AsInt32(activity), d);
      next, length, d := AddInt(buf, next, length, AsInt32(tid), d);
      MsgEnd(next, size, length, d, m, sent, b);
    }

    method WriteCamTrack(view: u32, track: u32, parent: u32, name: cstring, peer: Peer)
      returns (released: bool, sent: seq<byte>)
      requires Valid() && Ready() && Safe(CamTrack(view, track, parent, name))
      modifies this, buf, gator
      ensures Valid() && Ready() && Called(CamTrack(view, track, parent, name), released, sent, old(Snapshot()))
    {
      hide *;
      ghost var b := Snapshot();
      ghost var m := CamTrack(view, track, parent, name);
      CamTrackLayout(view, track, parent, name);
      var go: bool;
      go, released, sent := Reserve(1 + 4 + 3 * 5 + |name|, peer, m, b);
      if !go {
        return;
      }
      var next, size, length, d := MsgBegin(0x0b);
      next, length, d := AddInt(buf, next, length, AsInt32(view), d);
      next, length, d := AddInt(buf, next, length, AsInt32(track), d);
      next, length, d := AddInt(buf, next, length, AsInt32(parent), d);
      next, length, d := AddRest(buf, next, length, name, d);
      MsgEnd(next, size, length, d, m, sent, b);
    }

    method WriteCamName(view: u32, name: cstring, peer: Peer)
      returns (released: bool, sent: seq<byte>)
      requires Valid() && Ready() && Safe(CamViewName(view, name))
      modifies this, buf, gator
      ensures Valid() && Ready() && Called(CamViewName(view, name), released, sent, old(Snapshot()))
    {
      hide *;
      ghost var b := Snapshot();
      ghost var m := CamViewName(view, name);
      CamViewNameLayout(view, name);
      var go: bool;
      go, released, sent := Reserve(1 + 4 + 5 + |name|, peer, m, b);
      if !go {
        return;
      }
      var next, size, length, d := MsgBegin(0x0d);
      next, length, d := AddInt(buf, next, length, AsInt32(view), d);
      next, length, d := AddRest(buf, next, length, name, d);
      MsgEnd(next, size, length, d, m, sent, b);
    }

    method WriteCamJobStart(view: u32, job: u32, name: cstring, track: u32, time: u64, color: u32, peer: Peer)
      returns (released: bool, sent: seq<byte>)
      requires Valid() && Ready() && Safe(CamJobStart(view, job, track, time, color, name))
      modifies this, buf, gator
      ensures Valid() && Ready()
      ensures Called(CamJobStart(view, job, track, time, color, name), released, sent, old(Snapshot()))
    {
      hide *;
      ghost var b := Snapshot();
      ghost var m := CamJobStart(view, job, track, time, color, name);
      CamJobStartLayout(view, job, name, track, time, color);
      var go: bool;
      go, released, sent := Reserve(1 + 4 + 3 * 5 + 10 + 4 + |name|, peer, m, b);
      if !go {
        return;
      }
      var next, size, length, d := MsgBegin(0x0e);
      next, length, d := AddInt(buf, next, length, AsInt32(view), d);
      next, length, d := AddInt(buf, next, length, AsInt32(job), d);
      next, length, d := AddInt(buf, next, length, AsInt32(track), d);
      next, length, d := AddLong(buf, next, length, AsInt64(time), d);
      next, length, d := AddColor(buf, next, length, color, d);
      next, length, d := AddRest(buf, next, length, name, d);
      MsgEnd(next, size, length, d, m, sent, b);
    }

    method WriteCamJobStop(view: u32, job: u32, time: u64, peer: Peer)
      returns (released: bool, sent: seq<byte>)
      requires Valid() && Ready() && Safe(CamJobStop(view, job, time))
      modifies this, buf, gator
      ensures Valid() && Ready() && Called(CamJobStop(view, job, time), released, sent, old(Snapshot()))
    {
      hide *;
      ghost var b := Snapshot();
      ghost var m := CamJobStop(view, job, time);
      CamJobStopLayout(view, job, time);
      var go: bool;
      go, released, sent := Reserve(1 + 4 + 2 * 5 + 10, peer, m, b);
      if !go {
        return;
      }
      var next, size, length, d := MsgBegin(0x10);
      next, length, d := AddInt(buf, next, length, AsInt32(view), d);
      next, length, d := AddInt(buf, next, length, AsInt32(job), d);
      next, length, d := AddLong(buf, next, length, AsInt64(time), d);
      MsgEnd(next, size, length, d, m, sent, b);
    }

    /** The last part of gator_send: image bytes go out only behind a complete send. */
    method SendImage(complete: bool, before: seq<byte>, socket: Sending.Socket) returns (ok: bool, sent: seq<byte>)
      requires Valid()
      modifies this`oobData, this`oobLength
      ensures Valid()
      ensures Sending.SendOob(complete, before, readPos, old(Oob()), socket)
              == Sending.Outcome(ok, sent, readPos, Oob())
    {
      if complete && oobLength > 0 {
        var bytes := Sending.Accepted(socket.oob, oobLength);
        if bytes <= 0 {
          return false, before;
        }
        sent := before + oobData[..bytes];
        assert oobData[bytes..][..oobLength - bytes] == Oob()[bytes..] && oobData[..bytes] == Oob()[..bytes];
        oobData := oobData[bytes..];
        oobLength := oobLength - bytes;
        return true, sent;
      }
      return true, before;
    }

    /** The second branch of gator_send: up to the end of the ring and, if that went out whole, on from its start. */
    method SendAround(w: nat, socket: Sending.Socket) returns (ok: bool, complete: bool, sent: seq<byte>)
      requires Valid() && w <= readPos
      modifies this`readPos
      ensures Valid()
      ensures Sending.Send(buf[..], old(readPos), w, Oob(), socket) ==
              if ok then Sending.SendOob(complete, sent, readPos, Oob(), socket)
              else Sending.Outcome(false, sent, readPos, Oob())
    {
      hide Pos, Sending.SendOob;
      var write := SIZE - readPos;
      var bytes := Sending.Accepted(socket.first, write);
      if bytes <= 0 {
        return false, false, [];
      }
      sent := buf[readPos..readPos + bytes];
      readPos := Pos(readPos + bytes);

      if write == bytes {
        assert sent == buf[..][old(readPos)..];
        // a short write ends the call: the other threads get their turn
        write := w;
        bytes := Sending.Accepted(socket.second, write);
        if bytes <= 0 {
          return false, false, sent;
        }
        sent := sent + buf[..bytes];
        readPos := Pos(readPos + bytes);
      }
      ok, complete := true, write == bytes;
    }

    /** gator_send on the snapshot w of the write position; `sent` is what the socket took, in order. */
    method GatorSend(w: nat, socket: Sending.Socket) returns (ok: bool, sent: seq<byte>)
      requires Valid() && w < SIZE
      modifies this`readPos, this`oobData, this`oobLength
      ensures Valid()
      ensures Sending.Send(buf[..], old(readPos), w, old(Oob()), socket) == Sending.Outcome(ok, sent, readPos, Oob())
    {
      hide Pos, Sending.SendOob;
      var complete: bool;
      if w > readPos {
        var write := w - readPos;
        var bytes := Sending.Accepted(socket.first, write);
        if bytes <= 0 {
          return false, [];
        }
        sent := buf[readPos..readPos + bytes];
        readPos := Pos(readPos + bytes);
        complete := write == bytes;
      } else {
        ok, complete, sent := SendAround(w, socket);
        if !ok {
          return;
        }
      }
      ok, sent := SendImage(complete, sent, socket);
    }

    /** What a stop of the capture does to one thread. */
    method Stop()
      requires Valid()
      modifies this
      ensures Valid() && writePos == old(writePos) && readPos == writePos && Contents() == [] && Oob() == []
      ensures sem == old(sem) + 1 && fd == (if old(fd) > 0 then -1 else old(fd)) && exited == old(exited)
    {
      readPos := writePos;
      oobLength := 0;
      sem := sem + 1;
      if fd > 0 {
        fd := -1;
      }
      NothingUnread(buf[..], readPos, writePos);
    }

    /** What the sender does for one thread while capturing; not ok means that the capture is to stop. */
    method Serve(connected: int, socket: Sending.Socket) returns (ok: bool, sent: seq<byte>)
      requires Valid()
      modifies this
      ensures Valid() && writePos == old(writePos) && exited == old(exited)
      ensures fd == if old(fd) < 0 then connected else old(fd)
      ensures var call := fd >= 0 && (old(readPos) != writePos || old(Oob()) != []);
              var o := Sending.Send(buf[..], old(readPos), writePos, old(Oob()), socket);
              && (ok <==> fd >= 0 && (call ==> o.ok))
              && sent == (if call then o.bytes else [])
              && readPos == (if call then o.readPos else old(readPos))
              && Oob() == (if call then o.oob else old(Oob()))
              && sem == old(sem) + if ok && call then 1 else 0
      ensures ok && old(readPos) != writePos ==>
                && sent + Contents() + Oob() == old(Contents()) + old(Oob())
                && Used(readPos, writePos) < Used(old(readPos), writePos)
    {
      hide Unread, Sending.Send;
      if fd < 0 {
        fd := connected;
      }
      ok, sent := fd >= 0, [];
      if fd >= 0 {
        var w := writePos;
        if w != readPos || oobLength > 0 {
          ghost var r, oob := readPos, Oob();
          ok, sent := GatorSend(w, socket);
          if r != w {
            Sending.SendIsFifo(buf[..], r, w, oob, socket);
            Sending.SendProgress(buf[..], r, w, oob, socket);
          }
          if ok {
            sem := sem + 1;
          }
        }
      }
    }
  }

  /**
    * gator_stop_capturing: every ring is emptied at its committed end, every
    * producer is woken, every connection with a positive descriptor is closed.
    */
  method StopCapturing(gator: GatorState, threads: seq<GatorThread>)
    requires forall i, j :: 0 <= i < j < |threads| ==> threads[i] != threads[j]
    requires forall t :: t in threads ==> t.Valid()
    modifies gator`capturing, set t | t in threads
    ensures !gator.capturing
    ensures forall t :: t in threads ==> t.Valid() && t.writePos == old(t.writePos) && t.exited == old(t.exited)
    ensures old(gator.capturing) ==> forall t :: t in threads ==> Stopped(t)
    ensures !old(gator.capturing) ==> forall t :: t in threads ==> unchanged(t)
  {
    hide Unread;
    if gator.capturing {
      gator.capturing := false;
      for i := 0 to |threads|
        invariant !gator.capturing
        invariant forall j :: 0 <= j < |threads| ==>
                    var t := threads[j];
                    t.Valid() && t.writePos == old(t.writePos) && t.exited == old(t.exited)
        invariant forall j :: 0 <= j < i ==> Stopped(threads[j])
        invariant forall j :: i <= j < |threads| ==> unchanged(threads[j])
      {
        threads[i].Stop();
      }
    }
  }

  twostate predicate Stopped(t: GatorThread)
    reads t, t.buf
  {
    && t.Valid() && t.Contents() == [] && t.Oob() == []
    && t.sem == old(t.sem) + 1 && t.fd == if old(t.fd) > 0 then -1 else old(t.fd)
  }

  /**
    * What gator_func does for one thread of the list while capturing:
    * `connected` is the descriptor a connection attempt would yield, or a
    * negative number. Either the capture goes on, with the bytes of the thread
    * in order, fewer of them in the ring and its semaphore posted; or it stops,
    * with every ring empty and every semaphore posted.
    */
  method SenderTurn(gator: GatorState, threads: seq<GatorThread>, i: nat, connected: int, socket: Sending.Socket)
    returns (sent: seq<byte>)
    requires i < |threads| && gator.capturing
    requires forall i, j :: 0 <= i < j < |threads| ==> threads[i] != threads[j]
    requires forall t :: t in threads ==> t.Valid()
    modifies gator`capturing, set t | t in threads
    ensures forall t :: t in threads ==> t.Valid() && t.writePos == old(t.writePos)
    ensures gator.capturing ==> forall t :: t in threads && t != threads[i] ==> unchanged(t)
    ensures gator.capturing && old(threads[i].readPos) != threads[i].writePos ==> Advanced(threads[i], sent)
    ensures Served(gator, threads[i], connected, socket, sent)
    ensures !gator.capturing ==> forall t :: t in threads ==> Released(t)
  {
    hide Unread, Sending.Send;
    var ok;
    ok, sent := threads[i].Serve(connected, socket);
    if !ok {
      StopCapturing(gator, threads);
    }
  }

  /**
    * The turn is one call of gator_send if the thread is connected and has bytes
    * to send, and none otherwise; it ends the capture exactly when the
    * connection or the call fails.
    */
  twostate predicate Served(gator: GatorState, t: GatorThread, connected: int, socket: Sending.Socket, sent: seq<byte>)
    requires old(t.Valid()) && t.Valid()
    reads gator, t, t.buf
  {
    var fd := if old(t.fd) < 0 then connected else old(t.fd);
    var r, oob := old(t.readPos), old(t.Oob());
    var call := fd >= 0 && (r != old(t.writePos) || oob != []);
    var o := Sending.Send(old(t.buf[..]), r, old(t.writePos), oob, socket);
    && (gator.capturing <==> fd >= 0 && (call ==> o.ok))
    && sent == (if call then o.bytes else [])
    && (gator.capturing ==>
          && t.fd == fd && t.readPos == (if call then o.readPos else r) && t.Oob() == (if call then o.oob else oob)
          && t.sem == old(t.sem) + if call then 1 else 0)
    && (!gator.capturing ==> t.fd == if fd > 0 then -1 else fd)
  }

  twostate predicate Advanced(t: GatorThread, sent: seq<byte>)
    requires old(t.Valid()) && t.Valid()
    reads t, t.buf
  {
    && sent + t.Contents() + t.Oob() == old(t.Contents()) + old(t.Oob())
    && Used(t.readPos, t.writePos) < Used(old(t.readPos), t.writePos)
    && t.sem == old(t.sem) + 1
  }

  twostate predicate Released(t: GatorThread)
    requires t.Valid()
    reads t, t.buf
  {
    t.Contents() == [] && t.Oob() == [] && t.sem == old(t.sem) + 1 && t.fd <= 0
  }

  /** A commit leaves a turn under way where it was. */
  lemma PointStays(p: Images.Point, r: nat, w: nat, n: nat)
    requires r < SIZE && w < SIZE && 0 < n <= Free(r, w) && Images.May(p, r, w)
    ensures Images.May(p, r, Pos(w + n))
  {
  }

  lemma NextShown(a: slots, r: nat, w: nat, oob: seq<byte>, viewer: Peer, n: nat, sent: seq<byte>)
    requires r < SIZE && w < SIZE && oob != []
    ensures var o := Sending.Send(a, r, w, oob, viewer.answers(n));
            Images.Show(a, r, w, oob, viewer.answers, n).After(sent, n) ==
            if o.ok then Images.Show(a, o.readPos, w, o.oob, viewer.answers, n + 1).After(sent + o.bytes, n + 1)
            else Images.Shown(false, sent + o.bytes, o.readPos, n + 1)
  {
    hide Sending.Send;
    var o := Sending.Send(a, r, w, oob, viewer.answers(n));
    if o.ok {
      Sending.ImageProgress(a, r, w, oob, viewer.answers(n));
      Associative(sent, o.bytes, Images.Show(a, o.readPos, w, o.oob, viewer.answers, n + 1).sent);
    }
  }

  lemma LastShown(a: slots, r: nat, w: nat, viewer: Peer, n: nat, sent: seq<byte>)
    requires r < SIZE && w < SIZE
    ensures Images.Show(a, r, w, [], viewer.answers, n).After(sent, n) == Images.Shown(true, sent, r, n)
  {
    assert sent + [] == sent;
  }

  lemma JoinImage(before: seq<byte>, taken: seq<byte>, contents: seq<byte>, image: seq<byte>, queue: seq<byte>,
                  frame: seq<byte>)
    requires before + contents == queue + frame
    ensures before + taken == queue + (frame + image) <==> taken == contents + image
  {
    Associative(queue, frame, image);
    Associative(before, contents, image);
    if before + taken == queue + (frame + image) {
      assert taken == (before + taken)[|before|..];
      assert contents + image == (before + (contents + image))[|before|..];
    }
  }

  lemma NothingUnread(a: slots, r: nat, w: nat)
    requires r < SIZE && w < SIZE
    ensures Unread(a, r, w) == [] <==> r == w
  {
    assert |Unread(a, r, w)| == Used(r, w);
  }
}
