// The image of a visual annotation against a sender that may be in the middle
// of a turn when the image is stored. That turn goes on with the copy of the
// write position it has loaded, and looks for an image only behind its ring
// sends; every later turn loads the position afresh.

module Images {
  import opened Bytes
  import opened Ring
  import opened Sending

  /** The program points of the sender in its turn for one thread. */
  datatype Point =
    | Away                    // no turn under way
    | Loaded(copy: nat)       // write_pos is loaded, not yet tested for work
    | Begun(copy: nat)        // about to send from read_pos on
    | Second(copy: nat)       // the end of the ring is sent, about to send from slot 0 on
    | Sent(complete: bool)    // the ring sends are over, the image not looked at yet

  /** The points a turn can be at: the copy is a committed position at or behind w, not behind r. */
  predicate May(p: Point, r: nat, w: nat)
    requires r < SIZE && w < SIZE
  {
    match p
    case Away => true
    case Loaded(v) => v < SIZE && Used(r, v) <= Used(r, w)
    case Begun(v) => v < SIZE && Used(r, v) <= Used(r, w)
    case Second(v) => r == 0 && v < SIZE && v <= w
    case Sent(_) => true
  }

  /** The points of a turn that no image has kept going: the first send, if still to come, has unread bytes to send. */
  predicate Running(p: Point, r: nat, w: nat)
    requires r < SIZE && w < SIZE
  {
    May(p, r, w) && (p.Begun? ==> p.copy != r)
  }

  datatype RingSends = RingSends(ok: bool, bytes: seq<byte>, readPos: nat, complete: bool) {
    function Behind(before: seq<byte>): RingSends {
      RingSends(ok, before + bytes, readPos, complete)
    }
  }

  /** Where a turn with copy v is when its first send, from r on, has taken n bytes. */
  function Follows(r: nat, v: nat, n: nat): Point
    requires r < SIZE
  {
    if v > r then Sent(n == v - r) else if n == SIZE - r then Second(v) else Sent(false)
  }

  /** The ring sends that the turn still makes. */
  function RingRest(a: slots, r: nat, p: Point, k: Socket): (q: RingSends)
    requires r < SIZE && (p.Loaded? || p.Begun? || p.Second? ==> p.copy < SIZE)
    ensures q.readPos < SIZE
  {
    match p
    case Away => RingSends(true, [], r, false)
    case Loaded(v) => FromRead(a, r, v, k)
    case Begun(v) => FromRead(a, r, v, k)
    case Second(v) => FromStart(a, r, [], v, k)
    case Sent(c) => RingSends(true, [], r, c)
  }

  function FromRead(a: slots, r: nat, v: nat, k: Socket): (q: RingSends)
    requires r < SIZE && v < SIZE
    ensures q.readPos < SIZE
  {
    var want := if v > r then v - r else SIZE - r;
    var n := Accepted(k.first, want);
    if n <= 0 then RingSends(false, [], r, false)
    else if v > r || n < want then RingSends(true, a[r..r + n], Pos(r + n), v > r && n == want)
    else FromStart(a, Pos(r + n), a[r..], v, k)
  }

  function FromStart(a: slots, r: nat, before: seq<byte>, v: nat, k: Socket): (q: RingSends)
    requires r < SIZE && v < SIZE
    ensures q.readPos < SIZE
  {
    var n := Accepted(k.second, v);
    if n <= 0 then RingSends(false, before, r, false)
    else RingSends(true, before + a[..n], Pos(r + n), n == v)
  }

  /** What is left of the turn, with an image waiting. */
  function Rest(a: slots, r: nat, p: Point, oob: seq<byte>, k: Socket): (o: Outcome)
    requires r < SIZE && (p.Loaded? || p.Begun? || p.Second? ==> p.copy < SIZE)
    ensures o.readPos < SIZE
  {
    var q := RingRest(a, r, p, k);
    if !q.ok then Outcome(false, q.bytes, q.readPos, oob) else SendOob(q.complete, q.bytes, q.readPos, oob, k)
  }

  /** A turn that has only loaded its copy is, with an image waiting, a call of gator_send on that copy. */
  lemma RestIsSend(a: slots, r: nat, v: nat, oob: seq<byte>, k: Socket)
    requires r < SIZE && v < SIZE
    ensures Rest(a, r, Begun(v), oob, k) == Send(a, r, v, oob, k)
    ensures Rest(a, r, Loaded(v), oob, k) == Send(a, r, v, oob, k)
  {
    hide SendOob;
  }

  /** What a turn does from its first send on, it does from the point behind that send, after the bytes sent. */
  lemma TurnGoesOn(a: slots, r: nat, v: nat, k: Socket)
    requires r < SIZE && v < SIZE
    ensures var n := Accepted(k.first, if v > r then v - r else SIZE - r);
            RingRest(a, r, Begun(v), k) ==
            if n <= 0 then RingSends(false, [], r, false)
            else RingRest(a, Pos(r + n), Follows(r, v, n), k).Behind(a[r..r + n])
  {
    var n := Accepted(k.first, if v > r then v - r else SIZE - r);
    if n > 0 {
      assert a[r..r + n] + [] == a[r..r + n];
      if v <= r && n == SIZE - r {
        assert a[r..r + n] == a[r..];
        var n2 := Accepted(k.second, v);
        if n2 > 0 {
          assert a[r..] + ([] + a[..n2]) == a[r..] + a[..n2];
        }
      }
    }
  }

  lemma NothingLeft(a: slots, r: nat, oob: seq<byte>, k: Socket)
    requires r < SIZE
    ensures Rest(a, r, Away, oob, k) == Outcome(true, [], r, oob)
  {
  }

  /** A first send takes committed bytes only, and leaves a point the turn can be at. */
  lemma FollowsRunning(r: nat, v: nat, w: nat, n: nat)
    requires r < SIZE && w < SIZE && Running(Begun(v), r, w) && 0 < n <= if v > r then v - r else SIZE - r
    ensures n <= Used(r, w) && Running(Follows(r, v, n), Pos(r + n), w)
  {
  }

  // ------------------------------------------------------ one late call

  /** The bytes of the ring part are the bytes from the read position on, also past the committed ones. */
  lemma RingRestIsSlice(a: slots, r: nat, p: Point, k: Socket)
    requires r < SIZE && (p.Loaded? || p.Begun? || p.Second? ==> p.copy < SIZE) && (p.Second? ==> r == 0)
    ensures var q := RingRest(a, r, p, k);
            |q.bytes| <= SIZE && q.bytes == Slice(a, r, |q.bytes|) && q.readPos == Pos(r + |q.bytes|)
  {
    match p
    case Away =>
    case Loaded(v) => FromReadIsSlice(a, r, v, k);
    case Begun(v) => FromReadIsSlice(a, r, v, k);
    case Second(v) =>
      var n := Accepted(k.second, v);
      if n > 0 {
        FlatSlice(a, 0, n);
        assert [] + a[..n] == a[..n] && a[0..0 + n] == a[..n];
      }
    case Sent(_) =>
  }

  lemma FromReadIsSlice(a: slots, r: nat, v: nat, k: Socket)
    requires r < SIZE && v < SIZE
    ensures var q := FromRead(a, r, v, k);
            |q.bytes| <= SIZE && q.bytes == Slice(a, r, |q.bytes|) && q.readPos == Pos(r + |q.bytes|)
  {
    var want := if v > r then v - r else SIZE - r;
    var n := Accepted(k.first, want);
    if n > 0 {
      FlatSlice(a, r, n);
      if v <= r && n == want {
        assert a[r..r + n] == a[r..];
        var n2 := Accepted(k.second, v);
        if n2 > 0 {
          FlatSlice(a, 0, n2);
          assert a[0..0 + n2] == a[..n2];
          SliceSplit(a, r, n, n2);
        }
      }
    }
  }

  /**
    * A call on a copy v of a write position that is w by now is first in, first
    * out for every image and every answer of the socket exactly when the copy is
    * current, or is slot 0 with unread bytes up to it: the call then never comes
    * to the image.
    */
  lemma LateCopyIff(a: slots, r: nat, v: nat, w: nat, n: nat)
    requires r < SIZE && v < SIZE && w < SIZE && r != w && Used(r, v) <= Used(r, w) && n > 0
    ensures (forall image: seq<byte>, k: Socket :: |image| == n ==> Fifo(a, r, w, image, Send(a, r, v, image, k)))
            <==> v == w || (v == 0 && r != 0)
  {
    if v == w || (v == 0 && r != 0) {
      forall image: seq<byte>, k: Socket | |image| == n
        ensures Fifo(a, r, w, image, Send(a, r, v, image, k))
      {
        if v == w {
          SendIsFifo(a, r, w, image, k);
        } else {
          SlotZeroIsFifo(a, r, w, image, k);
        }
      }
    } else {
      var image, k := LateCopyFails(a, r, v, w, n);
    }
  }

  lemma SlotZeroIsFifo(a: slots, r: nat, w: nat, image: seq<byte>, k: Socket)
    requires 0 < r < SIZE && w < SIZE && Used(r, 0) <= Used(r, w)
    ensures Fifo(a, r, w, image, Send(a, r, 0, image, k))
  {
    var n := Accepted(k.first, SIZE - r);
    if n <= 0 {
      assert [] + Unread(a, r, w) + image == Unread(a, r, w) + image;
    } else {
      FlatSlice(a, r, n);
      assert n == SIZE - r ==> a[r..] == a[r..r + n];
      RingPart(a, r, w, n);
    }
  }

  /** The failing input: one byte that differs, and a socket that takes everything. */
  lemma LateCopyFails(a: slots, r: nat, v: nat, w: nat, n: nat) returns (image: seq<byte>, k: Socket)
    requires r < SIZE && v < SIZE && w < SIZE && r != w && Used(r, v) <= Used(r, w) && n > 0
    requires v != w && (v != 0 || r == 0)
    ensures |image| == n && !Fifo(a, r, w, image, Send(a, r, v, image, k))
  {
    image := Unlike(a[v], n);
    if v == r {
      k := Socket(SIZE, SIZE, 0);
      StaleSize(a, r, image, k);
      OldPastNew(a, r, w, image, k);
    } else {
      k := Socket(SIZE, SIZE, n);
      ImageAheadOfHeader(a, r, v, w, image);
      OutOfPlace(Unread(a, r, v), image, Unread(a, v, w), a[v]);
    }
  }

  /** n bytes, all different from b. */
  function Unlike(b: byte, n: nat): (s: seq<byte>)
    ensures |s| == n && forall i :: 0 <= i < n ==> s[i] != b
  {
    seq(n, _ => if b == 0 then 1 else 0)
  }

  lemma OldPastNew(a: slots, r: nat, w: nat, image: seq<byte>, k: Socket)
    requires r < SIZE && w < SIZE && k == Socket(SIZE, SIZE, 0)
    ensures !Fifo(a, r, w, image, Send(a, r, r, image, k))
  {
    var o := Send(a, r, r, image, k);
    assert |o.bytes| == SIZE && o.oob == image && o.readPos == r;
    assert |o.bytes + Unread(a, o.readPos, w) + o.oob| != |Unread(a, r, w) + image|;
  }

  lemma OutOfPlace(x: seq<byte>, image: seq<byte>, y: seq<byte>, b: byte)
    requires image != [] && y != [] && y[0] == b && image[0] != b
    ensures x + image + y != x + y + image
  {
    assert (x + image + y)[|x|] == image[0] && (x + y + image)[|x|] == b;
  }

  /**
    * With a copy that has become old, a socket that takes everything gets the
    * image in front of what was committed since, the header of the image among
    * it; no image is left to wait for, but the header still is in the ring.
    */
  lemma ImageAheadOfHeader(a: slots, r: nat, v: nat, w: nat, image: seq<byte>)
    requires r < SIZE && v < SIZE && w < SIZE && v != r && v != w && v != 0 && Used(r, v) <= Used(r, w)
    ensures Send(a, r, v, image, Socket(SIZE, SIZE, |image|)) == Outcome(true, Unread(a, r, v) + image, v, [])
    ensures Unread(a, r, v) + Unread(a, v, w) == Unread(a, r, w)
    ensures Unread(a, v, w) != [] && Unread(a, v, w)[0] == a[v]
  {
    var k := Socket(SIZE, SIZE, |image|);
    CompleteSendFailsIff(a, r, v, image, k);
    assert Send(a, r, v, image, k).readPos == v;
    ConsumeIsDrop(a, r, w, Used(r, v));
    assert |Unread(a, v, w)| == Used(v, w) > 0;
    assert Unread(a, v, w)[0] == a[Pos(v + 0)];
  }

  // ------------------------------------------------------- the whole wait

  /**
    * What the turns until the image is gone come to, and how many of them begin
    * with the image in place; not `on`: a send has failed and stopped the capture.
    */
  datatype Shown = Shown(on: bool, sent: seq<byte>, readPos: nat, turns: nat) {
    function After(before: seq<byte>, n: nat): Shown {
      Shown(on, before + sent, readPos, n + turns)
    }
  }

  /** How far the ring is from the next image send: a ring that looks empty is gone through once more. */
  function Distance(r: nat, w: nat): nat
    requires r < SIZE && w < SIZE
  {
    if r == w then SIZE else Used(r, w)
  }

  /** Turns with fresh copies, from the n-th answer on. */
  function Show(a: slots, r: nat, w: nat, oob: seq<byte>, answers: nat -> Socket, n: nat): Shown
    requires r < SIZE && w < SIZE
    decreases |oob|, Distance(r, w)
  {
    if oob == [] then Shown(true, [], r, 0)
    else
      var o := Send(a, r, w, oob, answers(n));
      if !o.ok then Shown(false, o.bytes, o.readPos, 1)
      else
        ImageProgress(a, r, w, oob, answers(n));
        Show(a, o.readPos, w, o.oob, answers, n + 1).After(o.bytes, 1)
  }

  /** An image that waits needs a turn, and one that is gone needs none. */
  lemma SomeTurn(a: slots, r: nat, w: nat, oob: seq<byte>, answers: nat -> Socket, n: nat)
    requires r < SIZE && w < SIZE
    ensures Show(a, r, w, oob, answers, n).turns > 0 <==> oob != []
  {
    hide Send;
  }

  lemma NoTurn(a: slots, r: nat, w: nat, answers: nat -> Socket, n: nat)
    requires r < SIZE && w < SIZE
    ensures Show(a, r, w, [], answers, n) == Shown(true, [], r, 0)
  {
  }

  lemma AfterNothing(s: Shown)
    ensures s.After([], 0) == s
  {
  }

  /** The same behind the rest of the turn that is under way at p. */
  function ShowFrom(a: slots, r: nat, w: nat, p: Point, oob: seq<byte>, k: Socket, answers: nat -> Socket): Shown
    requires r < SIZE && w < SIZE && (p.Loaded? || p.Begun? || p.Second? ==> p.copy < SIZE)
  {
    var o := Rest(a, r, p, oob, k);
    if !o.ok then Shown(false, o.bytes, o.readPos, 0)
    else Show(a, o.readPos, w, o.oob, answers, 0).After(o.bytes, 0)
  }

  /** The turn under way comes to the image before all of the ring is sent. */
  predicate Early(a: slots, r: nat, w: nat, p: Point, k: Socket)
    requires r < SIZE && w < SIZE && May(p, r, w)
  {
    RingRest(a, r, p, k).complete && |RingRest(a, r, p, k).bytes| < Used(r, w)
  }

  /**
    * Either the turn under way comes to the image just when it has sent all of the
    * ring, or it leaves part of the ring and the first later turn that sends all
    * of the ring comes to it; and there the socket takes it in one piece.
    */
  predicate InOrder(a: slots, r: nat, w: nat, p: Point, n: nat, k: Socket, answers: nat -> Socket)
    requires r < SIZE && w < SIZE && May(p, r, w)
  {
    var q := RingRest(a, r, p, k);
    if q.complete then |q.bytes| == Used(r, w) && k.oob >= n
    else |q.bytes| < Used(r, w) && answers(ImageTurn(a, q.readPos, w, answers, 0)).oob >= n
  }

  predicate Ordered(a: slots, r: nat, w: nat, image: seq<byte>, s: Shown)
    requires r < SIZE && w < SIZE
  {
    s.sent == Unread(a, r, w) + image && s.readPos == w
  }

  lemma {:induction false} StaleShow(a: slots, r: nat, w: nat, oob: seq<byte>, sent: seq<byte>, total: nat,
                                     answers: nat -> Socket, n: nat)
    requires r < SIZE && w < SIZE && Stale(r, w, oob, sent, total) && (oob == [] ==> r == w)
    requires Show(a, r, w, oob, answers, n).on
    ensures |sent| + |Show(a, r, w, oob, answers, n).sent| > total
    decreases |oob|, Distance(r, w)
  {
    if oob != [] {
      var o := Send(a, r, w, oob, answers(n));
      ImageProgress(a, r, w, oob, answers(n));
      StaleTurn(a, r, w, oob, sent, total, answers(n));
      if o.oob == [] {
        GoneAtEnd(a, r, w, oob, answers(n));
      }
      hide Send, Stale;
      StaleShow(a, o.readPos, w, o.oob, sent + o.bytes, total, answers, n + 1);
    }
  }

  lemma {:induction false} FreshShow(a: slots, r: nat, w: nat, oob: seq<byte>, sent: seq<byte>, contents: seq<byte>,
                                     image: seq<byte>, answers: nat -> Socket, n: nat, first: nat)
    requires r < SIZE && w < SIZE && Fresh(a, r, w, oob, sent, contents, image, answers, n, first)
    requires (oob == [] ==> r == w) && Show(a, r, w, oob, answers, n).on
    ensures var s := Show(a, r, w, oob, answers, n);
            if answers(first).oob >= |image| then sent + s.sent == contents + image && s.readPos == w
            else |sent + s.sent| > |contents + image|
    decreases |oob|, Distance(r, w)
  {
    if oob == [] {
      assert sent + [] == sent;
    } else {
      var o := Send(a, r, w, oob, answers(n));
      ImageProgress(a, r, w, oob, answers(n));
      FreshTurn(a, r, w, oob, sent, contents, image, answers, n, first);
      if o.oob == [] {
        GoneAtEnd(a, r, w, oob, answers(n));
      }
      var s := Show(a, o.readPos, w, o.oob, answers, n + 1);
      Associative(sent, o.bytes, s.sent);
      hide Send, Stale, Fresh, Show, ImageTurn;
      if o.oob != [] && o.readPos == w {
        StaleShow(a, o.readPos, w, o.oob, sent + o.bytes, |contents + image|, answers, n + 1);
      } else {
        FreshShow(a, o.readPos, w, o.oob, sent + o.bytes, contents, image, answers, n + 1, first);
      }
    }
  }

  lemma NotAtEnd(r: nat, w: nat, n: nat)
    requires r < SIZE && w < SIZE && n < Used(r, w)
    ensures Pos(r + n) != w
  {
  }

  lemma FreshAt(a: slots, r: nat, w: nat, image: seq<byte>, q: RingSends, answers: nat -> Socket)
    requires r < SIZE && w < SIZE && |q.bytes| < Used(r, w) && image != []
    requires q.bytes == Slice(a, r, |q.bytes|) && q.readPos == Pos(r + |q.bytes|)
    ensures Fresh(a, q.readPos, w, image, q.bytes, Unread(a, r, w), image, answers, 0,
                  ImageTurn(a, q.readPos, w, answers, 0))
  {
    NotAtEnd(r, w, |q.bytes|);
    ConsumeIsDrop(a, r, w, |q.bytes|);
    hide Slice, ImageTurn, Unread, Used, Pos;
  }

  /** The ring part has left some of the ring: order is kept so far. */
  lemma FreshAfter(a: slots, r: nat, w: nat, p: Point, image: seq<byte>, k: Socket, answers: nat -> Socket)
    requires r < SIZE && w < SIZE && May(p, r, w) && image != [] && RingRest(a, r, p, k).ok
    requires |RingRest(a, r, p, k).bytes| < Used(r, w)
    ensures var q := RingRest(a, r, p, k);
            Fresh(a, q.readPos, w, image, q.bytes, Unread(a, r, w), image, answers, 0,
                  ImageTurn(a, q.readPos, w, answers, 0))
  {
    MayBounds(p, r, w);
    hide *;
    RingRestIsSlice(a, r, p, k);
    FreshAt(a, r, w, image, RingRest(a, r, p, k), answers);
  }

  lemma MayBounds(p: Point, r: nat, w: nat)
    requires r < SIZE && w < SIZE && May(p, r, w)
    ensures (p.Loaded? || p.Begun? || p.Second? ==> p.copy < SIZE) && (p.Second? ==> r == 0)
  {
  }

  /** It has gone to the end of the ring or past it: too much is sent, or about to be. */
  lemma StaleAfter(a: slots, r: nat, w: nat, p: Point, image: seq<byte>, k: Socket)
    requires r < SIZE && w < SIZE && May(p, r, w) && image != [] && RingRest(a, r, p, k).ok
    requires |RingRest(a, r, p, k).bytes| >= Used(r, w)
    ensures var q := RingRest(a, r, p, k);
            Stale(q.readPos, w, image, q.bytes, |Unread(a, r, w) + image|)
  {
    RingRestIsSlice(a, r, p, k);
    hide RingRest, Slice;
  }

  /** A turn under way that leaves part of the ring, or runs over it, without coming to the image. */
  lemma JudgeIncomplete(a: slots, r: nat, w: nat, p: Point, image: seq<byte>, k: Socket, answers: nat -> Socket)
    requires r < SIZE && w < SIZE && May(p, r, w) && image != []
    requires ShowFrom(a, r, w, p, image, k, answers).on && !RingRest(a, r, p, k).complete
    ensures var s := ShowFrom(a, r, w, p, image, k, answers);
            if InOrder(a, r, w, p, |image|, k, answers) then Ordered(a, r, w, image, s)
            else |s.sent| > |Unread(a, r, w) + image|
  {
    var q := RingRest(a, r, p, k);
    assert q.ok && Rest(a, r, p, image, k) == Outcome(true, q.bytes, q.readPos, image);
    hide RingRest, Rest, Unread, Used, Fresh, Stale, ImageTurn, Show;
    if |q.bytes| < Used(r, w) {
      FreshAfter(a, r, w, p, image, k, answers);
      FreshShow(a, q.readPos, w, image, q.bytes, Unread(a, r, w), image, answers, 0,
                ImageTurn(a, q.readPos, w, answers, 0));
    } else {
      StaleAfter(a, r, w, p, image, k);
      StaleShow(a, q.readPos, w, image, q.bytes, |Unread(a, r, w) + image|, answers, 0);
    }
  }

  /** One that comes to the image just when all of the ring is sent. */
  lemma JudgeInTime(a: slots, r: nat, w: nat, p: Point, image: seq<byte>, k: Socket, answers: nat -> Socket)
    requires r < SIZE && w < SIZE && May(p, r, w) && image != []
    requires ShowFrom(a, r, w, p, image, k, answers).on && RingRest(a, r, p, k).complete
    requires |RingRest(a, r, p, k).bytes| == Used(r, w)
    ensures var s := ShowFrom(a, r, w, p, image, k, answers);
            if k.oob >= |image| then Ordered(a, r, w, image, s) else |s.sent| > |Unread(a, r, w) + image|
  {
    var q := RingRest(a, r, p, k);
    RingRestIsSlice(a, r, p, k);
    var j := Accepted(k.oob, |image|);
    assert q.ok && j > 0 && Rest(a, r, p, image, k) == Outcome(true, q.bytes + image[..j], q.readPos, image[j..]);
    assert q.readPos == w && q.bytes == Unread(a, r, w);
    hide RingRest, Rest, Unread, Slice;
    if k.oob >= |image| {
      assert image[..j] == image && image[j..] == [];
      assert q.bytes + image + [] == q.bytes + image;
    } else {
      assert Stale(w, w, image[j..], q.bytes + image[..j], |Unread(a, r, w) + image|);
      hide Stale;
      StaleShow(a, w, w, image[j..], q.bytes + image[..j], |Unread(a, r, w) + image|, answers, 0);
    }
  }

  /** One that comes to it after going over the whole ring once more. */
  lemma JudgeOver(a: slots, r: nat, w: nat, p: Point, image: seq<byte>, k: Socket, answers: nat -> Socket)
    requires r < SIZE && w < SIZE && May(p, r, w) && image != []
    requires ShowFrom(a, r, w, p, image, k, answers).on && RingRest(a, r, p, k).complete
    requires |RingRest(a, r, p, k).bytes| > Used(r, w)
    ensures |ShowFrom(a, r, w, p, image, k, answers).sent| > |Unread(a, r, w) + image|
  {
    var q := RingRest(a, r, p, k);
    RingRestIsSlice(a, r, p, k);
    var j := Accepted(k.oob, |image|);
    assert q.ok && j > 0 && Rest(a, r, p, image, k) == Outcome(true, q.bytes + image[..j], q.readPos, image[j..]);
    if j < |image| {
      assert Stale(q.readPos, w, image[j..], q.bytes + image[..j], |Unread(a, r, w) + image|);
      hide RingRest, Rest, Unread, Slice, Stale, Used;
      StaleShow(a, q.readPos, w, image[j..], q.bytes + image[..j], |Unread(a, r, w) + image|, answers, 0);
    }
  }

  lemma SliceParts(a: slots, r: nat, w: nat, t: nat)
    requires r < SIZE && w < SIZE && t < Used(r, w)
    ensures Slice(a, r, t) + [a[Pos(r + t)]] <= Unread(a, r, w)
  {
    assert Unread(a, r, w)[..t] == Slice(a, r, t) && Unread(a, r, w)[t] == a[Pos(r + t)];
  }

  lemma ImageFirst(bytes: seq<byte>, image: seq<byte>, j: nat, more: seq<byte>)
    requires 0 < j <= |image|
    ensures bytes + [image[0]] <= bytes + image[..j] + more
  {
    assert (bytes + image[..j] + more)[..|bytes| + 1] == bytes + [image[0]];
  }

  /** One that comes to it too early: image bytes go out where ring bytes should. */
  lemma JudgeEarly(a: slots, r: nat, w: nat, p: Point, image: seq<byte>, k: Socket, answers: nat -> Socket)
    requires r < SIZE && w < SIZE && May(p, r, w) && image != []
    requires ShowFrom(a, r, w, p, image, k, answers).on && Early(a, r, w, p, k)
    ensures var q, s := RingRest(a, r, p, k), ShowFrom(a, r, w, p, image, k, answers);
            && k.oob > 0 && q.bytes + [image[0]] <= s.sent
            && q.bytes + [a[q.readPos]] <= Unread(a, r, w)
            && (k.oob >= |image| ==> s.sent == q.bytes + image && s.readPos == q.readPos != w)
  {
    var q := RingRest(a, r, p, k);
    RingRestIsSlice(a, r, p, k);
    var j, t := Accepted(k.oob, |image|), |q.bytes|;
    assert q.ok && j > 0 && Rest(a, r, p, image, k) == Outcome(true, q.bytes + image[..j], q.readPos, image[j..]);
    hide RingRest;
    SliceParts(a, r, w, t);
    NotAtEnd(r, w, t);
    hide Slice, Unread, Used, Pos, May;
    ImageFirst(q.bytes, image, j, Show(a, q.readPos, w, image[j..], answers, 0).sent);
    hide Rest, Early;
    if k.oob >= |image| {
      assert image[..j] == image && image[j..] == [];
      assert q.bytes + image + [] == q.bytes + image;
    }
  }

  /** What one wait comes to, image by image. */
  lemma Judge(a: slots, r: nat, w: nat, p: Point, image: seq<byte>, k: Socket, answers: nat -> Socket)
    requires r < SIZE && w < SIZE && May(p, r, w) && image != []
    requires ShowFrom(a, r, w, p, image, k, answers).on
    ensures var s := ShowFrom(a, r, w, p, image, k, answers);
            if InOrder(a, r, w, p, |image|, k, answers) then Ordered(a, r, w, image, s)
            else Early(a, r, w, p, k) || |s.sent| > |Unread(a, r, w) + image|
  {
    var q := RingRest(a, r, p, k);
    if !q.complete {
      JudgeIncomplete(a, r, w, p, image, k, answers);
    } else if |q.bytes| == Used(r, w) {
      JudgeInTime(a, r, w, p, image, k, answers);
    } else if |q.bytes| > Used(r, w) {
      JudgeOver(a, r, w, p, image, k, answers);
    }
    hide RingRest, ShowFrom, Used, Unread, ImageTurn;
  }

  // Whether the capture stays on depends on the length of the image only.

  lemma SameCourse(a: slots, r: nat, w: nat, x: seq<byte>, y: seq<byte>, k: Socket)
    requires r < SIZE && w < SIZE && |x| == |y|
    ensures var o, p := Send(a, r, w, x, k), Send(a, r, w, y, k);
            o.ok == p.ok && o.readPos == p.readPos && |o.oob| == |p.oob|
  {
  }

  lemma {:induction false} SameShow(a: slots, r: nat, w: nat, x: seq<byte>, y: seq<byte>, answers: nat -> Socket,
                                    n: nat)
    requires r < SIZE && w < SIZE && |x| == |y|
    ensures Show(a, r, w, x, answers, n).on == Show(a, r, w, y, answers, n).on
    decreases |x|, Distance(r, w)
  {
    if x != [] {
      SameCourse(a, r, w, x, y, answers(n));
      var o, p := Send(a, r, w, x, answers(n)), Send(a, r, w, y, answers(n));
      if o.ok {
        ImageProgress(a, r, w, x, answers(n));
        hide Send;
        SameShow(a, o.readPos, w, o.oob, p.oob, answers, n + 1);
      }
    }
  }

  lemma SameShowFrom(a: slots, r: nat, w: nat, p: Point, x: seq<byte>, y: seq<byte>, k: Socket, answers: nat -> Socket)
    requires r < SIZE && w < SIZE && May(p, r, w) && |x| == |y|
    ensures ShowFrom(a, r, w, p, x, k, answers).on == ShowFrom(a, r, w, p, y, k, answers).on
  {
    var o, q := Rest(a, r, p, x, k), Rest(a, r, p, y, k);
    assert o.ok == q.ok && o.readPos == q.readPos && |o.oob| == |q.oob|;
    hide Rest, RingRest, Show;
    SameShow(a, o.readPos, w, o.oob, q.oob, answers, 0);
  }

  /** No send fails before the image is gone. */
  predicate StaysOn(a: slots, r: nat, w: nat, p: Point, n: nat, k: Socket, answers: nat -> Socket)
    requires r < SIZE && w < SIZE && May(p, r, w)
  {
    ShowFrom(a, r, w, p, seq(n, _ => 0), k, answers).on
  }

  /**
    * While the capture stays on, the ring and the image go out whole and in order
    * for every image of n bytes exactly when the sender comes to the image just
    * when it has sent all of the ring and the socket then takes it in one piece.
    */
  lemma ImageOrderIff(a: slots, r: nat, w: nat, p: Point, n: nat, k: Socket, answers: nat -> Socket)
    requires r < SIZE && w < SIZE && May(p, r, w) && n > 0 && StaysOn(a, r, w, p, n, k, answers)
    ensures (forall image: seq<byte> :: |image| == n ==>
               Ordered(a, r, w, image, ShowFrom(a, r, w, p, image, k, answers)))
            <==> InOrder(a, r, w, p, n, k, answers)
  {
    hide ShowFrom, InOrder, Early, Unread;
    if InOrder(a, r, w, p, n, k, answers) {
      forall image: seq<byte> | |image| == n
        ensures Ordered(a, r, w, image, ShowFrom(a, r, w, p, image, k, answers))
      {
        SameShowFrom(a, r, w, p, image, seq(n, _ => 0), k, answers);
        Judge(a, r, w, p, image, k, answers);
      }
    } else {
      var image := Disordered(a, r, w, p, n, k, answers);
    }
  }

  lemma Disordered(a: slots, r: nat, w: nat, p: Point, n: nat, k: Socket, answers: nat -> Socket)
    returns (image: seq<byte>)
    requires r < SIZE && w < SIZE && May(p, r, w) && n > 0 && StaysOn(a, r, w, p, n, k, answers)
    requires !InOrder(a, r, w, p, n, k, answers)
    ensures |image| == n && !Ordered(a, r, w, image, ShowFrom(a, r, w, p, image, k, answers))
  {
    var q := RingRest(a, r, p, k);
    image := Unlike(a[q.readPos], n);
    SameShowFrom(a, r, w, p, image, seq(n, _ => 0), k, answers);
    var s := ShowFrom(a, r, w, p, image, k, answers);
    Judge(a, r, w, p, image, k, answers);
    if Early(a, r, w, p, k) {
      JudgeEarly(a, r, w, p, image, k, answers);
      hide ShowFrom, InOrder, Early, Unread, RingRest;
      assert s.sent[|q.bytes|] == image[0] && (Unread(a, r, w) + image)[|q.bytes|] == a[q.readPos];
    }
  }
}
