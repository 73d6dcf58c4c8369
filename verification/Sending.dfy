// One call of gator_send as a function of the ring, the two positions, the
// out-of-band bytes and what the socket accepts, and what it guarantees.

module Sending {
  import opened Bytes
  import opened Ring

  /** What the socket answers to the (at most) three send calls; zero or less is an error. */
  datatype Socket = Socket(first: int, second: int, oob: int)

  /** send never accepts more than it is given. */
  function Accepted(answer: int, want: nat): (n: int)
    ensures n <= want
  {
    if answer > want then want else answer
  }

  datatype Outcome = Outcome(ok: bool, bytes: seq<byte>, readPos: nat, oob: seq<byte>)

  /** The part of gator_send after the ring: image bytes go out only behind a complete send. */
  function SendOob(complete: bool, sent: seq<byte>, r: nat, oob: seq<byte>, k: Socket): Outcome {
    if complete && |oob| > 0 then
      var n := Accepted(k.oob, |oob|);
      if n <= 0 then Outcome(false, sent, r, oob)
      else Outcome(true, sent + oob[..n], r, oob[n..])
    else Outcome(true, sent, r, oob)
  }

  function Send(a: slots, r: nat, w: nat, oob: seq<byte>, k: Socket): (o: Outcome)
    requires r < SIZE && w < SIZE
    ensures o.readPos < SIZE
  {
    if w > r then
      var n := Accepted(k.first, w - r);
      if n <= 0 then Outcome(false, [], r, oob)
      else SendOob(n == w - r, a[r..r + n], Pos(r + n), oob, k)
    else
      var n := Accepted(k.first, SIZE - r);
      if n <= 0 then Outcome(false, [], r, oob)
      else if n < SIZE - r then SendOob(false, a[r..r + n], Pos(r + n), oob, k)
      else
        var n2 := Accepted(k.second, w);
        if n2 <= 0 then Outcome(false, a[r..], 0, oob)
        else SendOob(n2 == w, a[r..] + a[..n2], Pos(n2), oob, k)
  }

  /** First in, first out: what was sent, followed by what is still to be sent, is what was to be sent. */
  predicate Fifo(a: slots, r: nat, w: nat, oob: seq<byte>, o: Outcome)
    requires r < SIZE && w < SIZE && o.readPos < SIZE
  {
    o.bytes + Unread(a, o.readPos, w) + o.oob == Unread(a, r, w) + oob
  }

  lemma FlatSlice(a: slots, r: nat, n: nat)
    requires r < SIZE && r + n <= SIZE
    ensures Slice(a, r, n) == a[r..r + n]
  {
    forall i | 0 <= i < n
      ensures Slice(a, r, n)[i] == a[r..r + n][i]
    {
      assert Pos(r + i) == r + i;
    }
  }

  /** A send of the ring alone that stops anywhere takes a prefix off the unread bytes. */
  lemma RingPart(a: slots, r: nat, w: nat, n: nat)
    requires r < SIZE && w < SIZE && n <= Used(r, w)
    ensures Slice(a, r, n) + Unread(a, Pos(r + n), w) == Unread(a, r, w)
    ensures n == Used(r, w) ==> Unread(a, Pos(r + n), w) == []
  {
    ConsumeIsDrop(a, r, w, n);
  }

  /** The bytes taken off the ring by a call whose two ring sends accepted n bytes in all. */
  lemma OobPart(a: slots, r: nat, w: nat, oob: seq<byte>, n: nat, k: Socket)
    requires r < SIZE && w < SIZE && n <= Used(r, w)
    ensures var o := SendOob(n == Used(r, w), Slice(a, r, n), Pos(r + n), oob, k);
            && o.readPos == Pos(r + n) && Fifo(a, r, w, oob, o)
            && (o.oob != oob ==> Unread(a, o.readPos, w) == [])
  {
    hide Slice, Used;
    RingPart(a, r, w, n);
    var o := SendOob(n == Used(r, w), Slice(a, r, n), Pos(r + n), oob, k);
    if o.oob != oob {
      assert o.bytes + [] + o.oob == Slice(a, r, n) + oob;
    } else {
      assert o.bytes == Slice(a, r, n);
    }
  }

  /** With unread bytes in the ring every call is first in, first out, whatever the socket accepts. */
  lemma SendIsFifo(a: slots, r: nat, w: nat, oob: seq<byte>, k: Socket)
    requires r < SIZE && w < SIZE && r != w
    ensures Fifo(a, r, w, oob, Send(a, r, w, oob, k))
    ensures Send(a, r, w, oob, k).oob != oob ==> Unread(a, Send(a, r, w, oob, k).readPos, w) == []
  {
    var want := if w > r then w - r else SIZE - r;
    if Accepted(k.first, want) <= 0 {
      hide Slice, SendOob;
      assert [] + Unread(a, r, w) + oob == Unread(a, r, w) + oob;
    } else if w < r && Accepted(k.first, want) == want {
      WrappedSend(a, r, w, oob, k);
    } else {
      FlatSend(a, r, w, oob, k, want);
    }
  }

  /** The case in which one ring send is all. */
  lemma FlatSend(a: slots, r: nat, w: nat, oob: seq<byte>, k: Socket, want: nat)
    requires r < SIZE && w < SIZE && r != w && want == (if w > r then w - r else SIZE - r)
    requires Accepted(k.first, want) > 0 && (w < r ==> Accepted(k.first, want) < want)
    ensures Fifo(a, r, w, oob, Send(a, r, w, oob, k))
    ensures Send(a, r, w, oob, k).oob != oob ==> Unread(a, Send(a, r, w, oob, k).readPos, w) == []
  {
    var n := Accepted(k.first, want);
    hide Slice, SendOob, Fifo;
    FlatSlice(a, r, n);
    OobPart(a, r, w, oob, n, k);
  }

  /** The case in which the ring sends cross the wrap point. */
  lemma WrappedSend(a: slots, r: nat, w: nat, oob: seq<byte>, k: Socket)
    requires w < r < SIZE && k.first >= SIZE - r
    ensures Fifo(a, r, w, oob, Send(a, r, w, oob, k))
    ensures Send(a, r, w, oob, k).oob != oob ==> Unread(a, Send(a, r, w, oob, k).readPos, w) == []
  {
    hide Slice, SendOob;
    var tail, n2 := SIZE - r, Accepted(k.second, w);
    assert Used(r, w) == tail + w && a[r..r + tail] == a[r..];
    FlatSlice(a, r, tail);
    if n2 <= 0 {
      RingPart(a, r, w, tail);
    } else {
      FlatSlice(a, 0, n2);
      SliceSplit(a, r, tail, n2);
      assert Pos(r + (tail + n2)) == Pos(n2) && a[0..n2] == a[..n2];
      OobPart(a, r, w, oob, tail + n2, k);
    }
  }

  /**
    * gator_send tells a full ring from an empty one by nothing: called with the
    * two positions equal it sends old ring bytes. So it is first in, first out
    * for every answer of the socket exactly when the positions differ.
    */
  lemma SendFifoIff(a: slots, r: nat, w: nat, oob: seq<byte>)
    requires r < SIZE && w < SIZE
    ensures (forall k: Socket :: Fifo(a, r, w, oob, Send(a, r, w, oob, k))) <==> r != w
  {
    if r != w {
      forall k: Socket
        ensures Fifo(a, r, w, oob, Send(a, r, w, oob, k))
      {
        SendIsFifo(a, r, w, oob, k);
      }
    } else {
      var o := Send(a, r, w, oob, Socket(1, 0, 0));
      if r == SIZE - 1 && w == SIZE - 1 {
        assert o.readPos == 0 && |Unread(a, 0, w)| == SIZE - 1;
      } else {
        assert o.readPos == r + 1 && |Unread(a, r + 1, w)| == SIZE - 1;
      }
      assert !Fifo(a, r, w, oob, o);
    }
  }

  /**
    * With a socket that accepts everything the call still fails, and so stops
    * the capture, exactly when the write position is slot 0: the second send is
    * then empty and returns 0.
    */
  lemma CompleteSendFailsIff(a: slots, r: nat, w: nat, oob: seq<byte>, k: Socket)
    requires r < SIZE && w < SIZE
    requires k.first >= SIZE && k.second >= SIZE && k.oob >= |oob|
    ensures Send(a, r, w, oob, k).ok <==> w != 0
    ensures w != 0 && r != w ==>
              Send(a, r, w, oob, k).bytes == Unread(a, r, w) + oob && Send(a, r, w, oob, k).oob == []
  {
    if w != 0 && r != w {
      var o := Send(a, r, w, oob, k);
      SendIsFifo(a, r, w, oob, k);
      assert o.readPos == w && o.oob == [];
      assert o.bytes + [] + [] == o.bytes;
    }
  }

  lemma NoImage(a: slots, r: nat, w: nat, k: Socket)
    requires r < SIZE && w < SIZE
    ensures Send(a, r, w, [], k).oob == []
  {
  }

  /** A call that does not fail makes progress on the ring. */
  lemma SendProgress(a: slots, r: nat, w: nat, oob: seq<byte>, k: Socket)
    requires r < SIZE && w < SIZE && r != w
    ensures Used(Send(a, r, w, oob, k).readPos, w) <= Used(r, w)
    ensures Send(a, r, w, oob, k).ok ==> Used(Send(a, r, w, oob, k).readPos, w) < Used(r, w)
  {
  }

  /** With an image waiting it makes progress on the image, or leaves the ring unsent in part and goes on there. */
  lemma ImageProgress(a: slots, r: nat, w: nat, oob: seq<byte>, k: Socket)
    requires r < SIZE && w < SIZE && oob != [] && Send(a, r, w, oob, k).ok
    ensures var o := Send(a, r, w, oob, k);
            |o.oob| < |oob|
            || (o.oob == oob && o.readPos != w && (r != w ==> Used(o.readPos, w) < Used(r, w)))
  {
  }

  /** What an image changes about a call on a ring with unread bytes: nothing before the ring is sent in full. */
  lemma ImageBehindRing(a: slots, r: nat, w: nat, oob: seq<byte>, k: Socket)
    requires r < SIZE && w < SIZE && r != w && oob != []
    ensures var o, p := Send(a, r, w, oob, k), Send(a, r, w, [], k);
            && o.readPos == p.readPos
            && (if p.ok && p.readPos == w then
                  (o.ok <==> k.oob > 0) && o.oob == (if k.oob > 0 then oob[Accepted(k.oob, |oob|)..] else oob)
                else
                  o.ok == p.ok && o.oob == oob)
  {
  }

  lemma GoneAtEnd(a: slots, r: nat, w: nat, oob: seq<byte>, k: Socket)
    requires r < SIZE && w < SIZE && oob != [] && Send(a, r, w, oob, k).ok && Send(a, r, w, oob, k).oob == []
    ensures Send(a, r, w, oob, k).readPos == w
  {
  }

  /** The turn, counted from n, in which the ring is sent in full and an image behind it would be met. */
  function ImageTurn(a: slots, r: nat, w: nat, answers: nat -> Socket, n: nat): (i: nat)
    requires r < SIZE && w < SIZE
    ensures i >= n
    decreases Used(r, w)
  {
    var o := Send(a, r, w, [], answers(n));
    if r != w && o.ok && o.readPos != w then
      SendProgress(a, r, w, [], answers(n));
      ImageTurn(a, o.readPos, w, answers, n + 1)
    else n
  }

  /**
    * A short image send leaves the ring empty with image bytes still to go. The
    * next call then either fails, and stops the capture, or sends an old byte of
    * the ring; it is never first in, first out unless it sends nothing.
    */
  lemma ShortImageGoesStale(a: slots, r: nat, w: nat, oob: seq<byte>, k: Socket, next: Socket)
    requires r < SIZE && 0 < w < SIZE && r != w
    requires k.first >= SIZE && k.second >= SIZE && 0 < k.oob < |oob|
    ensures var o := Send(a, r, w, oob, k);
            && o.ok && o.readPos == w && o.oob == oob[k.oob..] != []
            && var stale := Send(a, w, w, o.oob, next);
               && (Fifo(a, w, w, o.oob, stale) <==> next.first <= 0)
               && (next.first <= 0 ==> !stale.ok && stale.bytes == [])
               && (next.first > 0 ==> stale.bytes != [] && stale.bytes[0] == a[w])
  {
    ImageBehindRing(a, r, w, oob, k);
    CompleteSendFailsIff(a, r, w, [], Socket(k.first, k.second, 0));
    StaleCall(a, w, oob[k.oob..], next);
  }

  lemma StaleCall(a: slots, w: nat, oob: seq<byte>, k: Socket)
    requires w < SIZE
    ensures var stale := Send(a, w, w, oob, k);
            && (Fifo(a, w, w, oob, stale) <==> k.first <= 0)
            && (k.first <= 0 ==> !stale.ok && stale.bytes == [])
            && (k.first > 0 ==> stale.bytes != [] && stale.bytes[0] == a[w])
  {
    StaleSize(a, w, oob, k);
  }

  /** Such a call adds the whole ring to what is sent and still to be sent. */
  lemma StaleSize(a: slots, w: nat, oob: seq<byte>, k: Socket)
    requires w < SIZE
    ensures var stale := Send(a, w, w, oob, k);
            && (k.first <= 0 ==> stale == Outcome(false, [], w, oob))
            && (k.first > 0 ==> |stale.bytes| + Used(stale.readPos, w) + |stale.oob| == |oob| + SIZE)
  {
  }

  lemma SendSize(a: slots, r: nat, w: nat, oob: seq<byte>, k: Socket)
    requires r < SIZE && w < SIZE && r != w
    ensures var o := Send(a, r, w, oob, k);
            |o.bytes| + Used(o.readPos, w) + |o.oob| == Used(r, w) + |oob|
  {
    hide Send, Used;
    SendIsFifo(a, r, w, oob, k);
  }

  // A run of calls that sends the ring and an image behind it.

  /**
    * Before the n-th turn, all is in order: the image is whole behind what is
    * left of the ring, or both have gone out.
    */
  predicate Fresh(a: slots, r: nat, w: nat, oob: seq<byte>, sent: seq<byte>, contents: seq<byte>, image: seq<byte>,
                  answers: nat -> Socket, n: nat, first: nat)
    requires r < SIZE && w < SIZE
  {
    if oob != [] then
      oob == image && r != w && sent + Unread(a, r, w) == contents && ImageTurn(a, r, w, answers, n) == first
    else
      sent == contents + image && answers(first).oob >= |image|
  }

  /** More has been sent, or is about to be, than there was to send. */
  predicate Stale(r: nat, w: nat, oob: seq<byte>, sent: seq<byte>, total: nat)
    requires r < SIZE && w < SIZE
  {
    |sent| + Used(r, w) + |oob| >= total + if r == w && oob != [] then 0 else 1
  }

  lemma StaleTurn(a: slots, r: nat, w: nat, oob: seq<byte>, sent: seq<byte>, total: nat, k: Socket)
    requires r < SIZE && w < SIZE && oob != [] && Stale(r, w, oob, sent, total) && Send(a, r, w, oob, k).ok
    ensures var o := Send(a, r, w, oob, k); Stale(o.readPos, w, o.oob, sent + o.bytes, total)
  {
    if r == w {
      StaleSize(a, w, oob, k);
    } else {
      SendSize(a, r, w, oob, k);
    }
    hide Send;
  }

  /** A turn that does not fail keeps the order, or leaves part of the image behind an empty ring. */
  lemma FreshTurn(a: slots, r: nat, w: nat, oob: seq<byte>, sent: seq<byte>, contents: seq<byte>, image: seq<byte>,
                  answers: nat -> Socket, n: nat, first: nat)
    requires r < SIZE && w < SIZE && oob != [] && Fresh(a, r, w, oob, sent, contents, image, answers, n, first)
    requires Send(a, r, w, oob, answers(n)).ok
    ensures var o := Send(a, r, w, oob, answers(n));
            if o.oob != [] && o.readPos == w then
              Stale(o.readPos, w, o.oob, sent + o.bytes, |contents + image|) && answers(first).oob < |image|
            else
              Fresh(a, o.readPos, w, o.oob, sent + o.bytes, contents, image, answers, n + 1, first)
  {
    var o := Send(a, r, w, oob, answers(n));
    ImageBehindRing(a, r, w, oob, answers(n));
    NextImageTurn(a, r, w, answers, n);
    SendIsFifo(a, r, w, oob, answers(n));
    hide Send, Used, ImageTurn, Slice;
    if o.readPos != w {
      Cancel(o.bytes + Unread(a, o.readPos, w), Unread(a, r, w), oob);
      Associative(sent, o.bytes, Unread(a, o.readPos, w));
    } else if o.oob == [] {
      EmptyRing(a, w);
      assert o.bytes + [] + [] == o.bytes;
      Associative(sent, Unread(a, r, w), image);
    } else {
      SendSize(a, r, w, oob, answers(n));
      EmptyRing(a, w);
    }
  }

  lemma EmptyRing(a: slots, w: nat)
    requires w < SIZE
    ensures Unread(a, w, w) == [] && Used(w, w) == 0
  {
  }

  lemma Cancel(x: seq<byte>, y: seq<byte>, z: seq<byte>)
    requires x + z == y + z
    ensures x == y
  {
    assert |x| == |y|;
    assert (x + z)[..|x|] == x && (y + z)[..|y|] == y;
  }

  lemma NextImageTurn(a: slots, r: nat, w: nat, answers: nat -> Socket, n: nat)
    requires r < SIZE && w < SIZE && r != w
    ensures var p := Send(a, r, w, [], answers(n));
            ImageTurn(a, r, w, answers, n) ==
            if p.ok && p.readPos != w then ImageTurn(a, p.readPos, w, answers, n + 1) else n
  {
  }
}
