// The sender's turn for one thread, step by step and as a whole, while no image
// waits: connect and load the write position, test for work, send on from the
// read position, send on from slot 0, post. Any number of commits may fall between
// the load and the sends.

module Turns {
  import opened Bytes
  import opened Ring
  import opened Sending
  import opened Images

  /** What one step meets: a connection attempt or the answers to its send calls. */
  datatype Act = Act(connected: int, socket: Socket)

  /** What the sender works on: the fields of the thread, the capture, and the point of the turn. */
  datatype View = View(read: nat, fd: int, sem: nat, on: bool, at: Point) {
    predicate Proper() {
      read < SIZE && (at.Loaded? || at.Begun? || at.Second? ==> at.copy < SIZE)
    }
  }

  datatype Moved = Moved(view: View, bytes: seq<byte>) {
    function Behind(before: seq<byte>): Moved {
      Moved(view, before + bytes)
    }
  }

  /** A stop of the capture, for this thread. */
  function Halted(s: View, w: nat): View {
    View(w, if s.fd > 0 then -1 else s.fd, s.sem + 1, false, Away)
  }

  /** The descriptor after a connection attempt, if there is one to make. */
  function Connected(s: View, act: Act): int {
    if s.fd < 0 then act.connected else s.fd
  }

  /** One step of the turn. */
  function Stepped(a: slots, w: nat, s: View, act: Act): (m: Moved)
    requires w < SIZE && s.Proper()
    ensures m.view.Proper()
  {
    match s.at
    case Away =>
      var t := s.(fd := Connected(s, act));
      Moved(if t.fd < 0 then Halted(t, w) else t.(at := Loaded(w)), [])
    case Loaded(v) => Moved(s.(at := if v != s.read then Begun(v) else Away), [])
    case Begun(v) =>
      var n := Accepted(act.socket.first, if v > s.read then v - s.read else SIZE - s.read);
      if n <= 0 then Moved(Halted(s, w), [])
      else Moved(s.(read := Pos(s.read + n), at := Follows(s.read, v, n)), a[s.read..s.read + n])
    case Second(v) =>
      var n := Accepted(act.socket.second, v);
      if n <= 0 then Moved(Halted(s, w), [])
      else Moved(s.(read := Pos(s.read + n), at := Sent(n == v)), a[..n])
    case Sent(_) => Moved(s.(sem := s.sem + 1, at := Away), [])
  }

  /** Any number of steps, as long as the capture is on. */
  function SteppedAll(a: slots, w: nat, s: View, acts: seq<Act>): (m: Moved)
    requires w < SIZE && s.Proper()
    ensures m.view.Proper()
    decreases |acts|
  {
    if acts == [] || !s.on then Moved(s, [])
    else
      var m := Stepped(a, w, s, acts[0]);
      SteppedAll(a, w, m.view, acts[1..]).Behind(m.bytes)
  }

  /** A whole turn: connect if need be, and one call of gator_send if there is work. */
  function Turned(a: slots, w: nat, s: View, act: Act): (m: Moved)
    requires w < SIZE && s.read < SIZE
    ensures m.view.read < SIZE
  {
    var t := s.(fd := Connected(s, act), at := Away);
    if t.fd < 0 then Moved(Halted(t, w), [])
    else if w == s.read then Moved(t, [])
    else
      var o := Send(a, s.read, w, [], act.socket);
      Moved(if o.ok then t.(read := o.readPos, sem := s.sem + 1) else Halted(t, w), o.bytes)
  }

  /** The number of steps of a turn. */
  function TurnLength(w: nat, s: View, act: Act): (n: nat)
    requires w < SIZE && s.read < SIZE
    ensures 1 <= n <= 5
  {
    var want := if w > s.read then w - s.read else SIZE - s.read;
    var n := Accepted(act.socket.first, want);
    if Connected(s, act) < 0 then 1
    else if w == s.read then 2
    else if n <= 0 then 3
    else if w > s.read || n < want || Accepted(act.socket.second, w) <= 0 then 4
    else 5
  }

  /** The same step over and over. */
  function Again(act: Act, n: nat): (acts: seq<Act>)
    ensures |acts| == n && (n > 0 ==> acts[0] == act && acts[1..] == Again(act, n - 1))
  {
    if n == 0 then [] else [act] + Again(act, n - 1)
  }

  lemma OneMore(a: slots, w: nat, s: View, act: Act, n: nat)
    requires w < SIZE && s.Proper() && s.on && n > 0
    ensures var m := Stepped(a, w, s, act);
            SteppedAll(a, w, s, Again(act, n)) == SteppedAll(a, w, m.view, Again(act, n - 1)).Behind(m.bytes)
  {
    hide Stepped;
  }

  lemma NoMore(a: slots, w: nat, s: View, act: Act, n: nat)
    requires w < SIZE && s.Proper() && (!s.on || n == 0)
    ensures SteppedAll(a, w, s, Again(act, n)) == Moved(s, [])
  {
    hide Stepped;
  }

  /** From a point at which the ring sends are over only the post is left. */
  lemma PostIsLeft(a: slots, w: nat, s: View, act: Act)
    requires w < SIZE && s.Proper() && s.on && s.at.Sent?
    ensures SteppedAll(a, w, s, Again(act, 1)) == Moved(s.(sem := s.sem + 1, at := Away), [])
  {
    OneMore(a, w, s, act, 1);
    NoMore(a, w, Stepped(a, w, s, act).view, act, 0);
  }

  lemma SecondIsLeft(a: slots, w: nat, s: View, act: Act)
    requires w < SIZE && s.Proper() && s.on && s.at == Second(w) && s.read == 0
    ensures var n := Accepted(act.socket.second, w);
            SteppedAll(a, w, s, Again(act, if n <= 0 then 1 else 2)) ==
            if n <= 0 then Moved(Halted(s, w), [])
            else Moved(s.(read := Pos(n), sem := s.sem + 1, at := Away), a[..n])
  {
    var n := Accepted(act.socket.second, w);
    var m := Stepped(a, w, s, act);
    OneMore(a, w, s, act, if n <= 0 then 1 else 2);
    if n <= 0 {
      NoMore(a, w, m.view, act, 0);
    } else {
      PostIsLeft(a, w, m.view, act);
      assert a[..n] + [] == a[..n];
    }
  }

  /** From the first send on, the steps are the call. */
  lemma CallIsLeft(a: slots, w: nat, s: View, act: Act, n: nat)
    requires w < SIZE && s.Proper() && s.on && s.fd >= 0 && s.at == Begun(w) && s.read != w
    requires n + 2 == TurnLength(w, s, act)
    ensures SteppedAll(a, w, s, Again(act, n)) == Turned(a, w, s, act)
  {
    var k := Accepted(act.socket.first, if w > s.read then w - s.read else SIZE - s.read);
    OneMore(a, w, s, act, n);
    if k <= 0 {
      NoMore(a, w, Stepped(a, w, s, act).view, act, 0);
    } else if w > s.read || k < SIZE - s.read {
      hide SteppedAll, Again;
      FlatCall(a, w, s, act);
    } else {
      hide SteppedAll, Again;
      RoundCall(a, w, s, act);
    }
  }

  lemma FlatCall(a: slots, w: nat, s: View, act: Act)
    requires w < SIZE && s.Proper() && s.on && s.fd >= 0 && s.at == Begun(w) && s.read != w
    requires var k := Accepted(act.socket.first, if w > s.read then w - s.read else SIZE - s.read);
             k > 0 && (w > s.read || k < SIZE - s.read)
    ensures var m := Stepped(a, w, s, act);
            SteppedAll(a, w, m.view, Again(act, 1)).Behind(m.bytes) == Turned(a, w, s, act)
  {
    hide SteppedAll, Again;
    var m := Stepped(a, w, s, act);
    PostIsLeft(a, w, m.view, act);
    assert m.bytes + [] == m.bytes;
  }

  lemma RoundCall(a: slots, w: nat, s: View, act: Act)
    requires w < SIZE && s.Proper() && s.on && s.fd >= 0 && s.at == Begun(w) && w < s.read
    requires Accepted(act.socket.first, SIZE - s.read) == SIZE - s.read
    ensures var m := Stepped(a, w, s, act);
            SteppedAll(a, w, m.view, Again(act, if Accepted(act.socket.second, w) <= 0 then 1 else 2)).Behind(m.bytes)
            == Turned(a, w, s, act)
  {
    hide SteppedAll, Again;
    var m := Stepped(a, w, s, act);
    SecondIsLeft(a, w, m.view, act);
    assert m.bytes == a[s.read..] && m.bytes + [] == m.bytes;
  }

  /**
    * The steps of a turn that meets one connection attempt and one set of answers
    * are, up to the first return to its beginning, the turn as a whole: the copy is
    * the write position, and what is sent, the read position and the verdict are
    * those of the one call of gator_send; a call that succeeds is followed by a post.
    */
  lemma StepsAreTurn(a: slots, w: nat, s: View, act: Act)
    requires w < SIZE && s.read < SIZE && s.on && s.at == Away
    ensures SteppedAll(a, w, s, Again(act, TurnLength(w, s, act))) == Turned(a, w, s, act)
    ensures Turned(a, w, s, act).view.at == Away
    ensures Connected(s, act) >= 0 ==> SteppedAll(a, w, s, Again(act, 1)).view.at == Loaded(w)
  {
    var n := TurnLength(w, s, act);
    var m := Stepped(a, w, s, act);
    OneMore(a, w, s, act, n);
    OneMore(a, w, s, act, 1);
    NoMore(a, w, m.view, act, 0);
    if n > 1 {
      var m2 := Stepped(a, w, m.view, act);
      OneMore(a, w, m.view, act, n - 1);
      if n == 2 {
        NoMore(a, w, m2.view, act, 0);
      } else {
        CallIsLeft(a, w, m2.view, act, n - 2);
        assert [] + ([] + Turned(a, w, s, act).bytes) == Turned(a, w, s, act).bytes;
      }
    }
  }

  /** Before that the turn is under way. */
  lemma TurnIsUnderWay(a: slots, w: nat, s: View, act: Act, n: nat)
    requires w < SIZE && s.read < SIZE && s.on && s.at == Away && 0 < n < TurnLength(w, s, act)
    ensures SteppedAll(a, w, s, Again(act, n)).view.at != Away
  {
    var m := Stepped(a, w, s, act);
    OneMore(a, w, s, act, n);
    if n == 1 {
      NoMore(a, w, m.view, act, 0);
    } else {
      var m2 := Stepped(a, w, m.view, act);
      OneMore(a, w, m.view, act, n - 1);
      if n == 2 {
        NoMore(a, w, m2.view, act, 0);
      } else {
        var m3 := Stepped(a, w, m2.view, act);
        OneMore(a, w, m2.view, act, n - 2);
        if n == 3 {
          NoMore(a, w, m3.view, act, 0);
        } else {
          OneMore(a, w, m3.view, act, 1);
          NoMore(a, w, Stepped(a, w, m3.view, act).view, act, 0);
        }
      }
    }
  }

  // ----------------------------------------------------------- turn by turn

  /** The state behind n whole turns, the i-th with connects(i) and answers(i), as long as the capture is on. */
  function After(a: slots, w: nat, s: View, connects: nat -> int, answers: nat -> Socket, n: nat): (m: Moved)
    requires w < SIZE && s.read < SIZE
    ensures m.view.read < SIZE
  {
    if n == 0 then Moved(s, [])
    else
      var m := After(a, w, s, connects, answers, n - 1);
      if m.view.on then Turned(a, w, m.view, Act(connects(n - 1), answers(n - 1))).Behind(m.bytes) else m
  }

  lemma NoneAfter(a: slots, w: nat, s: View, connects: nat -> int, answers: nat -> Socket)
    requires w < SIZE && s.read < SIZE
    ensures After(a, w, s, connects, answers, 0) == Moved(s, [])
  {
  }

  lemma BehindNothing(m: Moved)
    ensures m.Behind([]) == m
  {
  }

  /** The first of the steps is taken, if the capture is on. */
  lemma StepOn(a: slots, w: nat, s: View, acts: seq<Act>, before: seq<byte>)
    requires w < SIZE && s.Proper() && acts != []
    ensures SteppedAll(a, w, s, acts).Behind(before) ==
            if !s.on then SteppedAll(a, w, s, acts[1..]).Behind(before)
            else
              var m := Stepped(a, w, s, acts[0]);
              SteppedAll(a, w, m.view, acts[1..]).Behind(before + m.bytes)
  {
    hide Stepped;
    if s.on {
      var m := Stepped(a, w, s, acts[0]);
      Associative(before, m.bytes, SteppedAll(a, w, m.view, acts[1..]).bytes);
    }
  }

  lemma StepsOver(a: slots, w: nat, s: View, acts: seq<Act>, before: seq<byte>)
    requires w < SIZE && s.Proper() && acts == []
    ensures SteppedAll(a, w, s, acts).Behind(before) == Moved(s, before)
  {
    assert before + [] == before;
  }

  /** Before each of the first n turns less than `bytes` was free. */
  ghost predicate ShortBefore(a: slots, w: nat, s: View, connects: nat -> int, answers: nat -> Socket, n: nat,
                              bytes: nat)
    requires w < SIZE && s.read < SIZE
  {
    forall i: nat :: i < n ==> Free(After(a, w, s, connects, answers, i).view.read, w) < bytes
  }

  lemma ShortOnce(a: slots, w: nat, s: View, connects: nat -> int, answers: nat -> Socket, n: nat, bytes: nat)
    requires w < SIZE && s.read < SIZE
    ensures ShortBefore(a, w, s, connects, answers, 0, bytes)
    ensures ShortBefore(a, w, s, connects, answers, n, bytes)
            && Free(After(a, w, s, connects, answers, n).view.read, w) < bytes ==>
              ShortBefore(a, w, s, connects, answers, n + 1, bytes)
  {
  }
}
