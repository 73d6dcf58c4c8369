// What the interleaving machine guarantees over whole runs.

module Fidelity {
  import opened Bytes
  import opened Ring
  import opened Messages
  import opened Wire
  import opened Transport

  lemma InitialInv(s: State)
    requires Initial(s)
    ensures Inv(s)
  {
    assert Frames(s.log[..0]) == [];
  }

  lemma {:induction false} RunInv(s: State, steps: seq<Step>, t: State)
    requires Inv(s) && Run(s, steps, t)
    ensures Inv(t)
    decreases |steps|
  {
    hide Inv, Enabled, Do;
    if steps != [] {
      StepInv(s, steps[0]);
      RunInv(Do(s, steps[0]), steps[1..], t);
    }
  }

  /** The states that some run comes to, whatever its interleaving. */
  ghost predicate Reachable(t: State) {
    exists s: State, steps: seq<Step> :: Initial(s) && Run(s, steps, t)
  }

  lemma ReachableInv(t: State)
    requires Reachable(t)
    ensures Inv(t)
  {
    hide Inv, Initial, Run;
    var s: State, steps: seq<Step> :| Initial(s) && Run(s, steps, t);
    InitialInv(s);
    RunInv(s, steps, t);
  }

  /** The messages committed since the mark. */
  function Since(s: State, k: Mark): seq<Message> {
    if k.index <= |s.log| then s.log[k.index..] else []
  }

  lemma SinceMark(s: State, k: Mark)
    requires HistoryInv(s) && (k == s.conn.mark || k == s.snap || MarkOk(s, k))
    ensures k.index <= |s.log| && k.pos <= |s.out| && s.out[k.pos..] == Frames(Since(s, k))
  {
    hide Sendable, Frame;
    FramesJoin(s.log[..k.index], s.log[k.index..]);
    assert s.log[..k.index] + s.log[k.index..] == s.log;
  }

  /**
    * The bytes the live connection has taken, followed by the bytes still
    * unread, are the frames committed since the mark the connection started at.
    */
  ghost predicate Faithful(t: State) {
    Sound(t) && t.fd >= 0 && t.sender != StopStored ==>
      t.conn.sent + Unread(t.ring, Pos(t.r + Copied(t)), t.w) == Frames(Since(t, t.conn.mark))
  }

  /**
    * Stream fidelity: in every reachable state, under every interleaving and
    * every short or failed send, nothing is lost, doubled, swapped or torn, as
    * long as no stop has dropped bytes of a connection that it did not close.
    */
  lemma StreamFidelity(t: State)
    requires Reachable(t) && t.intact
    ensures Sound(t) && Faithful(t)
  {
    ReachableInv(t);
    FidelityOfInv(t);
  }

  lemma FidelityOfInv(t: State)
    requires Inv(t) && t.intact
    ensures Faithful(t)
  {
    hide Inv, Frames, Since, Unread, Used, Copied, Pos;
    if t.sender != StopStored {
      FidelityEquation(t);
    }
  }

  lemma InvParts(t: State)
    requires Inv(t)
    ensures Sound(t) && RingInv(t) && ConnInv(t) && HistoryInv(t)
  {
    hide ConnInv, HistoryInv, ProducerInv, SenderInv, WakeInv, Unread;
  }

  lemma FidelityEquation(t: State)
    requires Inv(t) && t.intact && t.sender != StopStored
    ensures Sound(t) && t.conn.sent + Unread(t.ring, Pos(t.r + Copied(t)), t.w) == Frames(Since(t, t.conn.mark))
  {
    hide Inv, RingInv, ConnInv, HistoryInv, Unread, Used, Since, Copied, Frames;
    InvParts(t);
    CopiedIsPublished(t);
    FidelityOfBytes(t);
    SinceMark(t, t.conn.mark);
  }

  lemma FidelityOfBytes(t: State)
    requires RingInv(t) && ConnInv(t) && t.intact && t.sender != StopStored && Copied(t) <= Used(t.r, t.w)
    ensures t.conn.mark.pos <= |t.out|
    ensures t.conn.sent + Unread(t.ring, Pos(t.r + Copied(t)), t.w) == t.out[t.conn.mark.pos..]
  {
    hide Unread, Used, Pos, RingInv;
    UnreadAfter(t, Copied(t));
    QueueTail(t.out, t.conn.mark.pos, t.taken, Copied(t));
  }

  lemma UnreadAfter(t: State, n: nat)
    requires RingInv(t) && n <= Used(t.r, t.w)
    ensures t.taken + n <= |t.out| && Unread(t.ring, Pos(t.r + n), t.w) == t.out[t.taken..][n..]
  {
    hide Unread, Used, Pos, Slice;
    ConsumeIsDrop(t.ring, t.r, t.w, n);
  }

  lemma CopiedIsPublished(t: State)
    requires Inv(t)
    ensures Copied(t) <= Used(t.r, t.w)
  {
    if t.sender.Leg? {
      LegIsPublished(t);
      AtMostWanted(t);
    }
  }

  lemma QueueTail(out: seq<byte>, a: nat, b: nat, n: nat)
    requires a <= b && b + n <= |out|
    ensures out[a..b + n] + out[b..][n..] == out[a..]
  {
  }

  /**
    * Capture restarts keep framing: every connection there has ever been, the
    * live one and the closed ones, took a prefix of the frames from some frame
    * on. Its first byte is the first byte of a frame.
    */
  lemma EveryConnectionIsFramed(t: State, c: Connection)
    requires Reachable(t) && t.intact
    requires c == t.conn || c in t.past
    ensures c.mark.index <= |t.log| && c.sent <= Frames(t.log[c.mark.index..])
  {
    ReachableInv(t);
    ConnectionPrefix(t, c);
    SinceMark(t, c.mark);
  }

  lemma ConnectionPrefix(t: State, c: Connection)
    requires Inv(t) && t.intact && (c == t.conn || c in t.past)
    ensures PastOk(t, c)
  {
    hide RingInv, ProducerInv, SenderInv, Frames, Sendable;
    if c == t.conn {
      PartOfTail(t.out, c.mark.pos, t.taken + if t.sender == StopStored then 0 else Copied(t));
    }
  }

  lemma PartOfTail(out: seq<byte>, a: nat, b: nat)
    requires a <= b <= |out|
    ensures out[a..b] <= out[a..]
  {
  }

  /**
    * And what a reader of such a connection makes of the bytes it was sent are
    * exactly the messages whose frames are complete, in order, from the mark on.
    */
  lemma ReaderFidelity(t: State, c: Connection)
    requires Reachable(t) && t.intact
    requires c == t.conn || c in t.past
    ensures c.mark.index <= |t.log|
    ensures var ms := t.log[c.mark.index..];
            ReadStream(c.sent).messages == ms[..WholeFrames(ms, |c.sent|)]
    ensures c == t.conn && t.fd >= 0 && t.sender == Idle && t.r == t.w ==>
              ReadStream(c.sent).messages == t.log[c.mark.index..]
  {
    hide *;
    EveryConnectionIsFramed(t, c);
    SizedSince(t, c.mark.index);
    ReaderOfPrefix(t.log[c.mark.index..], c.sent);
    if c == t.conn && t.fd >= 0 && t.sender == Idle && t.r == t.w {
      DrainedIsWhole(t);
    }
  }

  lemma ReaderOfPrefix(ms: seq<Message>, sent: seq<byte>)
    requires AllSized(ms) && sent <= Frames(ms)
    ensures ReadStream(sent).messages == ms[..WholeFrames(ms, |sent|)]
    ensures sent == Frames(ms) ==> ReadStream(sent).messages == ms
  {
    hide ReadStream, Frames, WholeFrames, AllSized;
    assert Frames(ms)[..|sent|] == sent;
    CutStream(ms, |sent|);
  }

  lemma DrainedIsWhole(t: State)
    requires Reachable(t) && t.intact && t.fd >= 0 && t.sender == Idle && t.r == t.w
    ensures t.conn.mark.index <= |t.log| && t.conn.sent == Frames(t.log[t.conn.mark.index..])
  {
    hide Reachable, Frames, Slice;
    EveryConnectionIsFramed(t, t.conn);
    StreamFidelity(t);
    assert Unread(t.ring, Pos(t.r + Copied(t)), t.w) == [];
    assert t.conn.sent + [] == t.conn.sent;
  }

  lemma SizedSince(t: State, k: nat)
    requires Reachable(t) && k <= |t.log|
    ensures AllSized(t.log[k..])
  {
    hide AllSized, Inv;
    ReachableInv(t);
    LogIsSized(t);
  }

  lemma LogIsSized(t: State)
    requires Inv(t)
    ensures forall k: nat :: k <= |t.log| ==> AllSized(t.log[k..])
  {
    forall i | 0 <= i < |t.log|
      ensures Sized(t.log[i])
    {
      FrameOfSendable(t.log[i]);
    }
  }

  /** Every state the run passes through, its ends included, is faithful. */
  ghost predicate AlwaysFaithful(s: State, steps: seq<Step>)
    decreases |steps|
  {
    Faithful(s) && (steps != [] && Enabled(s, steps[0]) ==> AlwaysFaithful(Do(s, steps[0]), steps[1..]))
  }

  /**
    * Fidelity over whole runs, with connections on any descriptor: it holds in
    * every state of a run exactly when no stop of the run drops bytes and leaves
    * the connection they were meant for open, as it leaves descriptor 0.
    */
  lemma FidelityIff(s: State, steps: seq<Step>, t: State)
    requires Initial(s) && Run(s, steps, t)
    ensures AlwaysFaithful(s, steps) <==> t.intact
  {
    InitialInv(s);
    FidelityFrom(s, steps, t);
  }

  lemma {:induction false} FidelityFrom(s: State, steps: seq<Step>, t: State)
    requires Inv(s) && s.intact && Run(s, steps, t)
    ensures AlwaysFaithful(s, steps) <==> t.intact
    decreases |steps|
  {
    hide Inv, Enabled, Do, Faithful;
    FidelityOfInv(s);
    if steps != [] {
      var u := Do(s, steps[0]);
      StepInv(s, steps[0]);
      if u.intact {
        FidelityFrom(u, steps[1..], t);
      } else {
        LossIsUnfaithful(s, steps[0]);
        LossStays(u, steps[1..], t);
      }
    }
  }

  lemma {:induction false} LossStays(s: State, steps: seq<Step>, t: State)
    requires !s.intact && Run(s, steps, t)
    ensures !t.intact
    decreases |steps|
  {
    if steps != [] {
      IntactStep(s, steps[0]);
      hide Enabled, Do;
      LossStays(Do(s, steps[0]), steps[1..], t);
    }
  }

  lemma IntactStep(s: State, step: Step)
    requires Enabled(s, step)
    ensures Do(s, step).intact <==> s.intact && !(step == StopPost && s.fd == 0 && Drops(s))
  {
  }

  /** Nothing is lost where no connection attempt yields descriptor 0. */
  lemma {:induction false} WithoutZeroIntact(s: State, steps: seq<Step>, t: State)
    requires s.intact && s.fd != 0 && Run(s, steps, t) && Connect(0) !in steps
    ensures t.intact && t.fd != 0
    decreases |steps|
  {
    if steps != [] {
      assert steps[0] != Connect(0);
      IntactStep(s, steps[0]);
      NotZero(s, steps[0]);
      hide Enabled, Do;
      WithoutZeroIntact(Do(s, steps[0]), steps[1..], t);
    }
  }

  lemma NotZero(s: State, step: Step)
    requires Enabled(s, step) && s.fd != 0 && step != Connect(0)
    ensures Do(s, step).fd != 0
  {
    hide RingFrame, Used, Free, Reserved, Pos, Drops, AllStored, Listed, Sendable;
  }

  /** So a run in which every connection has a positive descriptor is faithful in every state. */
  lemma PositiveDescriptorsSuffice(s: State, steps: seq<Step>, t: State)
    requires Initial(s) && Run(s, steps, t) && Connect(0) !in steps
    ensures t.intact && AlwaysFaithful(s, steps)
  {
    WithoutZeroIntact(s, steps, t);
    hide Run, AlwaysFaithful;
    FidelityIff(s, steps, t);
  }

  lemma LossIsUnfaithful(s: State, step: Step)
    requires Inv(s) && s.intact && Enabled(s, step) && !Do(s, step).intact
    ensures !Faithful(Do(s, step))
  {
    IntactStep(s, step);
    StepInv(s, step);
    LossyState(AfterStopPost(s));
  }

  lemma LossyState(t: State)
    requires Inv(t) && t.fd >= 0 && t.sender == Idle && t.conn.mark.pos + |t.conn.sent| != t.taken
    ensures !Faithful(t)
  {
    assert RingInv(t) && HistoryInv(t);
    SinceMark(t, t.conn.mark);
    hide Inv, HistoryInv, Frames, Since, Slice;
    assert |Unread(t.ring, Pos(t.r), t.w)| == |t.out| - t.taken;
  }

  /**
    * Reserved space stays reserved: whatever the sender does meanwhile, no slot
    * of the frame being written is a published slot, so the producer never
    * overwrites an unread byte and the sender never reads an unpublished one.
    */
  lemma ReservedStaysReserved(t: State, i: nat, j: nat)
    requires Reachable(t)
    requires t.producer.Writing? && i < |RingFrame(t.producer.m)|
    requires Sound(t) && j < Used(t.r, t.w)
    ensures Pos(t.w + i) != Pos(t.r + j)
    ensures t.sender.Leg? && t.sender.copied < t.sender.want ==>
              Pos(t.w + i) != t.r + t.sender.copied < SIZE
  {
    ReachableInv(t);
    WriterIsAhead(t, i, j);
    if t.sender.Leg? && t.sender.copied < t.sender.want {
      LegIsPublished(t);
      WriterIsAhead(t, i, t.sender.copied);
    }
  }

  lemma WriterIsAhead(t: State, i: nat, j: nat)
    requires Inv(t) && t.producer.Writing? && i < |RingFrame(t.producer.m)| && j < Used(t.r, t.w)
    ensures Pos(t.w + i) != Pos(t.r + j)
  {
    hide HistoryInv, ConnInv, SenderInv, Sendable, RingFrame, Unread;
  }

  /** The connections made in the run. */
  function Made(steps: seq<Step>): nat {
    if steps == [] then 0 else (if steps[0].Connect? && steps[0].fd >= 0 then 1 else 0) + Made(steps[1..])
  }

  /** The connections so far, the live one included. */
  function Connections(s: State): nat {
    |s.past| + if s.fd >= 0 then 1 else 0
  }

  lemma ConnectionStep(s: State, step: Step)
    requires Enabled(s, step)
    ensures Connections(Do(s, step)) == Connections(s) + if step.Connect? && step.fd >= 0 then 1 else 0
  {
    hide RingFrame, Used, Free, Reserved, Pos, Drops, AllStored, Listed, Sendable;
  }

  /** No connection is forgotten or used again after a stop has closed it: each one made is live or among the past. */
  lemma {:induction false} EveryConnectionCounts(s: State, steps: seq<Step>, t: State)
    requires Run(s, steps, t)
    ensures Connections(t) == Connections(s) + Made(steps)
    decreases |steps|
  {
    if steps != [] {
      hide Enabled, Do, Connections;
      ConnectionStep(s, steps[0]);
      EveryConnectionCounts(Do(s, steps[0]), steps[1..], t);
    }
  }
}
