// How long a producer waits for space and when it waits in vain, what a stop
// costs, and that undisturbed runs of the machine are the calls specified in
// Sending and Gator.

module Progress {
  import opened Bytes
  import opened Ring
  import opened Messages
  import opened Transport
  import opened Fidelity
  import Reservations
  import Sending

  predicate SenderStep(step: Step) {
    && !step.Enter? && !step.Claim? && !step.Leave? && !step.OtherClaim? && !step.Begin?
    && !step.CheckFree? && !step.Wake? && !step.Store? && !step.Commit?
  }

  predicate SenderSteps(steps: seq<Step>) {
    forall i :: 0 <= i < |steps| ==> SenderStep(steps[i])
  }

  /** The number of turns completed: each ends with the post of the thread's semaphore. */
  function Turns(steps: seq<Step>): nat {
    if steps == [] then 0 else (if steps[0] == Post then 1 else 0) + Turns(steps[1..])
  }

  /** The bytes that were behind read_pos at the start of the current turn. */
  function Behind(s: State): nat {
    if s.sender.Leg? || s.sender == Posting then s.turnStart else s.taken
  }

  lemma TurnStep(s: State, step: Step)
    requires Inv(s) && Enabled(s, step) && SenderStep(step)
    ensures var t := Do(s, step);
            && t.producer == s.producer && t.w == s.w && t.out == s.out
            && Behind(s) + (if step == Post then 1 else 0) <= Behind(t)
  {
    hide *;
    TurnLeaves(s, step);
    SenderPart(s);
    TurnBehind(s, step);
  }

  lemma SenderPart(s: State)
    requires Inv(s)
    ensures Sound(s) && SenderInv(s)
  {
    hide SenderInv, ProducerInv, HistoryInv, ConnInv, WakeInv, Unread;
  }

  lemma TurnLeaves(s: State, step: Step)
    requires Enabled(s, step) && SenderStep(step)
    ensures var t := Do(s, step); t.producer == s.producer && t.w == s.w && t.out == s.out
  {
    hide Used, RingFrame, Drops, AllStored, Sendable, Pos;
  }

  lemma TurnBehind(s: State, step: Step)
    requires Sound(s) && SenderInv(s) && Enabled(s, step) && SenderStep(step)
    ensures Behind(s) + (if step == Post then 1 else 0) <= Behind(Do(s, step))
  {
    hide Used, RingFrame, Drops, AllStored, Sendable;
  }

  lemma {:induction false} TurnsMoveOn(s: State, steps: seq<Step>, t: State)
    requires Inv(s) && Run(s, steps, t) && SenderSteps(steps)
    ensures Inv(t) && t.producer == s.producer && t.w == s.w && t.out == s.out
    ensures Behind(s) + Turns(steps) <= Behind(t)
    decreases |steps|
  {
    hide Inv, Enabled, Do, Behind;
    if steps != [] {
      assert SenderStep(steps[0]);
      TurnStep(s, steps[0]);
      StepInv(s, steps[0]);
      TurnsMoveOn(Do(s, steps[0]), steps[1..], t);
    }
  }

  lemma BehindBounds(t: State)
    requires Inv(t)
    ensures Sound(t) && Behind(t) <= t.taken && t.taken + Used(t.r, t.w) == |t.out|
  {
  }

  lemma BehindIdle(t: State)
    requires t.sender == Idle
    ensures Behind(t) == t.taken
  {
  }

  /** Too little space for an accepted message means a ring at least half full. */
  lemma ShortOfSpace(t: State)
    requires Inv(t) && t.producer.Blocked? && Free(t.r, t.w) < Reserved(t.producer.m)
    ensures Used(t.r, t.w) >= SIZE / 2
  {
  }

  /**
    * However the sender's steps fall, while a producer is blocked the number of
    * turns is bounded by the bytes in the ring, and as long as the space it waits
    * for is missing they are fewer than half the ring.
    */
  lemma BoundedWait(s: State, steps: seq<Step>, t: State)
    requires Reachable(s) && s.sender == Idle && s.producer.Blocked?
    requires Run(s, steps, t) && SenderSteps(steps)
    ensures Sound(t) && Turns(steps) <= Used(s.r, s.w) - Used(t.r, t.w)
    ensures Free(t.r, t.w) < Reserved(s.producer.m) ==> Turns(steps) < SIZE / 2
  {
    hide Inv, Run, Reachable, Behind, Used, Free, Reserved;
    ReachableInv(s);
    TurnsMoveOn(s, steps, t);
    BehindBounds(s);
    BehindBounds(t);
    BehindIdle(s);
    if Free(t.r, t.w) < Reserved(s.producer.m) {
      ShortOfSpace(t);
    }
  }

  /** Between turns a blocked producer that has its space is released: no wakeup is lost. */
  lemma ReleasedWhenRoom(t: State)
    requires Reachable(t) && Sound(t) && t.producer.Blocked? && t.sender == Idle
    requires Free(t.r, t.w) >= Reserved(t.producer.m)
    ensures Enabled(t, Wake) && Do(Do(t, Wake), CheckFree).producer == Writing(t.producer.m, t.producer.more, {})
  {
    hide Reserved, Free, Inv, Reachable, Sendable, RingFrame;
    ReachableInv(t);
    RoomIsPosted(t);
    WakesWithRoom(t);
    hide *;
  }

  lemma RoomIsPosted(t: State)
    requires Inv(t) && t.producer.Blocked? && t.sender == Idle && Free(t.r, t.w) >= Reserved(t.producer.m)
    ensures t.sem > 0
  {
    hide Reserved, Free, RingInv, ProducerInv, SenderInv, HistoryInv, ConnInv;
  }

  /** One that lacks it gives the sender work: the next turn of a connected sender is a send. */
  lemma BlockedGivesWork(t: State)
    requires Reachable(t) && Sound(t) && t.producer.Blocked? && t.sender == Idle && t.capturing && t.fd >= 0
    requires Free(t.r, t.w) < Reserved(t.producer.m)
    ensures Enabled(t, Snapshot) && Do(t, Snapshot).sender.Leg?
  {
    ReachableInv(t);
    ShortOfSpace(t);
  }

  /** And a stop of the capture releases it as well: the ring is empty and the semaphore posted. */
  lemma StopReleases(s: State)
    requires Reachable(s) && s.producer.Blocked? && s.sender == Stopping
    ensures Enabled(s, StopLoad) && Enabled(Do(s, StopLoad), StopStore)
    ensures var u := Do(Do(s, StopLoad), StopStore);
            && Enabled(u, StopPost) && Do(u, StopPost).r == Do(u, StopPost).w
            && Enabled(Do(u, StopPost), Wake)
            && Do(Do(Do(u, StopPost), Wake), CheckFree).producer == Writing(s.producer.m, s.producer.more, {})
  {
    hide Inv, Reachable, Sendable, Reserved, Free, Do, Enabled;
    ReachableInv(s);
    WaiterIsSendable(s);
    EmptyIsEnough(s.producer.m, s.w);
    StopEmpties(s);
    WakesWithRoom(Do(Do(Do(s, StopLoad), StopStore), StopPost));
  }

  lemma StopEmpties(s: State)
    requires Sound(s) && s.producer.Blocked? && s.sender == Stopping
    ensures Enabled(s, StopLoad) && Enabled(Do(s, StopLoad), StopStore)
    ensures var u := Do(Do(s, StopLoad), StopStore);
            && Enabled(u, StopPost) && Sound(Do(u, StopPost)) && Do(u, StopPost).sem > 0
            && Do(u, StopPost).r == Do(u, StopPost).w == s.w && Do(u, StopPost).producer == s.producer
  {
    hide Drops;
  }

  lemma WakesWithRoom(s: State)
    requires Sound(s) && s.producer.Blocked? && s.sem > 0 && Free(s.r, s.w) >= Reserved(s.producer.m)
    ensures Enabled(s, Wake) && Do(Do(s, Wake), CheckFree).producer == Writing(s.producer.m, s.producer.more, {})
  {
    hide Free, Reserved;
  }

  lemma WaiterIsSendable(s: State)
    requires Inv(s) && s.producer.Blocked?
    ensures Sound(s) && Sendable(s.producer.m)
  {
    hide Sendable, SenderInv, HistoryInv, ConnInv, WakeInv, Unread;
  }

  // ------------------------------------------------- a capture that is on

  /** A producer is blocked and the space it waits for is missing. */
  predicate Starved(s: State)
    requires Sound(s)
  {
    s.producer.Blocked? && Free(s.r, s.w) < Reserved(s.producer.m)
  }

  /** That is so in every state of the run. */
  predicate AlwaysStarved(s: State, steps: seq<Step>)
    decreases |steps|
  {
    && Sound(s) && Starved(s)
    && (steps != [] && Enabled(s, steps[0]) ==> AlwaysStarved(Do(s, steps[0]), steps[1..]))
  }

  /** The capture is on, or a stop is under way that empties the whole ring. */
  predicate OnTrack(s: State) {
    s.capturing || s.sender == Stopping || (s.sender.StopLoaded? && s.sender.w == s.w)
  }

  /** The work the sender has left for the ring as it is: six steps for a byte, and what is left of its turn. */
  function SenderWork(s: State): int {
    6 * (|s.out| - s.taken)
    + match s.sender
      case Idle => if s.fd < 0 then 5 else 4
      case Leg(_, _, _, copied) => 3 - copied
      case Posting => 5
      case Raising(again) => if again then 7 else 6
      case Stopping => 2
      case StopLoaded(_) => 1
      case StopStored => 0
  }

  lemma SenderWorkBounds(s: State)
    requires Inv(s)
    ensures Sound(s) && 0 <= SenderWork(s) <= 6 * Used(s.r, s.w) + 7
  {
    hide ProducerInv, HistoryInv, WakeInv, Unread;
    if s.sender.Leg? {
      LegIsPublished(s);
    }
  }

  lemma SenderWorkStep(s: State, step: Step)
    requires Inv(s) && OnTrack(s) && Enabled(s, step) && SenderStep(step)
    requires Sound(s) && Starved(s) && Sound(Do(s, step)) && Starved(Do(s, step))
    ensures OnTrack(Do(s, step)) && SenderWork(Do(s, step)) < SenderWork(s)
  {
    WaiterIsSendable(s);
    TurnStep(s, step);
    StarvedNotEmpty(s);
    StarvedNotEmpty(Do(s, step));
    StarvedPoints(s);
    hide Inv, Starved, Sendable, Reserved, Used, Free, Pos, Behind;
    StaysOnTrack(s, step);
    WorkGoesDown(s, step);
  }

  lemma StaysOnTrack(s: State, step: Step)
    requires OnTrack(s) && Enabled(s, step) && SenderStep(step) && Do(s, step).w == s.w
    requires Do(s, step).r != Do(s, step).w
    requires s.sender == StopStored || s.sender.StopLoaded? ==> !s.capturing
    ensures OnTrack(Do(s, step))
  {
    hide Used, Free, Pos, RingFrame, Drops;
  }

  lemma WorkGoesDown(s: State, step: Step)
    requires OnTrack(s) && Enabled(s, step) && SenderStep(step) && Do(s, step).w == s.w && Do(s, step).out == s.out
    requires s.r != s.w && Do(s, step).r != Do(s, step).w
    requires s.sender.Leg? || s.sender == Posting ==> s.fd >= 0
    requires s.sender == StopStored || s.sender.StopLoaded? ==> !s.capturing
    requires s.sender.StopLoaded? ==> s.taken <= s.snap.pos
    ensures SenderWork(Do(s, step)) < SenderWork(s)
  {
    hide Used, Free, Pos, RingFrame, Drops;
  }

  lemma StarvedNotEmpty(s: State)
    requires Sound(s) && Starved(s) && Sendable(s.producer.m)
    ensures s.r != s.w
  {
    EmptyIsEnough(s.producer.m, s.w);
  }

  lemma StarvedPoints(s: State)
    requires Inv(s)
    ensures s.sender.Leg? || s.sender == Posting ==> s.fd >= 0
    ensures s.sender == StopStored || s.sender.StopLoaded? ==> !s.capturing
    ensures s.sender.StopLoaded? ==> s.taken <= s.snap.pos
  {
    hide RingInv, ProducerInv, HistoryInv, ConnInv, WakeInv;
  }

  lemma {:induction false} StarvedRun(s: State, steps: seq<Step>, t: State)
    requires Inv(s) && OnTrack(s) && Run(s, steps, t) && SenderSteps(steps) && AlwaysStarved(s, steps)
    ensures Inv(t) && |steps| <= SenderWork(s) - SenderWork(t)
    decreases |steps|
  {
    hide Inv, OnTrack, Enabled, Do, Starved, SenderWork;
    if steps != [] {
      assert SenderStep(steps[0]);
      SenderWorkStep(s, steps[0]);
      StepInv(s, steps[0]);
      StarvedRun(Do(s, steps[0]), steps[1..], t);
    }
  }

  /**
    * With the capture on, every long enough run of the sender's steps passes a
    * state in which the waiting producer has its space, whether or not the capture
    * stays on; and until then there is a step for the sender.
    */
  lemma SpaceComes(s: State, steps: seq<Step>, t: State)
    requires Reachable(s) && Sound(s) && s.capturing && s.producer.Blocked?
    requires Run(s, steps, t) && SenderSteps(steps) && |steps| > 6 * Used(s.r, s.w) + 7
    ensures !AlwaysStarved(s, steps)
  {
    hide Reachable, Inv, Run, SenderSteps, AlwaysStarved, SenderWork;
    ReachableInv(s);
    SenderWorkBounds(s);
    if AlwaysStarved(s, steps) {
      StarvedRun(s, steps, t);
      SenderWorkBounds(t);
    }
  }

  function SenderNext(s: State): Step {
    match s.sender
    case Idle => if s.fd < 0 then Connect(1) else Snapshot
    case Leg(_, _, _, _) => Return
    case Posting => Post
    case Raising(_) => Raise
    case Stopping => StopLoad
    case StopLoaded(_) => StopStore
    case StopStored => StopPost
  }

  lemma SenderCanStep(s: State)
    requires Reachable(s) && (s.sender == Idle ==> s.capturing)
    ensures Enabled(s, SenderNext(s)) && SenderStep(SenderNext(s))
  {
    hide *;
    ReachableInv(s);
    SenderCopyBound(s);
    SenderNextEnabled(s);
  }

  lemma SenderNextEnabled(s: State)
    requires Sound(s) && (s.sender == Idle ==> s.capturing) && (s.sender.StopLoaded? ==> s.sender.w < SIZE)
    ensures Enabled(s, SenderNext(s)) && SenderStep(SenderNext(s))
  {
    hide AllStored, Sendable, RingFrame, Listed;
  }

  lemma SenderCopyBound(s: State)
    requires Inv(s)
    ensures Sound(s) && (s.sender.StopLoaded? ==> s.sender.w < SIZE)
  {
    hide ProducerInv, HistoryInv, ConnInv, WakeInv, Unread;
  }

  // ------------------------------------------------------- waiting in vain

  /** Where read_pos will be when a stop under way has stored it. */
  function ReadAfterStop(s: State): nat {
    if s.sender.StopLoaded? then s.sender.w else s.r
  }

  /** Some run in which the capture does not start again takes the waiting producer past its wait loop. */
  ghost predicate MayProceed(s: State) {
    exists steps, t :: Run(s, steps, t) && WithoutStart(steps) && t.producer.Writing?
  }

  /**
    * A blocked producer can get on without a new start of the capture exactly
    * when the capture is on, or a stop has yet to load write_pos, or its space is
    * there, if need be once the stop under way has stored the read position.
    */
  lemma ProceedsIff(s: State)
    requires Reachable(s) && Sound(s) && s.producer.Blocked?
    ensures ReadAfterStop(s) < SIZE
    ensures MayProceed(s) <==>
            s.capturing || s.sender == Stopping || Reserved(s.producer.m) <= Free(ReadAfterStop(s), s.w)
  {
    ReachableInv(s);
    if s.capturing {
      CaptureProceeds(s);
    } else if s.sender == Stopping {
      StoppingProceeds(s);
    } else {
      StopPointBounds(s);
      if Reserved(s.producer.m) <= Free(ReadAfterStop(s), s.w) {
        RoomProceeds(s);
      } else {
        StrandedFrom(s);
        StrandedStays(s);
      }
    }
  }

  lemma StopPointBounds(s: State)
    requires Inv(s) && !s.capturing
    ensures Sound(s) && ReadAfterStop(s) < SIZE && !s.sender.Leg? && s.sender != Posting && !s.sender.Raising?
  {
    hide ProducerInv, HistoryInv, ConnInv, WakeInv, Unread;
  }

  /** Capture off, no stop about to load write_pos, and the space missing: only a start of the capture helps. */
  predicate Stranded(s: State) {
    && Sound(s) && !s.capturing && ReadAfterStop(s) < SIZE
    && !s.sender.Leg? && s.sender != Posting && s.sender != Stopping && !s.sender.Raising?
    && (s.producer.Blocked? || s.producer.Checking?)
    && Free(s.r, s.w) <= Free(ReadAfterStop(s), s.w) < Reserved(s.producer.m)
  }

  lemma StrandedStep(s: State, step: Step)
    requires Stranded(s) && Enabled(s, step) && !step.Start?
    ensures Stranded(Do(s, step))
  {
    hide Reserved, Free, RingFrame, Sendable, Pos, Used, Drops, AllStored, Listed;
  }

  lemma {:induction false} StrandedRun(s: State, steps: seq<Step>, t: State)
    requires Stranded(s) && Run(s, steps, t) && WithoutStart(steps)
    ensures Stranded(t)
    decreases |steps|
  {
    hide Stranded, Enabled, Do;
    if steps != [] {
      StrandedStep(s, steps[0]);
      StrandedRun(Do(s, steps[0]), steps[1..], t);
    }
  }

  /** A stranded producer without a token waits for the start of the capture and nothing else happens before. */
  lemma OnlyStartHelps(s: State, step: Step)
    requires Stranded(s) && s.producer.Blocked? && s.sem == 0 && s.sender == Idle && !s.resend
    ensures Enabled(s, step) <==> step.Start?
  {
    hide Reserved, Free, RingFrame, Sendable;
  }

  lemma StrandedFrom(s: State)
    requires Inv(s) && s.producer.Blocked? && !s.capturing && s.sender != Stopping
    requires Sound(s) && ReadAfterStop(s) < SIZE && Reserved(s.producer.m) > Free(ReadAfterStop(s), s.w)
    ensures Stranded(s)
  {
    StopPointBounds(s);
    hide ProducerInv, HistoryInv, ConnInv, WakeInv, Unread, Reserved;
  }

  // The runs of a producer that gets on, from their ends backwards.

  lemma OneStep(s: State, step: Step)
    requires Enabled(s, step) && !step.Start? && MayProceed(Do(s, step))
    ensures MayProceed(s)
  {
    hide Enabled, Do;
    var steps, t :| Run(Do(s, step), steps, t) && WithoutStart(steps) && t.producer.Writing?;
    assert ([step] + steps)[1..] == steps;
    assert Run(s, [step] + steps, t);
  }

  lemma WakesUp(s: State)
    requires Sound(s) && s.producer.Blocked? && s.sem > 0 && Reserved(s.producer.m) <= Free(s.r, s.w)
    ensures MayProceed(s)
  {
    hide Reserved, Free, MayProceed;
    var t := Do(s, Wake);
    Proceeds(Do(t, CheckFree));
    OneStep(t, CheckFree);
    OneStep(s, Wake);
  }

  lemma Proceeds(s: State)
    requires s.producer.Writing?
    ensures MayProceed(s)
  {
    assert Run(s, [], s);
  }

  lemma StoredProceeds(s: State)
    requires Sound(s) && s.producer.Blocked? && s.sender == StopStored && Reserved(s.producer.m) <= Free(s.r, s.w)
    ensures MayProceed(s)
  {
    hide Reserved, Free, MayProceed;
    WakesUp(Do(s, StopPost));
    OneStep(s, StopPost);
  }

  lemma LoadedProceeds(s: State)
    requires Sound(s) && s.producer.Blocked? && s.sender.StopLoaded? && s.sender.w < SIZE
    requires Reserved(s.producer.m) <= Free(s.sender.w, s.w)
    ensures MayProceed(s)
  {
    hide Reserved, Free, MayProceed;
    StoredProceeds(Do(s, StopStore));
    OneStep(s, StopStore);
  }

  lemma StoppingProceeds(s: State)
    requires Sound(s) && s.producer.Blocked? && Sendable(s.producer.m) && s.sender == Stopping
    ensures MayProceed(s)
  {
    EmptyIsEnough(s.producer.m, s.w);
    hide Reserved, Free, MayProceed;
    LoadedProceeds(Do(s, StopLoad));
    OneStep(s, StopLoad);
  }

  lemma IdleProceeds(s: State)
    requires Sound(s) && s.producer.Blocked? && Sendable(s.producer.m) && s.sender == Idle && s.capturing
    ensures MayProceed(s)
  {
    hide Reserved, Free, MayProceed, Sendable;
    StoppingProceeds(Do(s, Stop));
    OneStep(s, Stop);
  }

  lemma PostingProceeds(s: State)
    requires Sound(s) && s.producer.Blocked? && Sendable(s.producer.m) && s.sender == Posting && s.capturing
    ensures MayProceed(s)
  {
    hide Reserved, Free, MayProceed, Sendable;
    IdleProceeds(Do(s, Post));
    OneStep(s, Post);
  }

  lemma RaisingProceeds(s: State)
    requires Sound(s) && s.producer.Blocked? && Sendable(s.producer.m) && s.sender.Raising? && s.capturing
    ensures MayProceed(s)
    decreases s.sender.again
  {
    hide Reserved, Free, MayProceed, Sendable;
    if s.sender.again {
      RaisingProceeds(Do(s, Raise));
    } else {
      IdleProceeds(Do(s, Raise));
    }
    OneStep(s, Raise);
  }

  lemma LegProceeds(s: State)
    requires Sound(s) && s.producer.Blocked? && Sendable(s.producer.m) && s.sender.Leg? && s.capturing
    ensures MayProceed(s)
    decreases s.sender.copied
  {
    hide Reserved, Free, MayProceed, Sendable;
    var t := Do(s, Return);
    if t.sender.Leg? {
      LegProceeds(t);
    } else if t.sender == Posting {
      PostingProceeds(t);
    } else {
      StoppingProceeds(t);
    }
    OneStep(s, Return);
  }

  lemma CaptureProceeds(s: State)
    requires Inv(s) && s.producer.Blocked? && s.capturing
    ensures MayProceed(s)
  {
    assert Sound(s) && SenderInv(s) && Sendable(s.producer.m);
    hide Inv, RingInv, Reserved, Free, MayProceed, Sendable;
    match s.sender
    case Leg(_, _, _, _) => LegProceeds(s);
    case Posting => PostingProceeds(s);
    case Raising(_) => RaisingProceeds(s);
    case _ => IdleProceeds(s);
  }

  lemma RoomProceeds(s: State)
    requires Inv(s) && Sound(s) && s.producer.Blocked? && !s.capturing && s.sender != Stopping
    requires ReadAfterStop(s) < SIZE && Reserved(s.producer.m) <= Free(ReadAfterStop(s), s.w)
    ensures MayProceed(s)
  {
    StopPointBounds(s);
    assert WakeInv(s);
    hide Inv, RingInv, Reserved, Free, MayProceed, Sendable;
    match s.sender
    case StopLoaded(_) => LoadedProceeds(s);
    case StopStored => StoredProceeds(s);
    case _ => WakesUp(s);
  }

  lemma EmptyIsEnough(m: Message, w: nat)
    requires Sendable(m) && w < SIZE
    ensures Reserved(m) <= Free(w, w)
  {
  }

  // A run to a stranded producer: the thread that sends the saved entries again
  // has tested the capture, which then stops.

  /** An entry of the largest size that is let through. */
  function LongTrack(): (m: Message)
    ensures Listed(m)
  {
    CamTrack(0, 0, 0, seq(32748, _ => 65))
  }

  lemma LongTrackSize()
    ensures Reserved(LongTrack()) == SIZE / 2 && Sendable(LongTrack())
    ensures |RingFrame(LongTrack())| == 32756
  {
    var m := LongTrack();
    assert Sum(m) == 32768;
    Reservations.ReservationSuffices(m);
    Reservations.LenSum(Head(m));
    Reservations.SmallInt(0);
    assert Fields(m) == Head(m);
  }

  lemma RestartRun(s: State) returns (steps: seq<Step>, t: State)
    requires Initial(s)
    ensures Run(s, steps, t) && Sound(t) && t.w == 0 && t.r == 0 && t.sem == 1 && t.fd < 0 && t.capturing
    ensures t.sender == Idle && t.producer == Inside(true) && !t.resend
  {
    hide Run;
    var a := Do(s, Stop);
    RunOfOne(s, Stop);
    var b := StopOfEmpty(a);
    RunJoin(s, [Stop], a, [StopLoad, StopStore, StopPost], b);
    var c := StartAgain(b);
    RunJoin(s, [Stop] + [StopLoad, StopStore, StopPost], b, [Start(true), Raise, Raise], c);
    t := EnterAndClaim(c);
    steps := [Stop] + [StopLoad, StopStore, StopPost] + [Start(true), Raise, Raise] + [Enter, Claim];
    RunJoin(s, [Stop] + [StopLoad, StopStore, StopPost] + [Start(true), Raise, Raise], c, [Enter, Claim], t);
  }

  lemma StartAgain(s: State) returns (t: State)
    requires Sound(s) && s.sender == Idle && !s.capturing
    ensures Run(s, [Start(true), Raise, Raise], t) && t == s.(capturing := true, resend := true)
  {
    hide Run;
    RunOfThree(s, Start(true), Raise, Raise);
    t := Do(Do(Do(s, Start(true)), Raise), Raise);
  }

  lemma EnterAndClaim(s: State) returns (t: State)
    requires Sound(s) && s.producer == Ready && s.capturing && s.resend
    ensures Run(s, [Enter, Claim], t) && t == s.(producer := Inside(true), resend := false)
  {
    hide Run;
    RunOfTwo(s, Enter, Claim);
    t := Do(Do(s, Enter), Claim);
  }

  lemma StopOfEmpty(s: State) returns (t: State)
    requires Sound(s) && s.sender == Stopping && s.w == 0 && s.r == 0 && s.fd < 0 && !s.capturing
    ensures Run(s, [StopLoad, StopStore, StopPost], t)
    ensures Sound(t) && t.w == 0 && t.r == 0 && t.sem == s.sem + 1 && t.fd < 0 && !t.capturing
    ensures t.sender == Idle && t.producer == s.producer && t.resend == s.resend
  {
    hide Run;
    RunOfThree(s, StopLoad, StopStore, StopPost);
    t := Do(Do(Do(s, StopLoad), StopStore), StopPost);
  }

  /** The capture stops again while the saved entries are being sent. */
  lemma StopUnderResend(s: State) returns (steps: seq<Step>, t: State)
    requires Initial(s)
    ensures Run(s, steps, t) && Sound(t) && t.w == 0 && t.r == 0 && t.sem == 2 && t.fd < 0 && !t.capturing
    ensures t.sender == Idle && t.producer == Inside(true) && !t.resend
  {
    var a, u := RestartRun(s);
    hide Run, Initial;
    var v := Do(u, Stop);
    RunOfOne(u, Stop);
    t := StopOfEmpty(v);
    RunJoin(s, a, u, [Stop], v);
    RunJoin(s, a + [Stop], v, [StopLoad, StopStore, StopPost], t);
    steps := a + [Stop] + [StopLoad, StopStore, StopPost];
  }

  /** Two entries fill the ring. */
  lemma TwoEntries(s: State) returns (steps: seq<Step>, t: State)
    requires Sound(s) && s.w == 0 && s.r == 0 && s.producer == Inside(true)
    ensures Run(s, steps, t) && Sound(t) && Free(t.r, t.w) < SIZE / 2 && t.producer == Inside(true)
    ensures t.sem == s.sem && t.capturing == s.capturing && t.sender == s.sender && t.resend == s.resend
  {
    var m := LongTrack();
    LongTrackSize();
    hide Run, LongTrack, RingFrame, Reserved, Put, Sendable, Do;
    var u := EmissionRefinesPut(s, m, true);
    t := EmissionRefinesPut(u, m, true);
    steps := Emission(m, true) + Emission(m, true);
    RunJoin(s, Emission(m, true), u, Emission(m, true), t);
  }

  /** The next entry blocks, and the tokens that the stops have left do not help. */
  lemma ThirdEntry(s: State) returns (steps: seq<Step>, t: State)
    requires Sound(s) && Free(s.r, s.w) < SIZE / 2 && s.producer == Inside(true)
    requires s.sem == 2 && !s.capturing && s.sender == Idle && !s.resend
    ensures Run(s, steps, t) && Stranded(t) && t.producer.Blocked? && t.sem == 0 && t.sender == Idle && !t.resend
  {
    var m := LongTrack();
    LongTrackSize();
    hide Run, LongTrack, RingFrame, Reserved, Free, Sendable;
    var u := s.(producer := Blocked(m, true));
    RunOfTwo(s, Begin(m, true), CheckFree);
    var v := TokenGone(u);
    t := TokenGone(v);
    RunJoin(s, [Begin(m, true), CheckFree], u, [Wake, CheckFree], v);
    steps := [Begin(m, true), CheckFree] + [Wake, CheckFree] + [Wake, CheckFree];
    RunJoin(s, [Begin(m, true), CheckFree] + [Wake, CheckFree], v, [Wake, CheckFree], t);
  }

  lemma TokenGone(s: State) returns (t: State)
    requires Sound(s) && s.producer.Blocked? && s.sem > 0 && Free(s.r, s.w) < Reserved(s.producer.m)
    ensures Run(s, [Wake, CheckFree], t) && t == s.(sem := s.sem - 1)
  {
    hide Run, Reserved, Free;
    RunOfTwo(s, Wake, CheckFree);
    t := Do(Do(s, Wake), CheckFree);
  }

  /**
    * Such states are reached: the capture stops and starts again, a thread takes
    * the flag down and sends the saved entries, and a stop between two of them
    * leaves it in sem_wait until the capture starts once more.
    */
  lemma ResendStrands(s: State) returns (steps: seq<Step>, t: State)
    requires Initial(s)
    ensures Run(s, steps, t)
    ensures Stranded(t) && t.producer.Blocked? && t.sem == 0 && !MayProceed(t)
    ensures forall step: Step :: Enabled(t, step) <==> step.Start?
  {
    var a, u := StopUnderResend(s);
    var b, v := TwoEntries(u);
    var c;
    c, t := ThirdEntry(v);
    hide Run, Stranded, Enabled, Initial;
    RunJoin(s, a, u, b, v);
    RunJoin(s, a + b, v, c, t);
    steps := a + b + c;
    StrandedStays(t);
    forall step: Step
      ensures Enabled(t, step) <==> step.Start?
    {
      OnlyStartHelps(t, step);
    }
  }

  lemma StrandedStays(s: State)
    requires Stranded(s)
    ensures !MayProceed(s)
  {
    hide Run;
    forall steps, t | Run(s, steps, t) && WithoutStart(steps)
      ensures !t.producer.Writing?
    {
      StrandedRun(s, steps, t);
    }
  }
  // ------------------------------------------------ a stop with descriptor 0

  /**
    * A stop keeps the live connection faithful exactly when its descriptor is
    * positive or the ring had nothing left to drop: descriptor 0 is not closed.
    * A connection that is closed holds every byte up to the read position, and
    * the next one begins at the boundary of frames that the read position is
    * moved to.
    */
  lemma StopKeepsFaithIff(s: State)
    requires Reachable(s) && s.intact && s.sender.StopLoaded? && s.fd >= 0
    ensures Enabled(s, StopStore) && Enabled(Do(s, StopStore), StopPost)
    ensures var u := Do(Do(s, StopStore), StopPost);
            && (u.intact <==> s.fd > 0 || s.sender.w == s.r)
            && (Faithful(u) <==> s.fd > 0 || s.sender.w == s.r)
    ensures var u := Do(Do(s, StopStore), StopPost);
            s.fd > 0 ==>
              && u.past == s.past + [s.conn] && s.conn.mark.pos <= s.taken <= |s.out|
              && s.conn.sent == s.out[s.conn.mark.pos..s.taken]
              && u.conn == Connection(s.snap, []) && u.taken == s.snap.pos && MarkOk(u, u.conn.mark)
  {
    hide Reachable, Inv, Do, Enabled, Drops, HistoryInv, Faithful;
    ReachableInv(s);
    InvParts(s);
    StopDrops(s);
    LoadedBound(s);
    if s.fd > 0 {
      StopCloses(s);
    }
    StopIsFaithful(s, Do(s, StopStore));
  }

  lemma LoadedBound(s: State)
    requires Inv(s) && s.sender.StopLoaded?
    ensures Sound(s) && s.sender.w < SIZE
  {
    hide ProducerInv, HistoryInv, ConnInv, WakeInv, Unread;
  }

  lemma StopIsFaithful(s: State, t: State)
    requires Inv(s) && s.intact && Enabled(s, StopStore) && t == Do(s, StopStore) && Enabled(t, StopPost)
    ensures Do(t, StopPost).intact == !(s.fd == 0 && Drops(t)) == Faithful(Do(t, StopPost))
  {
    StepInv(s, StopStore);
    StepInv(t, StopPost);
    IntactStep(s, StopStore);
    IntactStep(t, StopPost);
    SameDescriptor(s);
    hide Inv, Do, Enabled, Drops, Faithful;
    if Do(t, StopPost).intact {
      FidelityOfInv(Do(t, StopPost));
    } else {
      LossIsUnfaithful(t, StopPost);
    }
  }

  lemma SameDescriptor(s: State)
    requires Enabled(s, StopStore)
    ensures Do(s, StopStore).fd == s.fd
  {
  }

  lemma StopDrops(s: State)
    requires Inv(s) && s.intact && s.sender.StopLoaded? && s.fd >= 0
    ensures Enabled(s, StopStore) && Enabled(Do(s, StopStore), StopPost)
    ensures Drops(Do(s, StopStore)) <==> s.fd == 0 && s.sender.w != s.r
    ensures s.conn.mark.pos <= s.taken <= |s.out| && s.conn.sent == s.out[s.conn.mark.pos..s.taken]
  {
    hide ProducerInv, HistoryInv, WakeInv, Unread;
  }

  lemma StopCloses(s: State)
    requires HistoryInv(s) && Sound(s) && s.sender.StopLoaded? && s.sender.w < SIZE && s.fd > 0
    ensures Enabled(s, StopStore) && Enabled(Do(s, StopStore), StopPost)
    ensures var u := Do(Do(s, StopStore), StopPost);
            && u.past == s.past + [s.conn] && u.conn == Connection(s.snap, []) && u.taken == s.snap.pos
            && MarkOk(u, u.conn.mark)
  {
  }

  /** A connection on descriptor 0 that is stopped before anything is sent lives on without the committed frames. */
  lemma DescriptorZeroLoses(s: State) returns (steps: seq<Step>, t: State)
    requires Reachable(s) && s.intact && s.sender == Idle && s.capturing && s.fd < 0 && s.r != s.w
    ensures Run(s, steps, t)
    ensures t.fd == 0 && t.sender == Idle && t.r == t.w && t.conn.sent == [] && t.conn.mark.pos < |t.out|
  {
    ReachableInv(s);
    var s2 := DescriptorZeroConnects(s);
    hide Inv;
    t := DescriptorZeroStops(s2);
    steps := [Connect(0), Stop] + [StopLoad, StopStore, StopPost];
    RunJoin(s, [Connect(0), Stop], s2, [StopLoad, StopStore, StopPost], t);
  }

  lemma DescriptorZeroConnects(s: State) returns (t: State)
    requires Inv(s) && s.intact && s.sender == Idle && s.capturing && s.fd < 0 && s.r != s.w
    ensures Run(s, [Connect(0), Stop], t)
    ensures Sound(t) && t.sender == Stopping && t.fd == 0 && t.conn.sent == [] && t.conn.mark.pos < |t.out|
    ensures t.out == s.out
  {
    hide Run, ProducerInv, HistoryInv, WakeInv, Unread, RingFrame;
    t := Do(Do(s, Connect(0)), Stop);
    assert Used(s.r, s.w) > 0;
    RunOfTwo(s, Connect(0), Stop);
  }

  lemma RunOfTwo(s: State, a: Step, b: Step)
    requires Enabled(s, a) && Enabled(Do(s, a), b)
    ensures Run(s, [a, b], Do(Do(s, a), b))
  {
    hide Do, Enabled, Run;
    RunOfOne(s, a);
    RunOneMore(s, [a], Do(s, a), b, Do(Do(s, a), b));
    assert [a] + [b] == [a, b];
  }

  lemma DescriptorZeroStops(s: State) returns (t: State)
    requires Sound(s) && s.sender == Stopping && s.fd == 0 && s.conn.sent == [] && s.conn.mark.pos < |s.out|
    ensures Run(s, [StopLoad, StopStore, StopPost], t)
    ensures t.fd == 0 && t.sender == Idle && t.r == t.w && t.conn == s.conn && t.out == s.out
  {
    var s3 := Do(s, StopLoad);
    var s4 := Do(s3, StopStore);
    t := Do(s4, StopPost);
    RunOfThree(s, StopLoad, StopStore, StopPost);
  }

  lemma RunOfThree(s: State, a: Step, b: Step, c: Step)
    requires Enabled(s, a) && Enabled(Do(s, a), b) && Enabled(Do(Do(s, a), b), c)
    ensures Run(s, [a, b, c], Do(Do(Do(s, a), b), c))
  {
    hide Do, Enabled, Run;
    var u := Do(Do(s, a), b);
    RunOfTwo(s, a, b);
    RunOneMore(s, [a, b], u, c, Do(u, c));
    assert [a, b] + [c] == [a, b, c];
  }

  // ------------------------------------------------------- undisturbed runs

  lemma {:induction false} RunJoin(s: State, x: seq<Step>, t: State, y: seq<Step>, u: State)
    requires Run(s, x, t) && Run(t, y, u)
    ensures Run(s, x + y, u)
    decreases |x|
  {
    hide Enabled, Do;
    if x == [] {
      assert x + y == y;
    } else {
      RunJoin(Do(s, x[0]), x[1..], t, y, u);
      assert (x + y)[0] == x[0] && (x + y)[1..] == x[1..] + y;
    }
  }

  lemma RunOfOne(s: State, a: Step)
    requires Enabled(s, a)
    ensures Run(s, [a], Do(s, a))
  {
    hide Enabled, Do;
    assert [a][1..] == [];
  }

  lemma RunOneMore(s: State, x: seq<Step>, t: State, a: Step, u: State)
    requires Run(s, x, t) && Enabled(t, a) && u == Do(t, a)
    ensures Run(s, x + [a], u)
  {
    hide Enabled, Do, Run;
    RunOfOne(t, a);
    RunJoin(s, x, t, [a], u);
  }

  /** The state after n more bytes have been copied. */
  function AfterCopies(s: State, n: nat): State
    requires Sound(s) && s.sender.Leg? && s.r + s.sender.copied + n <= SIZE
  {
    var i := s.r + s.sender.copied;
    s.(conn := s.conn.(sent := s.conn.sent + s.ring[i..i + n]),
       sender := s.sender.(copied := s.sender.copied + n))
  }

  function Copies(n: nat): seq<Step> {
    if n == 0 then [] else Copies(n - 1) + [Copy]
  }

  lemma OneMoreCopy(s: State, n: nat)
    requires Sound(s) && s.sender.Leg? && s.sender.copied + n < s.sender.want
    requires s.r + s.sender.copied + n < SIZE
    ensures Enabled(AfterCopies(s, n), Copy) && Do(AfterCopies(s, n), Copy) == AfterCopies(s, n + 1)
  {
    var i := s.r + s.sender.copied;
    assert s.ring[i..i + n + 1] == s.ring[i..i + n] + [s.ring[i + n]];
    Associative(s.conn.sent, s.ring[i..i + n], [s.ring[i + n]]);
  }

  lemma {:induction false} CopiesRun(s: State, n: nat)
    requires Sound(s) && s.sender.Leg? && s.sender.copied + n <= s.sender.want
    requires s.r + s.sender.copied + n <= SIZE
    ensures Run(s, Copies(n), AfterCopies(s, n))
  {
    hide *;
    if n == 0 {
      NoCopies(s);
    } else {
      CopiesRun(s, n - 1);
      CopiesStep(s, n - 1);
    }
  }

  lemma NoCopies(s: State)
    requires Sound(s) && s.sender.Leg? && s.r + s.sender.copied <= SIZE
    ensures Run(s, Copies(0), AfterCopies(s, 0))
  {
    assert s.conn.sent + [] == s.conn.sent;
  }

  lemma CopiesStep(s: State, n: nat)
    requires Sound(s) && s.sender.Leg? && s.sender.copied + n < s.sender.want
    requires s.r + s.sender.copied + n < SIZE
    requires Run(s, Copies(n), AfterCopies(s, n))
    ensures Run(s, Copies(n + 1), AfterCopies(s, n + 1))
  {
    hide Do, Enabled, AfterCopies, Run;
    OneMoreCopy(s, n);
    RunOneMore(s, Copies(n), AfterCopies(s, n), Copy, AfterCopies(s, n + 1));
  }

  /** One whole send call that takes n bytes. */
  lemma LegRun(s: State, n: nat)
    requires Sound(s) && s.sender.Leg? && s.sender.copied == 0 && n <= s.sender.want && s.r + n <= SIZE
    ensures Run(s, Copies(n) + [Return], AfterReturn(AfterCopies(s, n)))
  {
    CopiesRun(s, n);
    RunOneMore(s, Copies(n), AfterCopies(s, n), Return, AfterReturn(AfterCopies(s, n)));
  }

  function Took(answer: int, want: nat): nat {
    if Sending.Accepted(answer, want) > 0 then Sending.Accepted(answer, want) else 0
  }

  /** Whether a turn goes on to a second send: the first one took everything up to the end of the ring. */
  predicate GoesRound(s: State, k: Sending.Socket)
    requires Sound(s)
  {
    s.w < s.r && Took(k.first, SIZE - s.r) == SIZE - s.r
  }

  function FirstTook(s: State, k: Sending.Socket): nat
    requires Sound(s)
  {
    Took(k.first, if s.w > s.r then s.w - s.r else SIZE - s.r)
  }

  /** The steps of a turn of the sender in which nobody else moves. */
  function TurnSteps(s: State, k: Sending.Socket): seq<Step>
    requires Sound(s)
  {
    var first := [Snapshot] + (Copies(FirstTook(s, k)) + [Return]);
    if GoesRound(s, k) then first + (Copies(Took(k.second, s.w)) + [Return]) else first
  }

  function AfterFirst(s: State, k: Sending.Socket): State
    requires Sound(s) && s.w != s.r
  {
    AfterReturn(AfterCopies(AfterSnapshot(s), FirstTook(s, k)))
  }

  function AfterTurn(s: State, k: Sending.Socket): State
    requires Sound(s) && s.w != s.r
  {
    if GoesRound(s, k) then AfterReturn(AfterCopies(AfterFirst(s, k), Took(k.second, s.w))) else AfterFirst(s, k)
  }

  lemma FirstRun(s: State, k: Sending.Socket)
    requires Sound(s) && s.sender == Idle && s.capturing && s.fd >= 0 && s.w != s.r
    ensures Run(s, [Snapshot] + (Copies(FirstTook(s, k)) + [Return]), AfterFirst(s, k))
  {
    var s1, n := AfterSnapshot(s), FirstTook(s, k);
    RunOfOne(s, Snapshot);
    LegRun(s1, n);
    RunJoin(s, [Snapshot], s1, Copies(n) + [Return], AfterFirst(s, k));
  }

  lemma TurnRun(s: State, k: Sending.Socket)
    requires Sound(s) && s.sender == Idle && s.capturing && s.fd >= 0 && s.w != s.r
    ensures Run(s, TurnSteps(s, k), AfterTurn(s, k))
  {
    FirstRun(s, k);
    if GoesRound(s, k) {
      var s2, n2 := AfterFirst(s, k), Took(k.second, s.w);
      assert s2.sender == Leg(s.w, true, s.w, 0) && s2.r == 0;
      LegRun(s2, n2);
      hide Run, AfterFirst, AfterCopies, AfterReturn, FirstTook, Copies;
      RunJoin(s, [Snapshot] + (Copies(FirstTook(s, k)) + [Return]), s2, Copies(n2) + [Return], AfterTurn(s, k));
    }
  }

  /** Such a turn is the call that Sending specifies: same bytes, same read position, same verdict. */
  lemma TurnRefinesSend(s: State, k: Sending.Socket)
    requires Sound(s) && s.sender == Idle && s.capturing && s.fd >= 0 && s.w != s.r
    ensures Run(s, TurnSteps(s, k), AfterTurn(s, k))
    ensures var o, t := Sending.Send(s.ring, s.r, s.w, [], k), AfterTurn(s, k);
            && t.r == o.readPos && t.conn.sent == s.conn.sent + o.bytes
            && t.sender == (if o.ok then Posting else Stopping)
            && t.ring == s.ring && t.w == s.w && t.producer == s.producer
  {
    TurnRun(s, k);
    if GoesRound(s, k) {
      RoundTurn(s, k);
    } else {
      FlatTurn(s, k);
    }
  }

  lemma FlatTurn(s: State, k: Sending.Socket)
    requires Sound(s) && s.w != s.r && !GoesRound(s, k)
    ensures var o, t := Sending.Send(s.ring, s.r, s.w, [], k), AfterTurn(s, k);
            && t.r == o.readPos && t.conn.sent == s.conn.sent + o.bytes
            && t.sender == (if o.ok then Posting else Stopping)
            && t.ring == s.ring && t.w == s.w && t.producer == s.producer
  {
    if s.w > s.r {
      FlatAhead(s, k);
    } else {
      FlatToEnd(s, k);
    }
    hide *;
  }

  lemma FlatAhead(s: State, k: Sending.Socket)
    requires Sound(s) && s.w > s.r
    ensures var o, t := Sending.Send(s.ring, s.r, s.w, [], k), AfterFirst(s, k);
            && !GoesRound(s, k)
            && t.r == o.readPos && t.conn.sent == s.conn.sent + o.bytes
            && t.sender == (if o.ok then Posting else Stopping)
            && t.ring == s.ring && t.w == s.w && t.producer == s.producer
  {
  }

  lemma FlatToEnd(s: State, k: Sending.Socket)
    requires Sound(s) && s.w < s.r && !GoesRound(s, k)
    ensures var o, t := Sending.Send(s.ring, s.r, s.w, [], k), AfterFirst(s, k);
            && t.r == o.readPos && t.conn.sent == s.conn.sent + o.bytes
            && t.sender == (if o.ok then Posting else Stopping)
            && t.ring == s.ring && t.w == s.w && t.producer == s.producer
  {
  }

  lemma RoundTurn(s: State, k: Sending.Socket)
    requires Sound(s) && s.w != s.r && GoesRound(s, k)
    ensures var o, t := Sending.Send(s.ring, s.r, s.w, [], k), AfterTurn(s, k);
            && t.r == o.readPos && t.conn.sent == s.conn.sent + o.bytes
            && t.sender == (if o.ok then Posting else Stopping)
            && t.ring == s.ring && t.w == s.w && t.producer == s.producer
  {
    var n2 := Took(k.second, s.w);
    var tail := s.ring[s.r..s.r + (SIZE - s.r)];
    assert tail == s.ring[s.r..] && s.ring[0..0 + n2] == s.ring[..n2];
    Associative(s.conn.sent, tail, s.ring[..n2]);
  }

  /** The stores of a frame in order. */
  function Stores(n: nat): seq<Step> {
    if n == 0 then [] else Stores(n - 1) + [Store(n - 1)]
  }

  function FirstOffsets(n: nat): (o: set<nat>)
    ensures forall i: nat :: i in o <==> i < n
  {
    if n == 0 then {} else FirstOffsets(n - 1) + {n - 1}
  }

  /** The state after the first n bytes of the frame have been stored. */
  function AfterStores(s: State, n: nat): State
    requires Sound(s) && s.producer.Writing? && n <= |RingFrame(s.producer.m)| <= SIZE
  {
    s.(ring := Put(s.ring, s.w, RingFrame(s.producer.m)[..n]), producer := s.producer.(done := FirstOffsets(n)))
  }

  lemma OneMoreStore(s: State, n: nat)
    requires Sound(s) && s.producer.Writing? && n < |RingFrame(s.producer.m)| <= SIZE
    ensures Enabled(AfterStores(s, n), Store(n)) && Do(AfterStores(s, n), Store(n)) == AfterStores(s, n + 1)
  {
    var u := AfterStores(s, n);
    hide RingFrame, Put, Pos;
    NextPut(s.ring, s.w, RingFrame(s.producer.m), n);
    assert Enabled(u, Store(n)) && Do(u, Store(n)) == AfterStore(u, n);
    hide Enabled, Do;
  }

  lemma NextPut(a: slots, w: nat, frame: seq<byte>, n: nat)
    requires w < SIZE && n < |frame| <= SIZE
    ensures Put(a, w, frame[..n + 1]) == Put(a, w, frame[..n])[Pos(w + n) := frame[n]]
  {
    hide Put;
    PutByte(a, w, frame[..n], frame[n]);
    assert frame[..n + 1] == frame[..n] + [frame[n]];
  }

  lemma {:induction false} StoresRun(s: State, n: nat)
    requires Sound(s) && s.producer.Writing? && s.producer.done == {} && n <= |RingFrame(s.producer.m)| <= SIZE
    ensures Run(s, Stores(n), AfterStores(s, n))
  {
    hide RingFrame, Put, Do, Enabled;
    if n == 0 {
      PutNothing(s.ring, s.w);
    } else {
      hide AfterStores, Run;
      StoresRun(s, n - 1);
      OneMoreStore(s, n - 1);
      RunOneMore(s, Stores(n - 1), AfterStores(s, n - 1), Store(n - 1), AfterStores(s, n));
    }
  }

  /** An undisturbed emission leaves what the methods of GatorThread leave: one Put and the new write position. */
  lemma EmissionRefinesPut(s: State, m: Message, more: bool) returns (t: State)
    requires Sound(s) && s.producer.Inside? && (more ==> s.producer.resend && Listed(m))
    requires Sendable(m) && Reserved(m) <= Free(s.r, s.w)
    ensures Run(s, Emission(m, more), t)
    ensures t.ring == Put(s.ring, s.w, RingFrame(m)) && t.w == Pos(s.w + |RingFrame(m)|) && t.r == s.r
    ensures t.log == s.log + [m] && t.producer == (if more then Inside(true) else Ready)
    ensures t.sender == s.sender && t.capturing == s.capturing && t.sem == s.sem && t.resend == s.resend
  {
    var n := |RingFrame(m)|;
    assert RingFrame(m)[..n] == RingFrame(m);
    BeginRun(s, m, more);
    var s2 := s.(producer := Writing(m, more, {}));
    FrameSize(m);
    hide Do, Enabled, RingFrame, Put, Sendable, Reserved, Run;
    StoresRun(s2, n);
    t := CommitRun(s2, n);
    RunJoin(s, [Begin(m, more), CheckFree], s2, Stores(n) + [Commit], t);
    assert Emission(m, more) == [Begin(m, more), CheckFree] + (Stores(n) + [Commit]);
  }

  function Emission(m: Message, more: bool): seq<Step> {
    [Begin(m, more), CheckFree] + Stores(|RingFrame(m)|) + [Commit]
  }

  lemma FrameSize(m: Message)
    requires Sendable(m)
    ensures |RingFrame(m)| <= SIZE
  {
    FrameOfSendable(m);
  }

  lemma BeginRun(s: State, m: Message, more: bool)
    requires Sound(s) && s.producer.Inside? && (more ==> s.producer.resend && Listed(m))
    requires Sendable(m) && Reserved(m) <= Free(s.r, s.w)
    ensures Run(s, [Begin(m, more), CheckFree], s.(producer := Writing(m, more, {})))
  {
    hide Run, Sendable, Reserved;
    RunOfTwo(s, Begin(m, more), CheckFree);
  }

  lemma CommitRun(s: State, n: nat) returns (t: State)
    requires Sound(s) && s.producer.Writing? && n == |RingFrame(s.producer.m)| <= SIZE
    requires Run(s, Stores(n), AfterStores(s, n)) && RingFrame(s.producer.m)[..n] == RingFrame(s.producer.m)
    ensures Run(s, Stores(n) + [Commit], t)
    ensures var u, m := AfterStores(s, n), s.producer.m;
            t == AfterCommit(u, m, s.producer.more) && u.ring == Put(s.ring, s.w, RingFrame(m))
  {
    var u := AfterStores(s, n);
    t := AfterCommit(u, s.producer.m, s.producer.more);
    hide Run, RingFrame, Put;
    RunOneMore(s, Stores(n), u, Commit, t);
  }
}
