// The rendezvous of DestTensor: one mutex, one condition variable and the flags
// r, *ready and *data_ready, with a sender that runs `toSend` rounds of
// send_data and a receiver that runs `toReceive` rounds of wait_for_data.
// Waiting threads may wake without being notified.

module Rendezvous {

  datatype Owner = Nobody | Sender | Receiver

  /** The program points of send_data. */
  datatype SendPoint =
    | SEnter       // about to lock the mutex, or out of rounds
    | STest        // about to test r
    | SWait        // in the wait set
    | SWoken       // woken, about to lock the mutex again
    | SClearReady | SClearR | SSetData | SNotify | SUnlock

  /** The program points of wait_for_data. */
  datatype ReceivePoint =
    | REnter
    | RSetReady | RSetR | RNotify
    | RTest        // about to test *data_ready
    | RWait | RWoken
    | RClear | RUnlock

  datatype State = State(
    toSend: nat, toReceive: nat, lock: Owner, ready: bool, r: bool, dataReady: bool,
    s: SendPoint, v: ReceivePoint, sends: nat, receives: nat)

  datatype Step = SStep | RStep | SSpurious | RSpurious

  ghost predicate Initial(c: State) {
    && c.lock == Nobody && !c.ready && !c.r && !c.dataReady
    && c.s == SEnter && c.v == REnter && c.sends == 0 && c.receives == 0
  }

  predicate Enabled(c: State, step: Step) {
    match step
    case SStep =>
      (match c.s
       case SEnter => c.sends < c.toSend && c.lock == Nobody
       case SWait => false
       case SWoken => c.lock == Nobody
       case _ => true)
    case RStep =>
      (match c.v
       case REnter => c.receives < c.toReceive && c.lock == Nobody
       case RWait => false
       case RWoken => c.lock == Nobody
       case _ => true)
    case SSpurious => c.s == SWait
    case RSpurious => c.v == RWait
  }

  function AfterSender(c: State): State {
    match c.s
    case SEnter => c.(lock := Sender, s := STest)
    case STest => if c.r then c.(s := SClearReady) else c.(lock := Nobody, s := SWait)
    case SWait => c
    case SWoken => c.(lock := Sender, s := STest)
    case SClearReady => c.(ready := false, s := SClearR)
    case SClearR => c.(r := false, s := SSetData)
    case SSetData => c.(dataReady := true, s := SNotify)
    case SNotify => c.(v := if c.v == RWait then RWoken else c.v, s := SUnlock)
    case SUnlock => c.(lock := Nobody, s := SEnter, sends := c.sends + 1)
  }

  function AfterReceiver(c: State): State {
    match c.v
    case REnter => c.(lock := Receiver, v := RSetReady)
    case RSetReady => c.(ready := true, v := RSetR)
    case RSetR => c.(r := true, v := RNotify)
    case RNotify => c.(s := if c.s == SWait then SWoken else c.s, v := RTest)
    case RTest => if c.dataReady then c.(v := RClear) else c.(lock := Nobody, v := RWait)
    case RWait => c
    case RWoken => c.(lock := Receiver, v := RTest)
    case RClear => c.(dataReady := false, v := RUnlock)
    case RUnlock => c.(lock := Nobody, v := REnter, receives := c.receives + 1)
  }

  function Do(c: State, step: Step): State
    requires Enabled(c, step)
  {
    match step
    case SStep => AfterSender(c)
    case RStep => AfterReceiver(c)
    case SSpurious => c.(s := SWoken)
    case RSpurious => c.(v := RWoken)
  }

  predicate Run(c: State, steps: seq<Step>, d: State)
    decreases |steps|
  {
    if steps == [] then c == d
    else Enabled(c, steps[0]) && Run(Do(c, steps[0]), steps[1..], d)
  }

  // ---------------------------------------------------------------- invariant

  predicate SenderOut(c: State) {
    c.s == SEnter || c.s == SWait || c.s == SWoken
  }

  predicate ReceiverOut(c: State) {
    c.v == REnter || c.v == RWait || c.v == RWoken
  }

  predicate LockInv(c: State) {
    && (c.lock == Sender <==> !SenderOut(c))
    && (c.lock == Receiver <==> !ReceiverOut(c))
  }

  // The three phases of a round, and the values on the way from one to the next.

  predicate Flags(c: State, ready: bool, r: bool, dataReady: bool) {
    c.ready == ready && c.r == r && c.dataReady == dataReady
  }

  predicate Quiet(c: State) { Flags(c, false, false, false) && c.sends == c.receives }
  predicate Asked(c: State) { Flags(c, true, true, false) && c.sends == c.receives }
  predicate Answered(c: State) { Flags(c, false, false, true) && c.sends == c.receives + 1 }

  predicate PhaseInv(c: State) {
    match c.v
    case REnter => Quiet(c) && (SenderOut(c) || c.s == STest)
    case RSetReady => Quiet(c)
    case RSetR => Flags(c, true, false, false) && c.sends == c.receives
    case RNotify => Asked(c)
    case RTest => (Asked(c) && c.s != SWait) || Answered(c)
    case RClear => Answered(c)
    case RUnlock => Flags(c, false, false, false) && c.sends == c.receives + 1
    case _ =>
      match c.s
      case SClearReady => Asked(c)
      case SClearR => Flags(c, false, true, false) && c.sends == c.receives
      case SSetData => Flags(c, false, false, false) && c.sends == c.receives
      case SNotify => Flags(c, false, false, true) && c.sends == c.receives
      case SUnlock => Flags(c, false, false, true) && c.sends == c.receives && c.v != RWait
      case _ => (Asked(c) && c.s != SWait) || (Answered(c) && c.v != RWait)
  }

  predicate RoundInv(c: State) {
    && c.sends <= c.toSend && c.receives <= c.toReceive
    && (c.s != SEnter ==> c.sends < c.toSend)
    && (c.v != REnter ==> c.receives < c.toReceive)
  }

  predicate Inv(c: State) {
    LockInv(c) && PhaseInv(c) && RoundInv(c)
  }

  lemma SenderInv(c: State)
    requires Inv(c) && Enabled(c, SStep)
    ensures Inv(AfterSender(c))
  {
    if SenderOut(c) {
      SenderEnters(c);
    } else {
      SenderWorks(c);
    }
    hide Inv, AfterSender;
  }

  lemma SenderEnters(c: State)
    requires Inv(c) && Enabled(c, SStep) && SenderOut(c)
    ensures Inv(AfterSender(c))
  {
  }

  lemma SenderWorks(c: State)
    requires Inv(c) && Enabled(c, SStep) && !SenderOut(c)
    ensures Inv(AfterSender(c))
  {
  }

  lemma ReceiverInv(c: State)
    requires Inv(c) && Enabled(c, RStep)
    ensures Inv(AfterReceiver(c))
  {
  }

  lemma SpuriousInv(c: State, step: Step)
    requires Inv(c) && Enabled(c, step) && (step == SSpurious || step == RSpurious)
    ensures Inv(Do(c, step))
  {
  }

  lemma StepInv(c: State, step: Step)
    requires Inv(c) && Enabled(c, step)
    ensures Inv(Do(c, step))
  {
    hide Inv, AfterSender, AfterReceiver;
    match step
    case SStep => SenderInv(c);
    case RStep => ReceiverInv(c);
    case _ => SpuriousInv(c, step);
  }

  lemma {:induction false} RunInv(c: State, steps: seq<Step>, d: State)
    requires Inv(c) && Run(c, steps, d)
    ensures Inv(d) && d.toSend == c.toSend && d.toReceive == c.toReceive
    decreases |steps|
  {
    if steps != [] {
      SameRounds(c, steps[0]);
      hide Inv, Enabled, Do;
      StepInv(c, steps[0]);
      RunInv(Do(c, steps[0]), steps[1..], d);
    }
  }

  lemma SameRounds(c: State, step: Step)
    requires Enabled(c, step)
    ensures Do(c, step).toSend == c.toSend && Do(c, step).toReceive == c.toReceive
  {
  }

  // --------------------------------------------------------------- whole runs

  /**
    * Lockstep: the k-th send pairs with the k-th receive, no two threads hold
    * the mutex, the data flag is never up together with either request flag, and
    * the two request flags agree whenever the mutex is free.
    */
  lemma Lockstep(c: State, steps: seq<Step>, d: State)
    requires Initial(c) && Run(c, steps, d)
    ensures d.receives <= d.sends <= d.receives + 1
    ensures SenderOut(d) || ReceiverOut(d)
    ensures !(d.r && d.dataReady) && !(d.ready && d.dataReady)
    ensures d.lock == Nobody ==> d.ready == d.r
  {
    RunInv(c, steps, d);
  }

  /** No wakeup is lost: with the mutex free nobody waits for a flag that is up. */
  lemma NoLostWakeup(c: State, steps: seq<Step>, d: State)
    requires Initial(c) && Run(c, steps, d) && d.lock == Nobody
    ensures d.s == SWait ==> !d.r
    ensures d.v == RWait ==> !d.dataReady
  {
    RunInv(c, steps, d);
  }

  predicate Final(c: State) {
    c.s == SEnter && c.sends == c.toSend && c.v == REnter && c.receives == c.toReceive && c.lock == Nobody
  }

  /** Nothing can happen but a spurious wakeup. */
  predicate Stuck(c: State) {
    !Enabled(c, SStep) && !Enabled(c, RStep)
  }

  /**
    * A run comes to rest only when the smaller number of rounds has been done on
    * both sides, and it then rests in the final state exactly when the numbers
    * of rounds are the same: with equal numbers there is no deadlock, with
    * different ones the surplus rounds wait for ever.
    */
  lemma RestIff(c: State, steps: seq<Step>, d: State)
    requires Initial(c) && Run(c, steps, d) && Stuck(d)
    ensures d.sends == d.receives == if c.toSend <= c.toReceive then c.toSend else c.toReceive
    ensures Final(d) <==> c.toSend == c.toReceive
    ensures d.s == SWait <==> c.toSend > c.toReceive
    ensures d.v == RWait <==> c.toReceive > c.toSend
  {
    RunInv(c, steps, d);
  }

  /** A measure of the work left; a wakeup, which adds 2, is paid for by the notification. */
  function Work(c: State): nat
    requires RoundInv(c)
  {
    20 * (c.toSend - c.sends) + 20 * (c.toReceive - c.receives) + SendWork(c.s) + ReceiveWork(c.v)
  }

  function SendWork(s: SendPoint): nat {
    match s
    case SEnter => 11
    case SWoken => 11
    case STest => 10
    case SWait => 9
    case SClearReady => 9
    case SClearR => 8
    case SSetData => 7
    case SNotify => 6
    case SUnlock => 3
  }

  function ReceiveWork(v: ReceivePoint): nat {
    match v
    case REnter => 17
    case RSetReady => 16
    case RSetR => 15
    case RNotify => 14
    case RWoken => 11
    case RTest => 10
    case RWait => 9
    case RClear => 8
    case RUnlock => 7
  }

  function Spurious(steps: seq<Step>): nat {
    if steps == [] then 0
    else (if steps[0].SSpurious? || steps[0].RSpurious? then 1 else 0) + Spurious(steps[1..])
  }

  lemma SenderWork(c: State)
    requires RoundInv(c) && Enabled(c, SStep) && RoundInv(AfterSender(c))
    ensures Work(AfterSender(c)) < Work(c)
  {
  }

  lemma ReceiverWork(c: State)
    requires RoundInv(c) && Enabled(c, RStep) && RoundInv(AfterReceiver(c))
    ensures Work(AfterReceiver(c)) < Work(c)
  {
  }

  lemma SpuriousWork(c: State, step: Step)
    requires RoundInv(c) && Enabled(c, step) && (step == SSpurious || step == RSpurious) && RoundInv(Do(c, step))
    ensures Work(Do(c, step)) == Work(c) + 2
  {
  }

  lemma WorkStep(c: State, step: Step)
    requires Inv(c) && Enabled(c, step)
    ensures Inv(Do(c, step))
    ensures Work(Do(c, step)) < Work(c) || ((step.SSpurious? || step.RSpurious?) && Work(Do(c, step)) == Work(c) + 2)
  {
    StepInv(c, step);
    hide PhaseInv, LockInv, RoundInv, Work, AfterSender, AfterReceiver, Enabled;
    match step
    case SStep => SenderWork(c);
    case RStep => ReceiverWork(c);
    case _ => SpuriousWork(c, step);
  }

  lemma {:induction false} WorkGoesDown(c: State, steps: seq<Step>, d: State)
    requires Inv(c) && Run(c, steps, d)
    ensures Inv(d) && |steps| + Work(d) <= Work(c) + 3 * Spurious(steps)
    decreases |steps|
  {
    if steps != [] {
      hide Inv, Enabled, Do, Work;
      WorkStep(c, steps[0]);
      WorkGoesDown(Do(c, steps[0]), steps[1..], d);
    }
  }

  /**
    * Runs are finite as far as the program goes: their length is bounded by the
    * rounds and the spurious wakeups, so a run that wakes spuriously only
    * finitely often comes to rest.
    */
  lemma RunsAreBounded(c: State, steps: seq<Step>, d: State)
    requires Initial(c) && Run(c, steps, d)
    ensures |steps| <= 20 * (c.toSend + c.toReceive) + 28 + 3 * Spurious(steps)
  {
    WorkGoesDown(c, steps, d);
  }

  /** A thread woken for nothing, with the mutex free and its flag down, goes back to where it was. */
  lemma SpuriousWakeupsAreHarmless(c: State)
    requires c.lock == Nobody
    ensures c.s == SWait && !c.r ==> Run(c, [SSpurious, SStep, SStep], c)
    ensures c.v == RWait && !c.dataReady ==> Run(c, [RSpurious, RStep, RStep], c)
  {
    if c.s == SWait && !c.r {
      RunOfThree(c, SSpurious, SStep, SStep);
    }
    if c.v == RWait && !c.dataReady {
      RunOfThree(c, RSpurious, RStep, RStep);
    }
  }

  lemma RunOfThree(c: State, x: Step, y: Step, z: Step)
    requires Enabled(c, x) && Enabled(Do(c, x), y) && Enabled(Do(Do(c, x), y), z)
    ensures Run(c, [x, y, z], Do(Do(Do(c, x), y), z))
  {
    hide Enabled, Do;
    var d := Do(Do(c, x), y);
    assert [z][1..] == [] && [y, z][1..] == [z] && [x, y, z][1..] == [y, z];
    assert Run(d, [z], Do(d, z));
    assert Run(Do(c, x), [y, z], Do(d, z));
  }
}
