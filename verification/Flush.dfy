// gator_annotate_flush against the loop of gator_func: any number of callers
// post a request and wait for an anonymous completion; the sender drains the
// requests, makes a pass over the thread list and posts one completion for
// each. The test of the capture and the post are two steps, and the capture may go
// off between them. The ring of one thread, `owner`, is followed by its byte
// counts: a turn of the sender sends bytes, a stop drops those still unread.

module Flush {

  /**
    * What is remembered of a caller in flush: the passes begun before it asked,
    * the bytes the owner had committed and the bytes stops had dropped by then.
    */
  datatype Ticket = Ticket(stamp: nat, want: nat, lost: nat)

  /** The loop of gator_func; `count` is sync_count. */
  datatype Sender =
    | Top
    | Draining(count: nat)
    | Passing(count: nat, visited: bool)
    | Posting(count: nat)

  datatype State = State(
    capturing: bool, syncSem: nat, waiterSem: nat, sender: Sender,
    owner: nat, committed: nat, sent: nat, lost: nat,
    // callers that have passed the test of the capture, and those that wait
    testing: set<nat>, waiting: map<nat, Ticket>,
    // history: requests made, drained, posted and returned; passes begun and ended; the
    // numbers of the last pass in which the owner had a turn, and all of its ring was sent
    requests: nat, drained: nat, posts: nat, returned: nat, begun: nat, ended: nat, lastTurn: nat, fullPass: nat)

  datatype Step =
    | Test(caller: nat) | Request(caller: nat) | Return(caller: nat) | CommitBytes(n: nat) | Capture(on: bool)
    | BeginDrain | Drain | BeginPass | Visit(full: bool, bytes: nat) | EndPass | PostOne | EndLoop

  ghost predicate Initial(s: State) {
    && s.syncSem == 0 && s.waiterSem == 0 && s.sender == Top && s.committed == 0 && s.sent == 0 && s.lost == 0
    && s.testing == {} && s.waiting == map[] && s.requests == 0 && s.drained == 0 && s.posts == 0 && s.returned == 0
    && s.begun == 0 && s.ended == 0 && s.lastTurn == 0 && s.fullPass == 0
  }

  /**
    * Only the sender turns the capture on and off: on at the top of its loop,
    * off there or during a pass. With the capture off it stays at the top.
    */
  predicate Enabled(s: State, step: Step) {
    match step
    case Test(c) => s.capturing && c !in s.testing && c !in s.waiting
    case Request(c) => c in s.testing && c !in s.waiting
    case Return(c) => c in s.waiting && s.waiterSem > 0
    case CommitBytes(_) => s.owner !in s.testing && s.owner !in s.waiting
    case Capture(on) => s.sender == Top || (!on && s.sender.Passing?)
    case BeginDrain => s.sender == Top && s.capturing
    case Drain => s.sender.Draining? && s.syncSem > 0
    case BeginPass => s.sender.Draining? && s.syncSem == 0
    case Visit(_, _) => s.sender.Passing? && !s.sender.visited
    case EndPass => s.sender.Passing? && s.sender.visited
    case PostOne => s.sender.Posting? && s.sender.count > 0
    case EndLoop => s.sender == Posting(0)
  }

  /** The bytes in the owner's ring. */
  function Unread(s: State): nat {
    if s.sent + s.lost <= s.committed then s.committed - s.sent - s.lost else 0
  }

  /** The owner's turn in a pass: everything goes out, or less, or the capture is off and nothing does. */
  function AfterVisit(s: State, full: bool, bytes: nat): State
    requires s.sender.Passing?
  {
    if s.capturing && full then
      s.(sent := s.sent + Unread(s), lastTurn := s.begun, fullPass := s.begun, sender := Passing(s.sender.count, true))
    else
      s.(sent := s.sent + (if !s.capturing then 0 else if bytes < Unread(s) then bytes else Unread(s)),
         lastTurn := s.begun, sender := Passing(s.sender.count, true))
  }

  /** A stop empties the ring. */
  function AfterCapture(s: State, on: bool): State {
    if s.capturing && !on then s.(capturing := false, lost := s.lost + Unread(s)) else s.(capturing := on)
  }

  function Do(s: State, step: Step): State
    requires Enabled(s, step)
  {
    match step
    case Test(c) => s.(testing := s.testing + {c})
    case Request(c) =>
      s.(syncSem := s.syncSem + 1, requests := s.requests + 1, testing := s.testing - {c},
         waiting := s.waiting[c := Ticket(s.begun, s.committed, s.lost)])
    case Return(c) => s.(waiterSem := s.waiterSem - 1, returned := s.returned + 1, waiting := s.waiting - {c})
    case CommitBytes(n) => s.(committed := s.committed + n)
    case Capture(on) => AfterCapture(s, on)
    case BeginDrain => s.(sender := Draining(0))
    case Drain => s.(syncSem := s.syncSem - 1, drained := s.drained + 1, sender := Draining(s.sender.count + 1))
    case BeginPass => s.(sender := Passing(s.sender.count, false), begun := s.begun + 1)
    case Visit(full, bytes) => AfterVisit(s, full, bytes)
    case EndPass => s.(sender := Posting(s.sender.count), ended := s.ended + 1)
    case PostOne => s.(waiterSem := s.waiterSem + 1, posts := s.posts + 1, sender := Posting(s.sender.count - 1))
    case EndLoop => s.(sender := Top)
  }

  predicate Run(s: State, steps: seq<Step>, t: State)
    decreases |steps|
  {
    if steps == [] then s == t
    else Enabled(s, steps[0]) && Run(Do(s, steps[0]), steps[1..], t)
  }

  // -------------------------------------------------------------- conservation

  /** The requests drained and not posted yet. */
  function Carried(s: State): nat {
    if s.sender.Top? then 0 else s.sender.count
  }

  /** Every request is in exactly one place. */
  predicate Conserved(s: State) {
    && s.requests == s.syncSem + s.drained
    && s.drained == s.posts + Carried(s)
    && s.posts == s.waiterSem + s.returned
    && s.requests == s.returned + |s.waiting|
    && s.begun == s.ended + (if s.sender.Passing? then 1 else 0)
    && s.sent + s.lost <= s.committed
    && s.fullPass <= s.begun
    && s.lastTurn == s.begun - (if s.sender.Passing? && !s.sender.visited then 1 else 0)
    && (s.sender.Draining? ==> s.capturing)
  }

  lemma Entering(m: map<nat, Ticket>, c: nat, k: Ticket)
    requires c !in m
    ensures |m[c := k]| == |m| + 1
  {
    assert m[c := k].Keys == m.Keys + {c};
  }

  lemma Leaving(m: map<nat, Ticket>, c: nat)
    requires c in m
    ensures |m - {c}| == |m| - 1
  {
    assert (m - {c}).Keys == m.Keys - {c};
  }

  lemma ConservedStep(s: State, step: Step)
    requires Conserved(s) && Enabled(s, step)
    ensures Conserved(Do(s, step))
  {
    if step.Request? {
      Entering(s.waiting, step.caller, Ticket(s.begun, s.committed, s.lost));
    } else if step.Return? {
      Leaving(s.waiting, step.caller);
    } else {
      ConservedElsewhere(s, step);
    }
  }

  lemma ConservedElsewhere(s: State, step: Step)
    requires Conserved(s) && Enabled(s, step) && !step.Request? && !step.Return?
    ensures Conserved(Do(s, step))
  {
    SameWaiting(s, step);
  }

  lemma SameWaiting(s: State, step: Step)
    requires Enabled(s, step) && !step.Request? && !step.Return?
    ensures Do(s, step).waiting == s.waiting
  {
  }

  lemma {:induction false} ConservedRun(s: State, steps: seq<Step>, t: State)
    requires Conserved(s) && Run(s, steps, t)
    ensures Conserved(t)
    decreases |steps|
  {
    if steps != [] {
      hide Conserved, Enabled, Do;
      ConservedStep(s, steps[0]);
      ConservedRun(Do(s, steps[0]), steps[1..], t);
    }
  }

  /**
    * Flush conservation: no flush returns that was not posted, none is posted
    * that was not drained, none is drained that was not requested; between two
    * iterations of the sender everything drained has been posted.
    */
  lemma FlushConservation(s: State, steps: seq<Step>, t: State)
    requires Initial(s) && Run(s, steps, t)
    ensures t.returned <= t.posts <= t.drained <= t.requests
    ensures t.sender == Top ==> t.posts == t.drained
    ensures t.sender == Top && t.syncSem == 0 ==> t.waiterSem == |t.waiting|
  {
    ConservedRun(s, steps, t);
  }

  // ------------------------------------------------------ a pass of its own

  ghost predicate Reachable(s: State) {
    exists i: State, steps: seq<Step> :: Initial(i) && Run(i, steps, s)
  }

  lemma ReachableConserved(s: State)
    requires Reachable(s)
    ensures Conserved(s)
  {
    hide Conserved, Run;
    var i: State, steps: seq<Step> :| Initial(i) && Run(i, steps, s);
    InitialConserved(i);
    ConservedRun(i, steps, s);
  }

  lemma InitialConserved(s: State)
    requires Initial(s)
    ensures Conserved(s)
  {
  }

  /** No completion is there to be taken, or will be before the next pass begins. */
  predicate NoneUnderWay(s: State) {
    s.waiterSem == 0 && (s.sender.Passing? || s.sender.Posting? ==> s.sender.count == 0)
  }

  /** A run after caller c has made its request in s, up to some point at which c has not returned. */
  predicate InFlush(s: State, c: nat, steps: seq<Step>, t: State) {
    Enabled(s, Request(c)) && Return(c) !in steps && Run(Do(s, Request(c)), steps, t)
  }

  /** What is known of a caller in flush whose completion can only come from a pass of its own. */
  predicate Waits(s: State, c: nat, k: Ticket) {
    && c in s.waiting && s.waiting[c] == k
    && k.stamp <= s.begun && k.lost <= s.lost
    && (s.sender.Passing? && s.sender.count > 0 ==> k.stamp < s.begun)
    && ((s.sender.Posting? && s.sender.count > 0) || s.waiterSem > 0 ==> k.stamp < s.ended)
  }

  /** The owner's bytes leave the ring with the first full turn in a pass of its own. */
  predicate Leaves(s: State, c: nat, k: Ticket) {
    && c in s.waiting && k.want <= s.committed
    && (c == s.owner ==> k.want == s.committed)
    && (c == s.owner && s.fullPass > k.stamp ==> s.sent + s.lost >= k.want)
  }

  lemma WaitsStep(s: State, step: Step, c: nat, k: Ticket)
    requires Conserved(s) && Enabled(s, step) && Waits(s, c, k) && step != Return(c)
    ensures Waits(Do(s, step), c, k)
  {
  }

  lemma LeavesStep(s: State, step: Step, c: nat, k: Ticket)
    requires Conserved(s) && Enabled(s, step) && Leaves(s, c, k) && step != Return(c)
    ensures Leaves(Do(s, step), c, k)
  {
  }

  lemma {:induction false} FlushRun(s: State, steps: seq<Step>, t: State, c: nat, k: Ticket)
    requires Conserved(s) && Run(s, steps, t) && Return(c) !in steps && Leaves(s, c, k)
    ensures Leaves(t, c, k) && (Waits(s, c, k) ==> Waits(t, c, k))
    decreases |steps|
  {
    if steps != [] {
      hide Conserved, Enabled, Do, Waits, Leaves;
      ConservedStep(s, steps[0]);
      LeavesStep(s, steps[0], c, k);
      if Waits(s, c, k) {
        WaitsStep(s, steps[0], c, k);
      }
      FlushRun(Do(s, steps[0]), steps[1..], t, c, k);
    }
  }

  /**
    * A flush that posts while no completion is under way returns only after
    * a pass that began after its request has ended, in which its caller's ring has
    * had a turn, whatever other callers do meanwhile; and as soon as the caller's turn in a pass of its own was full,
    * every byte it had committed has left the ring. Without a stop since the
    * request it was sent, unless an earlier stop had dropped it.
    */
  lemma FlushIsSynchronous(s: State, c: nat, steps: seq<Step>, t: State)
    requires Reachable(s) && NoneUnderWay(s) && InFlush(s, c, steps, t)
    ensures Enabled(t, Return(c)) ==> s.begun < t.ended && s.begun < t.lastTurn
    ensures c == t.owner && t.fullPass > s.begun ==> t.sent + t.lost >= s.committed
    ensures c == t.owner && t.fullPass > s.begun && t.lost == s.lost ==> t.sent >= s.committed - s.lost
  {
    var k := Ticket(s.begun, s.committed, s.lost);
    ReachableConserved(s);
    ConservedStep(s, Request(c));
    ConservedRun(Do(s, Request(c)), steps, t);
    hide Run;
    FlushRun(Do(s, Request(c)), steps, t, c, k);
  }

  /** Nobody being in flush is enough. */
  lemma AloneIsEnough(s: State)
    requires Reachable(s) && s.waiting == map[]
    ensures NoneUnderWay(s)
  {
    ReachableConserved(s);
    hide Reachable;
  }

  /** Called in any other state a flush may return before every pass of its own. */
  lemma MayReturnEarly(s: State, c: nat) returns (steps: seq<Step>, t: State)
    requires Conserved(s) && Enabled(s, Request(c)) && !NoneUnderWay(s)
    ensures InFlush(s, c, steps, t) && Enabled(t, Return(c)) && t.ended <= s.begun
  {
    var u := Do(s, Request(c));
    if u.waiterSem > 0 {
      steps, t := [], u;
    } else if u.sender.Posting? {
      t := Do(u, PostOne);
      steps := [PostOne];
      RunOfOne(u, PostOne);
    } else {
      var v := if u.sender.visited then u else Do(u, Visit(true, 0));
      t := PassReturns(v);
      steps := (if u.sender.visited then [] else [Visit(true, 0)]) + [EndPass, PostOne];
      if !u.sender.visited {
        RunOfOne(u, Visit(true, 0));
        RunJoin(u, [Visit(true, 0)], v, [EndPass, PostOne], t);
      } else {
        assert steps == [EndPass, PostOne];
      }
    }
  }

  lemma PassReturns(s: State) returns (t: State)
    requires s.sender.Passing? && s.sender.visited && s.sender.count > 0
    ensures Run(s, [EndPass, PostOne], t)
    ensures t.waiterSem == s.waiterSem + 1 && t.ended == s.ended + 1 && t.waiting == s.waiting
    ensures t.committed == s.committed && t.sent == s.sent && t.lost == s.lost
  {
    var u := Do(s, EndPass);
    t := Do(u, PostOne);
    RunOfOne(s, EndPass);
    RunOfOne(u, PostOne);
    RunJoin(s, [EndPass], u, [PostOne], t);
    assert [EndPass] + [PostOne] == [EndPass, PostOne];
  }

  lemma RunOfOne(s: State, a: Step)
    requires Enabled(s, a)
    ensures Run(s, [a], Do(s, a))
  {
    hide Enabled, Do;
    assert [a][1..] == [];
  }

  /** However the run goes on, the flush waits for a pass of its own. */
  ghost predicate WaitsForOwnPass(s: State, c: nat) {
    forall steps, t :: InFlush(s, c, steps, t) && Enabled(t, Return(c)) ==> s.begun < t.ended
  }

  /**
    * A flush waits for a pass of its own in every continuation, with any number
    * of other callers, exactly when no completion is under way at its request:
    * none posted and not taken, and none carried by a pass that has begun.
    */
  lemma OwnPassIff(s: State, c: nat)
    requires Reachable(s) && Enabled(s, Request(c))
    ensures WaitsForOwnPass(s, c) <==> NoneUnderWay(s)
  {
    ReachableConserved(s);
    hide Reachable, Conserved, Enabled, Do, Run, NoneUnderWay, InFlush;
    if NoneUnderWay(s) {
      forall steps, t | InFlush(s, c, steps, t) && Enabled(t, Return(c))
        ensures s.begun < t.ended
      {
        FlushIsSynchronous(s, c, steps, t);
      }
    } else {
      var steps, t := MayReturnEarly(s, c);
    }
  }

  /**
    * Such states are reached as soon as two flushes overlap: completions carry no
    * name, so the later caller can take the one posted for the earlier and return
    * before any pass that began after its own request.
    */
  lemma CompletionsAreAnonymous(s: State, a: nat, b: nat) returns (steps: seq<Step>, t: State)
    requires Initial(s) && s.capturing && a != b
    ensures Run(s, steps, t) && Enabled(t, Return(b)) && t.waiting[b].stamp >= t.ended
  {
    var v, first := FirstIsCarried(s, a);
    var last;
    last, t := SecondTakesIt(v, b);
    steps := first + last;
    hide *;
    RunJoin(s, first, v, last, t);
  }

  lemma FirstIsCarried(s: State, a: nat) returns (t: State, steps: seq<Step>)
    requires s.capturing && s.sender == Top && s.syncSem == 0 && a !in s.testing && a !in s.waiting
    ensures Run(s, steps, t) && t.sender == Passing(1, false) && t.capturing
    ensures t.begun == s.begun + 1 && t.ended == s.ended && t.waiterSem == s.waiterSem && t.owner == s.owner
    ensures t.committed == s.committed && t.sent == s.sent && t.lost == s.lost
    ensures t.testing == s.testing && t.waiting.Keys == s.waiting.Keys + {a}
  {
    var u := Do(Do(s, Test(a)), Request(a));
    RunOfTwo(s, Test(a), Request(a));
    var v := Do(Do(u, BeginDrain), Drain);
    RunOfTwo(u, BeginDrain, Drain);
    t := Do(v, BeginPass);
    RunOfOne(v, BeginPass);
    steps := [Test(a), Request(a)] + ([BeginDrain, Drain] + [BeginPass]);
    hide *;
    RunJoin(u, [BeginDrain, Drain], v, [BeginPass], t);
    RunJoin(s, [Test(a), Request(a)], u, [BeginDrain, Drain] + [BeginPass], t);
  }

  lemma SecondTakesIt(s: State, b: nat) returns (steps: seq<Step>, t: State)
    requires s.sender == Passing(1, false) && s.capturing && s.ended == 0 && s.begun == 1
    requires b !in s.testing && b !in s.waiting
    ensures Run(s, steps, t) && Enabled(t, Return(b)) && t.waiting[b].stamp >= t.ended
  {
    var u := Do(Do(s, Test(b)), Request(b));
    RunOfTwo(s, Test(b), Request(b));
    RunOfOne(u, Visit(true, 0));
    t := PassReturns(Do(u, Visit(true, 0)));
    steps := [Test(b), Request(b)] + ([Visit(true, 0)] + [EndPass, PostOne]);
    hide *;
    RunJoin(u, [Visit(true, 0)], Do(u, Visit(true, 0)), [EndPass, PostOne], t);
    RunJoin(s, [Test(b), Request(b)], u, [Visit(true, 0)] + [EndPass, PostOne], t);
  }

  lemma RunOfTwo(s: State, a: Step, b: Step)
    requires Enabled(s, a) && Enabled(Do(s, a), b)
    ensures Run(s, [a, b], Do(Do(s, a), b))
  {
    hide Enabled, Do;
    RunOfOne(Do(s, a), b);
    assert [a, b][1..] == [b];
  }

  lemma {:induction false} RunJoin(s: State, x: seq<Step>, t: State, y: seq<Step>, u: State)
    requires Run(s, x, t) && Run(t, y, u)
    ensures Run(s, x + y, u)
    decreases |x|
  {
    hide Enabled, Do;
    if x == [] {
      assert x + y == y;
    } else {
      RunJoin(Do(s, x[0]), x[1..], t, y, u);
      assert (x + y)[0] == x[0] && (x + y)[1..] == x[1..] + y;
    }
  }

  // ------------------------------------------------------- when it returns

  predicate WithoutStart(steps: seq<Step>) {
    Capture(true) !in steps
  }

  /** Some run without a new start takes the caller to its return. */
  ghost predicate CanReturn(s: State, c: nat) {
    exists steps, t :: WithoutStart(steps) && Run(s, steps, t) && Enabled(t, Return(c))
  }

  /** The capture is on, or a completion is posted or carried by a pass that has begun. */
  predicate Served(s: State) {
    s.capturing || s.waiterSem > 0 || Carried(s) > 0
  }

  lemma UnservedStep(s: State, step: Step)
    requires Conserved(s) && !Served(s) && Enabled(s, step) && step != Capture(true)
    ensures !Served(Do(s, step))
  {
  }

  lemma {:induction false} UnservedRun(s: State, steps: seq<Step>, t: State)
    requires Conserved(s) && !Served(s) && WithoutStart(steps) && Run(s, steps, t)
    ensures !Served(t)
    decreases |steps|
  {
    if steps != [] {
      hide Conserved, Served, Enabled, Do;
      ConservedStep(s, steps[0]);
      UnservedStep(s, steps[0]);
      UnservedRun(Do(s, steps[0]), steps[1..], t);
    }
  }

  predicate SenderStep(step: Step) {
    !step.Test? && !step.Request? && !step.Return? && !step.CommitBytes? && !step.Capture?
  }

  /** What the sender does next; its turn sends everything. */
  function SenderNext(s: State): Step {
    match s.sender
    case Top => BeginDrain
    case Draining(_) => if s.syncSem > 0 then Drain else BeginPass
    case Passing(_, visited) => if visited then EndPass else Visit(true, 0)
    case Posting(n) => if n > 0 then PostOne else EndLoop
  }

  /** The sender is held up nowhere but at the top of its loop, with the capture off. */
  lemma SenderCanStep(s: State)
    requires s.capturing || s.sender != Top
    ensures Enabled(s, SenderNext(s)) && SenderStep(SenderNext(s))
  {
  }

  /** The steps of the sender up to its next post. */
  function StepsToPost(s: State): nat {
    match s.sender
    case Top => 5 + s.syncSem
    case Draining(_) => 4 + s.syncSem
    case Passing(n, visited) => (if n > 0 then 2 else 7 + s.syncSem) + (if visited then 0 else 1)
    case Posting(n) => if n > 0 then 1 else 6 + s.syncSem
  }

  /** Somebody waits, nothing is posted, and the capture is on or a completion is carried. */
  predicate Due(s: State) {
    s.waiting != map[] && s.waiterSem == 0 && Served(s)
  }

  lemma DueHasWork(s: State)
    requires Conserved(s) && s.waiting != map[] && s.waiterSem == 0
    ensures s.syncSem + Carried(s) > 0
  {
    assert |s.waiting| > 0;
  }

  lemma DueStep(s: State, step: Step)
    requires Conserved(s) && Due(s) && Enabled(s, step) && Do(s, step).waiterSem == 0
    requires step != Capture(false)
    ensures Due(Do(s, step))
    ensures SenderStep(step) ==> StepsToPost(Do(s, step)) < StepsToPost(s)
    ensures step.Request? ==> StepsToPost(Do(s, step)) <= StepsToPost(s) + 1
    ensures !SenderStep(step) && !step.Request? ==> StepsToPost(Do(s, step)) == StepsToPost(s)
  {
    DueHasWork(s);
  }

  /** No completion is there to be taken in any state of the run. */
  predicate NeverPosted(s: State, steps: seq<Step>)
    decreases |steps|
  {
    s.waiterSem == 0 && (steps != [] && Enabled(s, steps[0]) ==> NeverPosted(Do(s, steps[0]), steps[1..]))
  }

  /** The capture is not turned off in the run. */
  predicate WithoutStop(steps: seq<Step>) {
    Capture(false) !in steps
  }

  function SenderSteps(steps: seq<Step>): nat {
    if steps == [] then 0 else (if SenderStep(steps[0]) then 1 else 0) + SenderSteps(steps[1..])
  }

  function Requests(steps: seq<Step>): nat {
    if steps == [] then 0 else (if steps[0].Request? then 1 else 0) + Requests(steps[1..])
  }

  lemma {:induction false} DueRun(s: State, steps: seq<Step>, t: State)
    requires Conserved(s) && Due(s) && WithoutStop(steps) && Run(s, steps, t) && NeverPosted(s, steps)
    ensures StepsToPost(t) + SenderSteps(steps) <= StepsToPost(s) + Requests(steps)
    decreases |steps|
  {
    hide Conserved, Due, Enabled, Do, StepsToPost, SenderStep;
    if steps != [] {
      ConservedStep(s, steps[0]);
      DueStep(s, steps[0]);
      NeverBoth(steps[0]);
      DueRun(Do(s, steps[0]), steps[1..], t);
    }
  }

  lemma NeverBoth(step: Step)
    ensures !(SenderStep(step) && step.Request?)
  {
  }

  lemma StepsToPostBound(s: State)
    ensures StepsToPost(s) <= 8 + s.syncSem
  {
  }

  /**
    * While a flush is served and the capture is not turned off, a completion that
    * its caller can take is there within a bounded number of the sender's steps,
    * eight and one for every request that is or comes to be pending, whatever the
    * other callers do meanwhile.
    */
  lemma CompletionComes(s: State, c: nat, steps: seq<Step>, t: State)
    requires Reachable(s) && c in s.waiting && Served(s)
    requires WithoutStop(steps) && Run(s, steps, t) && SenderSteps(steps) > 8 + s.syncSem + Requests(steps)
    ensures !NeverPosted(s, steps)
  {
    ReachableConserved(s);
    hide Reachable, Conserved, Run, Served, StepsToPost, SenderSteps, Requests;
    if NeverPosted(s, steps) {
      DueRun(s, steps, t);
      StepsToPostBound(s);
    }
  }

  /** The sender on its own, up to the next post. */
  lemma {:induction false} ServedReturns(s: State, c: nat) returns (steps: seq<Step>, t: State)
    requires Conserved(s) && Served(s) && c in s.waiting
    ensures WithoutStart(steps) && Run(s, steps, t) && Enabled(t, Return(c))
    decreases if s.waiterSem > 0 then 0 else 1 + StepsToPost(s)
  {
    if s.waiterSem > 0 {
      steps, t := [], s;
    } else {
      var step, rest := SenderNext(s), [];
      SenderCanStep(s);
      ConservedStep(s, step);
      NextIsServed(s, c);
      hide Conserved, Served, Enabled, Do, StepsToPost, SenderNext, SenderStep;
      rest, t := ServedReturns(Do(s, step), c);
      steps := [step] + rest;
      assert steps[1..] == rest;
    }
  }

  lemma NextIsServed(s: State, c: nat)
    requires Conserved(s) && Served(s) && c in s.waiting && s.waiterSem == 0 && Enabled(s, SenderNext(s))
    ensures Served(Do(s, SenderNext(s))) && c in Do(s, SenderNext(s)).waiting && SenderNext(s) != Capture(true)
    ensures Do(s, SenderNext(s)).waiterSem > 0 || StepsToPost(Do(s, SenderNext(s))) < StepsToPost(s)
  {
    DueHasWork(s);
  }

  /**
    * A flush that has posted can return without a new start of the capture exactly
    * when the capture is on, or a completion is posted or carried by a pass.
    */
  lemma ReturnsIff(s: State, c: nat)
    requires Reachable(s) && c in s.waiting
    ensures CanReturn(s, c) <==> Served(s)
  {
    ReachableConserved(s);
    hide Reachable, Conserved, Run;
    if Served(s) {
      var steps, t := ServedReturns(s, c);
    } else {
      forall steps, t | WithoutStart(steps) && Run(s, steps, t) ensures !Enabled(t, Return(c)) {
        UnservedRun(s, steps, t);
      }
    }
  }

  /** A capture that goes off behind the test leaves the caller waiting for the next start. */
  lemma StopBehindTest(s: State, c: nat) returns (steps: seq<Step>, t: State)
    requires Initial(s) && s.capturing
    ensures steps == [Test(c), Capture(false), Request(c)] && Run(s, steps, t) && !CanReturn(t, c)
  {
    var u := Do(Do(s, Test(c)), Capture(false));
    t := Do(u, Request(c));
    RunOfTwo(s, Test(c), Capture(false));
    RunOfOne(u, Request(c));
    RunJoin(s, [Test(c), Capture(false)], u, [Request(c)], t);
    steps := [Test(c), Capture(false)] + [Request(c)];
    assert Reachable(t) by {
      hide *;
      assert Initial(s) && Run(s, steps, t);
    }
    ReturnsIff(t, c);
  }

  /** Without a capture nobody ever waits in flush: the call returns at once. */
  lemma {:induction false} NobodyWaitsWithoutCapture(s: State, steps: seq<Step>, t: State)
    requires !s.capturing && s.testing == {} && s.waiting == map[] && WithoutStart(steps) && Run(s, steps, t)
    ensures !t.capturing && t.testing == {} && t.waiting == map[]
    decreases |steps|
  {
    if steps != [] {
      NobodyWaitsWithoutCapture(Do(s, steps[0]), steps[1..], t);
    }
  }

  /** A start takes a stranded caller to its return. */
  lemma StartHelps(s: State, c: nat)
    requires Reachable(s) && c in s.waiting && s.sender == Top
    ensures CanReturn(Do(s, Capture(true)), c)
  {
    var u := Do(s, Capture(true));
    ReachableConserved(s);
    ConservedStep(s, Capture(true));
    hide Reachable, Conserved, Run;
    var steps, t := ServedReturns(u, c);
  }

  // ------------------------------------------------------ what a flush sends

  predicate NoCommit(steps: seq<Step>) {
    forall i :: 0 <= i < |steps| ==> !steps[i].CommitBytes?
  }

  /** The bytes the socket takes of a ring of n bytes in the turns of the run. */
  function Taken(n: nat, steps: seq<Step>): (k: nat)
    ensures k <= n
  {
    if steps == [] then 0
    else
      var now := if !steps[0].Visit? then 0 else if steps[0].full || steps[0].bytes >= n then n else steps[0].bytes;
      now + Taken(n - now, steps[1..])
  }

  lemma TakenStep(s: State, step: Step)
    requires Conserved(s) && Enabled(s, step) && s.capturing && step != Capture(false) && !step.CommitBytes?
    ensures var u, n := Do(s, step), Unread(s);
            && u.capturing && u.committed == s.committed && u.lost == s.lost
            && u.sent == s.sent + if !step.Visit? then 0 else if step.full || step.bytes >= n then n else step.bytes
  {
  }

  /** While the capture stays on, exactly the bytes taken in the owner's turns leave its ring. */
  lemma {:induction false} TurnsSend(s: State, steps: seq<Step>, t: State)
    requires Conserved(s) && Run(s, steps, t) && s.capturing && WithoutStop(steps) && NoCommit(steps)
    ensures t.sent == s.sent + Taken(Unread(s), steps) && t.lost == s.lost && t.committed == s.committed
    decreases |steps|
  {
    if steps != [] {
      ConservedStep(s, steps[0]);
      TakenStep(s, steps[0]);
      ConservedStays(s, Do(s, steps[0]));
      hide Conserved, Enabled, Do;
      TurnsSend(Do(s, steps[0]), steps[1..], t);
    }
  }

  lemma ConservedStays(s: State, u: State)
    requires Conserved(s) && Conserved(u) && u.committed == s.committed && u.lost == s.lost
    ensures s.sent <= u.sent ==> Unread(u) == Unread(s) - (u.sent - s.sent)
  {
  }

  lemma OffStep(s: State, step: Step)
    requires Enabled(s, step) && !s.capturing && step != Capture(true)
    ensures var u := Do(s, step); !u.capturing && u.sent == s.sent && u.lost == s.lost
  {
  }

  lemma {:induction false} OffRun(s: State, steps: seq<Step>, t: State)
    requires !s.capturing && Run(s, steps, t) && WithoutStart(steps)
    ensures t.sent == s.sent && t.lost == s.lost
    decreases |steps|
  {
    if steps != [] {
      hide Enabled, Do;
      assert steps[0] in steps;
      OffStep(s, steps[0]);
      OffRun(Do(s, steps[0]), steps[1..], t);
    }
  }

  /** A stop drops what is unread, and nothing is sent until the next start. */
  lemma StopDrops(s: State, steps: seq<Step>, t: State)
    requires Conserved(s) && s.capturing && Enabled(s, Capture(false)) && Run(Do(s, Capture(false)), steps, t)
    requires WithoutStart(steps)
    ensures t.sent == s.sent && t.lost == s.committed - s.sent
  {
    OffRun(Do(s, Capture(false)), steps, t);
  }

  /** So a flush may return with its bytes dropped and the capture off. */
  lemma ReturnsUnsent(s: State) returns (steps: seq<Step>, t: State)
    requires Initial(s) && s.capturing
    ensures Run(s, steps, t) && Enabled(t, Return(s.owner)) && t.committed == 1 && t.sent == 0 && t.lost == 1
  {
    var u := Do(s, CommitBytes(1));
    RunOfOne(s, CommitBytes(1));
    var v, first := FirstIsCarried(u, s.owner);
    var last;
    last, t := DroppedInPass(v, s.owner);
    steps := [CommitBytes(1)] + (first + last);
    hide Run, Enabled, Do;
    RunJoin(u, first, v, last, t);
    RunJoin(s, [CommitBytes(1)], u, first + last, t);
  }

  lemma DroppedInPass(s: State, c: nat) returns (steps: seq<Step>, t: State)
    requires s.sender == Passing(1, false) && s.capturing && s.committed == 1 && s.sent == 0 && s.lost == 0
    requires c in s.waiting
    ensures Run(s, steps, t) && Enabled(t, Return(c)) && t.committed == 1 && t.sent == 0 && t.lost == 1
  {
    var u := Do(Do(s, Capture(false)), Visit(true, 0));
    RunOfTwo(s, Capture(false), Visit(true, 0));
    t := PassReturns(u);
    steps := [Capture(false), Visit(true, 0)] + [EndPass, PostOne];
    hide Run, Enabled, Do;
    RunJoin(s, [Capture(false), Visit(true, 0)], u, [EndPass, PostOne], t);
  }
}
