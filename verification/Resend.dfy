// The saved state that is sent again after capture starts: counters, tracks and
// view names are pushed with compare-and-swap on three lists by any number of
// threads; one thread that finds resend_state up takes it down and writes every
// listed entry before its own message. Saved entries are never freed.

module Resend {
  import opened Messages

  type Addr = nat

  /** The three lists, in the order in which they are sent again. */
  datatype Kind = Counters | CamTracks | CamNames

  function KindOf(m: Message): Kind {
    if m.Counter? then Counters else if m.CamTrack? then CamTracks else CamNames
  }

  predicate Saved(m: Message) {
    m.Counter? || m.CamTrack? || m.CamViewName?
  }

  /** An entry in memory; `shared`, as history, says that its compare-and-swap has succeeded. */
  datatype Node = Node(next: Addr, entry: Message, shared: bool)

  type Heap = map<Addr, Node>

  datatype Heads = Heads(counters: Addr, camTracks: Addr, camNames: Addr)

  /**
    * History of one resend: where in the thread's log and after how many saves
    * it began, and how many saves there were when each list was loaded.
    */
  datatype Resending = Resending(base: nat, claimed: nat, loads: seq<nat>)

  /** The program points of an annotating thread. */
  datatype Point =
    | Saving(node: Addr, linked: bool)                          // pushing its entry
    | Entering(own: Message)                                    // in gator_get_thread, about to test capturing
    | Claiming(own: Message)                                    // about to compare-and-swap resend_state
    | Loading(own: Message, kind: Kind, past: Resending)        // about to load the head of a list
    | Walking(own: Message, kind: Kind, cur: Addr, past: Resending, left: seq<Message>)  // `left` is history
    | Emitting(own: Message, resent: bool, past: Resending)     // about to write its own message

  datatype State = State(
    heap: Heap, heads: Heads, capturing: bool, resend: bool, toRaise: nat, points: map<nat, Point>,
    // history: the entries pushed so far and the messages each thread has committed
    saved: seq<Message>, logs: map<nat, seq<Message>>)

  datatype Step =
    | Save(thread: nat, node: Addr, entry: Message) | Link(thread: nat) | Push(thread: nat)
    | Annotate(thread: nat, own: Message) | Enter(thread: nat) | Claim(thread: nat)
    | Load(thread: nat) | Write(thread: nat) | Emit(thread: nat)
    | Start(again: bool) | Raise | Stop

  ghost predicate Initial(s: State) {
    && s.heap == map[] && s.heads == Heads(0, 0, 0) && s.capturing && !s.resend && s.toRaise == 0
    && s.points == map[] && s.saved == [] && s.logs == map[]
  }

  predicate Enabled(s: State, step: Step) {
    match step
    case Save(t, n, m) => t !in s.points && n != 0 && n !in s.heap && Saved(m)
    case Link(t) => t in s.points && s.points[t].Saving? && !s.points[t].linked && s.points[t].node in s.heap
    case Push(t) => t in s.points && s.points[t].Saving? && s.points[t].linked && s.points[t].node in s.heap
    case Annotate(t, m) => t !in s.points && !Saved(m)
    case Enter(t) => t in s.points && s.points[t].Entering?
    case Claim(t) => t in s.points && s.points[t].Claiming?
    case Load(t) => t in s.points && s.points[t].Loading?
    case Write(t) => t in s.points && s.points[t].Walking? && (s.points[t].cur == 0 || s.points[t].cur in s.heap)
    case Emit(t) => t in s.points && s.points[t].Emitting?
    case Start(again) => s.toRaise == 0 && (again ==> !s.capturing)
    case Raise => s.toRaise > 0
    case Stop => s.toRaise == 0
  }

  function Head(h: Heads, k: Kind): Addr {
    match k
    case Counters => h.counters
    case CamTracks => h.camTracks
    case CamNames => h.camNames
  }

  function WithHead(h: Heads, k: Kind, a: Addr): Heads {
    match k
    case Counters => h.(counters := a)
    case CamTracks => h.(camTracks := a)
    case CamNames => h.(camNames := a)
  }

  /** What a thread has committed. */
  function Log(s: State, t: nat): seq<Message> {
    if t in s.logs then s.logs[t] else []
  }

  /** A message whose reservation can never be granted is skipped. */
  function Fitting(ms: seq<Message>): seq<Message> {
    if ms == [] then []
    else Fitting(ms[..|ms| - 1]) + if Accepted(ms[|ms| - 1]) then [ms[|ms| - 1]] else []
  }

  /** The entries of one kind, latest first: the order of the list. */
  function Latest(ms: seq<Message>, k: Kind): seq<Message> {
    if ms == [] then []
    else (if KindOf(ms[|ms| - 1]) == k then [ms[|ms| - 1]] else []) + Latest(ms[..|ms| - 1], k)
  }

  function At(s: State, t: nat, p: Point): State {
    s.(points := s.points[t := p])
  }

  function AfterSave(s: State, t: nat, n: Addr, m: Message): State {
    At(s.(heap := s.heap[n := Node(0, m, false)]), t, Saving(n, false))
  }

  function AfterLink(s: State, t: nat, n: Addr): State
    requires n in s.heap
  {
    var node := s.heap[n];
    At(s.(heap := s.heap[n := node.(next := Head(s.heads, KindOf(node.entry)))]), t, Saving(n, true))
  }

  function AfterPush(s: State, t: nat, n: Addr): State
    requires n in s.heap
  {
    var node := s.heap[n];
    var k := KindOf(node.entry);
    if Head(s.heads, k) == node.next then
      At(s.(heap := s.heap[n := node.(shared := true)], heads := WithHead(s.heads, k, n),
            saved := s.saved + [node.entry]), t, Entering(node.entry))
    else At(s, t, Saving(n, false))
  }

  function AfterEnter(s: State, t: nat, own: Message): State {
    if s.capturing then At(s, t, Claiming(own)) else s.(points := s.points - {t})
  }

  function AfterClaim(s: State, t: nat, own: Message): State {
    var past := Resending(|Log(s, t)|, |s.saved|, []);
    if s.resend then At(s.(resend := false), t, Loading(own, Counters, past))
    else At(s, t, Emitting(own, false, past))
  }

  function AfterLoad(s: State, t: nat, own: Message, k: Kind, past: Resending): State {
    At(s, t, Walking(own, k, Head(s.heads, k), past.(loads := past.loads + [|s.saved|]), Latest(s.saved, k)))
  }

  function NextPoint(own: Message, k: Kind, past: Resending): Point {
    match k
    case Counters => Loading(own, CamTracks, past)
    case CamTracks => Loading(own, CamNames, past)
    case CamNames => Emitting(own, true, past)
  }

  function Committed(s: State, t: nat, m: Message): State {
    s.(logs := s.logs[t := Log(s, t) + Fitting([m])])
  }

  function AfterWrite(s: State, t: nat, p: Point): State
    requires p.Walking? && (p.cur == 0 || p.cur in s.heap)
  {
    if p.cur == 0 then At(s, t, NextPoint(p.own, p.kind, p.past))
    else At(Committed(s, t, s.heap[p.cur].entry), t,
            p.(cur := s.heap[p.cur].next, left := if p.left == [] then [] else p.left[1..]))
  }

  function AfterEmit(s: State, t: nat, own: Message): State {
    var u := Committed(s, t, own);
    u.(points := u.points - {t})
  }

  /** gator_start_capturing; when it follows a start command the flag is stored once more behind it. */
  function AfterStart(s: State, again: bool): State {
    if !s.capturing then s.(capturing := true, toRaise := if again then 2 else 1) else s
  }

  function AfterRaise(s: State): State
    requires s.toRaise > 0
  {
    s.(resend := true, toRaise := s.toRaise - 1)
  }

  function Do(s: State, step: Step): State
    requires Enabled(s, step)
  {
    match step
    case Save(t, n, m) => AfterSave(s, t, n, m)
    case Link(t) => AfterLink(s, t, s.points[t].node)
    case Push(t) => AfterPush(s, t, s.points[t].node)
    case Annotate(t, m) => At(s, t, Entering(m))
    case Enter(t) => AfterEnter(s, t, s.points[t].own)
    case Claim(t) => AfterClaim(s, t, s.points[t].own)
    case Load(t) => AfterLoad(s, t, s.points[t].own, s.points[t].kind, s.points[t].past)
    case Write(t) => AfterWrite(s, t, s.points[t])
    case Emit(t) => AfterEmit(s, t, s.points[t].own)
    case Start(again) => AfterStart(s, again)
    case Raise => AfterRaise(s)
    case Stop => s.(capturing := false)
  }

  predicate Run(s: State, steps: seq<Step>, t: State)
    decreases |steps|
  {
    if steps == [] then s == t
    else Enabled(s, steps[0]) && Run(Do(s, steps[0]), steps[1..], t)
  }

  // ---------------------------------------------------------------- invariant

  /** Following the next pointers from p meets exactly these entries and then NULL. */
  predicate Lists(heap: Heap, p: Addr, ms: seq<Message>)
    decreases |ms|
  {
    if ms == [] then p == 0
    else p != 0 && p in heap && heap[p].shared && heap[p].entry == ms[0] && Lists(heap, heap[p].next, ms[1..])
  }

  predicate ListsInv(s: State) {
    forall k: Kind :: Lists(s.heap, Head(s.heads, k), Latest(s.saved, k))
  }

  /** The number of saves at the i-th load; a load that has not happened counts as none. */
  function LoadAt(past: Resending, saved: seq<Message>, i: nat): nat {
    if i < |past.loads| && past.loads[i] <= |saved| then past.loads[i] else 0
  }

  /** The entries a resend has to write, as far as its lists are loaded. */
  function Due(past: Resending, saved: seq<Message>): seq<Message> {
    DuePart(past, saved, Counters) + DuePart(past, saved, CamTracks) + DuePart(past, saved, CamNames)
  }

  function DuePart(past: Resending, saved: seq<Message>, k: Kind): seq<Message> {
    Latest(saved[..LoadAt(past, saved, Index(k))], k)
  }

  function Index(k: Kind): nat {
    match k
    case Counters => 0
    case CamTracks => 1
    case CamNames => 2
  }

  /** What has been committed since the claim, and what is left of the lists loaded, is what is due. */
  predicate PastInv(past: Resending, loads: nat, left: seq<Message>, log: seq<Message>, saved: seq<Message>) {
    && |past.loads| == loads && past.claimed <= |saved| && past.base <= |log|
    && (forall i :: 0 <= i < loads ==> past.claimed <= past.loads[i] <= |saved|)
    && log[past.base..] + Fitting(left) == Fitting(Due(past, saved))
  }

  predicate PointInv(heap: Heap, log: seq<Message>, saved: seq<Message>, p: Point) {
    match p
    case Saving(n, linked) => n != 0 && n in heap && !heap[n].shared
    case Entering(_) => true
    case Claiming(_) => true
    case Loading(_, k, past) => PastInv(past, Index(k), [], log, saved)
    case Walking(_, k, cur, past, left) => Lists(heap, cur, left) && PastInv(past, Index(k) + 1, left, log, saved)
    case Emitting(_, resent, past) => resent ==> PastInv(past, 3, [], log, saved)
  }

  predicate ThreadInv(s: State, t: nat)
    requires t in s.points
  {
    PointInv(s.heap, Log(s, t), s.saved, s.points[t])
  }

  predicate PointsInv(s: State) {
    && (forall t :: t in s.points ==> ThreadInv(s, t))
    && (forall t, u :: t in s.points && u in s.points && t != u && s.points[t].Saving? && s.points[u].Saving? ==>
          s.points[t].node != s.points[u].node)
  }

  predicate Inv(s: State) {
    ListsInv(s) && PointsInv(s)
  }

  // ------------------------------------------------------- the steps keep it

  /** Shared entries never change. */
  predicate Keeps(h: Heap, g: Heap) {
    forall a :: a in h && h[a].shared ==> a in g && g[a] == h[a]
  }

  lemma {:induction false} ListsKept(h: Heap, g: Heap, p: Addr, ms: seq<Message>)
    requires Lists(h, p, ms) && Keeps(h, g)
    ensures Lists(g, p, ms)
    decreases |ms|
  {
    if ms != [] {
      ListsKept(h, g, h[p].next, ms[1..]);
    }
  }

  lemma HeadsKept(s: State, u: State)
    requires ListsInv(s) && Keeps(s.heap, u.heap) && u.heads == s.heads && u.saved == s.saved
    ensures ListsInv(u)
  {
    forall k: Kind
      ensures Lists(u.heap, Head(u.heads, k), Latest(u.saved, k))
    {
      ListsKept(s.heap, u.heap, Head(s.heads, k), Latest(s.saved, k));
    }
  }

  /** What one thread relies on survives a save and any change outside shared entries. */
  lemma PointKept(h: Heap, g: Heap, log: seq<Message>, saved: seq<Message>, more: seq<Message>, p: Point)
    requires PointInv(h, log, saved, p) && Keeps(h, g)
    requires p.Saving? ==> p.node in g && !g[p.node].shared
    ensures PointInv(g, log, saved + more, p)
  {
    hide Lists, Fitting, Latest;
    match p
    case Saving(_, _) =>
    case Entering(_) =>
    case Claiming(_) =>
    case Loading(_, k, past) => PastKept(past, Index(k), [], log, saved, more);
    case Walking(_, k, cur, past, left) =>
      ListsKept(h, g, cur, left);
      PastKept(past, Index(k) + 1, left, log, saved, more);
    case Emitting(_, resent, past) =>
      if resent {
        PastKept(past, 3, [], log, saved, more);
      }
  }

  lemma PastKept(past: Resending, loads: nat, left: seq<Message>, log: seq<Message>, saved: seq<Message>,
                 more: seq<Message>)
    requires PastInv(past, loads, left, log, saved) && loads <= 3
    ensures PastInv(past, loads, left, log, saved + more)
  {
    hide Fitting, Latest;
    forall i: nat
      ensures LoadAt(past, saved + more, i) == LoadAt(past, saved, i)
      ensures (saved + more)[..LoadAt(past, saved, i)] == saved[..LoadAt(past, saved, i)]
    {
    }
  }

  /** The other threads when thread t moves. */
  lemma OthersKept(s: State, u: State, t: nat, more: seq<Message>)
    requires PointsInv(s) && Keeps(s.heap, u.heap) && u.saved == s.saved + more
    requires forall v :: v in u.points && v != t ==>
               v in s.points && u.points[v] == s.points[v] && Log(u, v) == Log(s, v)
    requires forall v :: v in s.points && v != t && s.points[v].Saving? ==>
               var n := s.points[v].node;
               (n in s.heap && !s.heap[n].shared ==> n in u.heap && !u.heap[n].shared)
    ensures forall v :: v in u.points && v != t ==> ThreadInv(u, v)
  {
    forall v | v in u.points && v != t
      ensures ThreadInv(u, v)
    {
      assert ThreadInv(s, v);
      hide Lists, Fitting, Latest, PastInv;
      PointKept(s.heap, u.heap, Log(s, v), s.saved, more, s.points[v]);
    }
  }

  lemma NobodyElse(s: State, u: State, t: nat)
    requires PointsInv(s) && u.heap == s.heap && u.saved == s.saved
    requires forall v :: v in u.points && v != t ==>
               v in s.points && u.points[v] == s.points[v] && Log(u, v) == Log(s, v)
    ensures forall v :: v in u.points && v != t ==> ThreadInv(u, v)
  {
    assert s.saved + [] == s.saved;
    OthersKept(s, u, t, []);
  }

  /** A thread that is not pushing moves, and keeps what it relies on. */
  lemma ThreadMoves(s: State, u: State, t: nat)
    requires ListsInv(s) && PointsInv(s) && u.heap == s.heap && u.heads == s.heads && u.saved == s.saved
    requires forall v :: v in u.points && v != t ==>
               v in s.points && u.points[v] == s.points[v] && Log(u, v) == Log(s, v)
    requires t in u.points ==> !u.points[t].Saving? && ThreadInv(u, t)
    ensures ListsInv(u) && PointsInv(u)
  {
    hide ThreadInv, Lists, Latest, Log, Head;
    HeadsKept(s, u);
    NobodyElse(s, u, t);
  }

  lemma CommitMoves(s: State, t: nat, m: Message, p: Point)
    requires Inv(s) && !p.Saving? && PointInv(s.heap, Log(s, t) + Fitting([m]), s.saved, p)
    ensures Inv(At(Committed(s, t, m), t, p))
  {
    hide ListsInv, PointsInv, PointInv, Fitting;
    ThreadMoves(s, At(Committed(s, t, m), t, p), t);
  }

  lemma PointMoves(s: State, t: nat, p: Point)
    requires Inv(s) && !p.Saving? && PointInv(s.heap, Log(s, t), s.saved, p)
    ensures Inv(At(s, t, p))
  {
    hide ListsInv, PointsInv, PointInv;
    ThreadMoves(s, At(s, t, p), t);
  }

  lemma SaveInv(s: State, t: nat, n: Addr, m: Message)
    requires Inv(s) && Enabled(s, Save(t, n, m))
    ensures Inv(AfterSave(s, t, n, m))
  {
    hide Lists, Latest, PastInv, KindOf;
    var u := AfterSave(s, t, n, m);
    assert s.saved + [] == s.saved;
    HeadsKept(s, u);
    OthersKept(s, u, t, []);
    forall v | v in s.points && s.points[v].Saving?
      ensures s.points[v].node != n
    {
      assert ThreadInv(s, v);
    }
  }

  lemma LinkInv(s: State, t: nat)
    requires Inv(s) && Enabled(s, Link(t))
    ensures Inv(AfterLink(s, t, s.points[t].node))
  {
    hide Lists, Latest, PastInv, KindOf, Head;
    assert ThreadInv(s, t);
    var u := AfterLink(s, t, s.points[t].node);
    assert s.saved + [] == s.saved;
    HeadsKept(s, u);
    OthersKept(s, u, t, []);
  }

  lemma LatestSnoc(ms: seq<Message>, m: Message, k: Kind)
    ensures Latest(ms + [m], k) == (if KindOf(m) == k then [m] else []) + Latest(ms, k)
  {
    assert (ms + [m])[..|ms|] == ms;
  }

  lemma PushLists(s: State, n: Addr, u: State)
    requires ListsInv(s) && n != 0 && n in s.heap && !s.heap[n].shared
    requires var k := KindOf(s.heap[n].entry);
             Head(s.heads, k) == s.heap[n].next && u.heads == WithHead(s.heads, k, n)
    requires u.heap == s.heap[n := s.heap[n].(shared := true)] && u.saved == s.saved + [s.heap[n].entry]
    ensures ListsInv(u)
  {
    var m := s.heap[n].entry;
    forall k: Kind
      ensures Lists(u.heap, Head(u.heads, k), Latest(u.saved, k))
    {
      LatestSnoc(s.saved, m, k);
      ListsKept(s.heap, u.heap, Head(s.heads, k), Latest(s.saved, k));
      if KindOf(m) == k {
        assert ([m] + Latest(s.saved, k))[1..] == Latest(s.saved, k);
      } else {
        assert [] + Latest(s.saved, k) == Latest(s.saved, k);
      }
    }
  }

  lemma PushInv(s: State, t: nat)
    requires Inv(s) && Enabled(s, Push(t))
    ensures Inv(AfterPush(s, t, s.points[t].node))
  {
    assert ThreadInv(s, t);
    var n := s.points[t].node;
    if Head(s.heads, KindOf(s.heap[n].entry)) == s.heap[n].next {
      PushSucceeds(s, t, n);
    } else {
      PushFails(s, t, n);
    }
  }

  lemma PushFails(s: State, t: nat, n: Addr)
    requires Inv(s) && t in s.points && s.points[t].Saving? && n == s.points[t].node
    ensures Inv(At(s, t, Saving(n, false)))
  {
    hide Lists, Latest, PastInv, Head;
    assert ThreadInv(s, t);
    HeadsKept(s, At(s, t, Saving(n, false)));
    NobodyElse(s, At(s, t, Saving(n, false)), t);
  }

  lemma PushSucceeds(s: State, t: nat, n: Addr)
    requires Inv(s) && t in s.points && s.points[t].Saving? && n == s.points[t].node && n in s.heap
    requires Head(s.heads, KindOf(s.heap[n].entry)) == s.heap[n].next
    ensures Inv(AfterPush(s, t, n))
  {
    OwnNode(s, t, n);
    PushOthers(s, t, n);
    PushLists(s, n, AfterPush(s, t, n));
    hide ListsInv, ThreadInv, KindOf, Head, WithHead;
    PushPoints(s, t, n);
  }

  lemma OwnNode(s: State, t: nat, n: Addr)
    requires PointsInv(s) && t in s.points && s.points[t].Saving? && n == s.points[t].node
    ensures n != 0 && n in s.heap && !s.heap[n].shared
  {
    assert ThreadInv(s, t);
  }

  lemma PushOthers(s: State, t: nat, n: Addr)
    requires PointsInv(s) && t in s.points && s.points[t].Saving? && n == s.points[t].node && n in s.heap
    requires !s.heap[n].shared && Head(s.heads, KindOf(s.heap[n].entry)) == s.heap[n].next
    ensures forall v :: v in AfterPush(s, t, n).points && v != t ==> ThreadInv(AfterPush(s, t, n), v)
  {
    hide ThreadInv, KindOf, Head, WithHead;
    OthersKept(s, AfterPush(s, t, n), t, [s.heap[n].entry]);
  }

  lemma PushPoints(s: State, t: nat, n: Addr)
    requires PointsInv(s) && t in s.points && s.points[t].Saving? && n == s.points[t].node && n in s.heap
    requires Head(s.heads, KindOf(s.heap[n].entry)) == s.heap[n].next
    requires forall v :: v in AfterPush(s, t, n).points && v != t ==> ThreadInv(AfterPush(s, t, n), v)
    ensures PointsInv(AfterPush(s, t, n))
  {
    EnteringIsFine(AfterPush(s, t, n), t);
    hide ThreadInv, KindOf, Head, WithHead;
  }

  lemma EnteringIsFine(s: State, t: nat)
    requires t in s.points && s.points[t].Entering?
    ensures ThreadInv(s, t)
  {
  }

  lemma AnnotateInv(s: State, t: nat, own: Message)
    requires Inv(s) && t !in s.points
    ensures Inv(At(s, t, Entering(own)))
  {
    PointMoves(s, t, Entering(own));
  }

  lemma EnterInv(s: State, t: nat, own: Message)
    requires Inv(s)
    ensures Inv(AfterEnter(s, t, own))
  {
    hide ListsInv, PointsInv;
    ThreadMoves(s, AfterEnter(s, t, own), t);
  }

  lemma ClaimInv(s: State, t: nat, own: Message)
    requires Inv(s)
    ensures Inv(AfterClaim(s, t, own))
  {
    hide ListsInv, PointsInv, PastInv;
    NothingDue(Log(s, t), s.saved);
    ThreadMoves(s, AfterClaim(s, t, own), t);
  }

  lemma NothingDue(log: seq<Message>, saved: seq<Message>)
    ensures PastInv(Resending(|log|, |saved|, []), 0, [], log, saved)
  {
  }

  lemma LoadDue(past: Resending, k: Kind, saved: seq<Message>)
    requires |past.loads| == Index(k)
    ensures Due(past.(loads := past.loads + [|saved|]), saved) == Due(past, saved) + Latest(saved, k)
  {
    var q := past.(loads := past.loads + [|saved|]);
    PartAfterLoad(past, k, Counters, saved);
    PartAfterLoad(past, k, CamTracks, saved);
    PartAfterLoad(past, k, CamNames, saved);
    hide DuePart, Latest;
    ThreeParts(DuePart(q, saved, Counters), DuePart(q, saved, CamTracks), DuePart(q, saved, CamNames));
  }

  lemma PartAfterLoad(past: Resending, k: Kind, j: Kind, saved: seq<Message>)
    requires |past.loads| == Index(k)
    ensures DuePart(past.(loads := past.loads + [|saved|]), saved, j) ==
            if j == k then Latest(saved, k) else DuePart(past, saved, j)
    ensures Index(j) >= Index(k) ==> DuePart(past, saved, j) == []
  {
    NoneLatest();
    hide Latest;
    assert saved[..0] == [] && saved[..|saved|] == saved;
  }

  lemma ThreeParts(x: seq<Message>, y: seq<Message>, z: seq<Message>)
    ensures [] + [] + [] + x == x + [] + []
    ensures x + [] + [] + y == x + y + []
    ensures x + y + [] + z == x + y + z
  {
  }

  lemma NoneLatest()
    ensures forall k: Kind :: Latest([], k) == []
  {
  }

  /** Loading a list makes its entries due. */
  lemma LoadPast(past: Resending, k: Kind, log: seq<Message>, saved: seq<Message>)
    requires PastInv(past, Index(k), [], log, saved)
    ensures PastInv(past.(loads := past.loads + [|saved|]), Index(k) + 1, Latest(saved, k), log, saved)
  {
    NothingFits();
    hide Latest, Due, Fitting;
    LoadDue(past, k, saved);
    FittingJoin(Due(past, saved), Latest(saved, k));
    assert log[past.base..] + [] == log[past.base..];
  }

  lemma {:induction false} FittingJoin(x: seq<Message>, y: seq<Message>)
    ensures Fitting(x + y) == Fitting(x) + Fitting(y)
    decreases |y|
  {
    if y == [] {
      assert x + y == x;
    } else {
      var z := y[..|y| - 1];
      FittingJoin(x, z);
      assert (x + y)[..|x + y| - 1] == x + z;
    }
  }

  lemma LoadedPoint(heap: Heap, head: Addr, log: seq<Message>, saved: seq<Message>, own: Message, k: Kind,
                    past: Resending)
    requires PastInv(past, Index(k), [], log, saved) && Lists(heap, head, Latest(saved, k))
    ensures PointInv(heap, log, saved,
                     Walking(own, k, head, past.(loads := past.loads + [|saved|]), Latest(saved, k)))
  {
    hide PastInv, Lists, Latest;
    LoadPast(past, k, log, saved);
  }

  lemma ReadyToLoad(s: State, t: nat)
    requires Inv(s) && Enabled(s, Load(t))
    ensures var p := s.points[t];
            && PastInv(p.past, Index(p.kind), [], Log(s, t), s.saved)
            && Lists(s.heap, Head(s.heads, p.kind), Latest(s.saved, p.kind))
  {
    assert ThreadInv(s, t);
    hide PastInv, Lists, Latest, Head;
  }

  lemma LoadInv(s: State, t: nat)
    requires Inv(s) && Enabled(s, Load(t))
    ensures Inv(AfterLoad(s, t, s.points[t].own, s.points[t].kind, s.points[t].past))
  {
    var p := s.points[t];
    ReadyToLoad(s, t);
    hide Inv, PastInv, Lists, Latest, Head, PointInv, Log;
    LoadedPoint(s.heap, Head(s.heads, p.kind), Log(s, t), s.saved, p.own, p.kind, p.past);
    PointMoves(s, t, Walking(p.own, p.kind, Head(s.heads, p.kind), p.past.(loads := p.past.loads + [|s.saved|]),
                             Latest(s.saved, p.kind)));
  }

  /** Writing the entry in front takes it off what is left. */
  lemma WritePast(past: Resending, loads: nat, left: seq<Message>, log: seq<Message>, saved: seq<Message>)
    requires PastInv(past, loads, left, log, saved) && left != []
    ensures PastInv(past, loads, left[1..], log + Fitting([left[0]]), saved)
  {
    hide Fitting, Due;
    FittingJoin([left[0]], left[1..]);
    assert [left[0]] + left[1..] == left;
    assert (log + Fitting([left[0]]))[past.base..] == log[past.base..] + Fitting([left[0]]);
  }

  /** The walker is at the entry in front of what is left, or at the end. */
  lemma AtFront(heap: Heap, cur: Addr, left: seq<Message>)
    requires Lists(heap, cur, left)
    ensures cur == 0 <==> left == []
    ensures cur != 0 ==> cur in heap && heap[cur].entry == left[0] && Lists(heap, heap[cur].next, left[1..])
  {
  }

  lemma WritePoint(heap: Heap, log: seq<Message>, saved: seq<Message>, p: Point)
    requires p.Walking? && p.cur != 0 && PointInv(heap, log, saved, p)
    ensures p.cur in heap && p.left != []
    ensures PointInv(heap, log + Fitting([heap[p.cur].entry]), saved, p.(cur := heap[p.cur].next, left := p.left[1..]))
  {
    AtFront(heap, p.cur, p.left);
    hide PastInv, Lists, Fitting;
    WritePast(p.past, Index(p.kind) + 1, p.left, log, saved);
  }

  lemma EndPoint(heap: Heap, log: seq<Message>, saved: seq<Message>, p: Point)
    requires p.Walking? && p.cur == 0 && PointInv(heap, log, saved, p)
    ensures PointInv(heap, log, saved, NextPoint(p.own, p.kind, p.past)) && !NextPoint(p.own, p.kind, p.past).Saving?
  {
    AtFront(heap, p.cur, p.left);
    hide PastInv, Lists;
  }

  lemma WriteInv(s: State, t: nat)
    requires Inv(s) && Enabled(s, Write(t))
    ensures Inv(Do(s, Write(t)))
  {
    var p := s.points[t];
    assert ThreadInv(s, t);
    hide Inv, PointInv, Fitting, NextPoint;
    if p.cur != 0 {
      WritePoint(s.heap, Log(s, t), s.saved, p);
      CommitMoves(s, t, s.heap[p.cur].entry, p.(cur := s.heap[p.cur].next, left := p.left[1..]));
    } else {
      EndPoint(s.heap, Log(s, t), s.saved, p);
      PointMoves(s, t, NextPoint(p.own, p.kind, p.past));
    }
  }

  lemma EmitInv(s: State, t: nat)
    requires Inv(s) && Enabled(s, Emit(t))
    ensures Inv(Do(s, Emit(t)))
  {
    hide ListsInv, PointsInv;
    ThreadMoves(s, Do(s, Emit(t)), t);
  }

  lemma SenderInv(s: State, u: State)
    requires Inv(s)
    requires u.heap == s.heap && u.heads == s.heads && u.points == s.points && u.saved == s.saved && u.logs == s.logs
    ensures Inv(u)
  {
    hide Lists, Latest, PastInv, Head;
    HeadsKept(s, u);
    forall t | t in u.points
      ensures ThreadInv(u, t)
    {
      assert ThreadInv(s, t);
    }
  }

  lemma StepInv(s: State, step: Step)
    requires Inv(s) && Enabled(s, step)
    ensures Inv(Do(s, step))
  {
    match step
    case Save(t, n, m) => SaveInv(s, t, n, m);
    case Link(t) => LinkInv(s, t);
    case Push(t) => PushInv(s, t);
    case Annotate(t, m) => AnnotateInv(s, t, m);
    case Enter(t) => EnterInv(s, t, s.points[t].own);
    case Claim(t) => ClaimInv(s, t, s.points[t].own);
    case Load(t) => LoadInv(s, t);
    case Write(t) => WriteInv(s, t);
    case Emit(t) => EmitInv(s, t);
    case Start(_) => SenderInv(s, Do(s, step));
    case Raise => SenderInv(s, Do(s, step));
    case Stop => SenderInv(s, Do(s, step));
    hide ListsInv, PointsInv;
  }

  // --------------------------------------------------------------- whole runs

  lemma {:induction false} RunInv(s: State, steps: seq<Step>, t: State)
    requires Inv(s) && Run(s, steps, t)
    ensures Inv(t)
    decreases |steps|
  {
    if steps != [] {
      hide Inv, Enabled, Do;
      StepInv(s, steps[0]);
      RunInv(Do(s, steps[0]), steps[1..], t);
    }
  }

  lemma InitialInv(s: State)
    requires Initial(s)
    ensures Inv(s)
  {
  }

  /**
    * No push is lost: whatever the interleaving, the list of each kind holds
    * every entry pushed so far, each as often as it was pushed, latest first.
    */
  lemma NoEntryIsLost(s: State, steps: seq<Step>, t: State, k: Kind)
    requires Initial(s) && Run(s, steps, t)
    ensures Lists(t.heap, Head(t.heads, k), Latest(t.saved, k))
  {
    InitialInv(s);
    RunInv(s, steps, t);
  }

  /** And nothing else: a list is read in one way only. */
  lemma {:induction false} ListsAreUnique(heap: Heap, p: Addr, x: seq<Message>, y: seq<Message>)
    requires Lists(heap, p, x) && Lists(heap, p, y)
    ensures x == y
    decreases |x|
  {
    if x != [] {
      ListsAreUnique(heap, heap[p].next, x[1..], y[1..]);
      assert x == [x[0]] + x[1..] && y == [y[0]] + y[1..];
    }
  }

  /**
    * Resend completeness: the thread that took the flag down commits, before its
    * own message, the entries of the three lists in list order, without those
    * that are too large; each list is one state of it between the claim and now.
    */
  lemma ResendIsComplete(s: State, steps: seq<Step>, t: State, thread: nat)
    requires Initial(s) && Run(s, steps, t)
    requires thread in t.points && t.points[thread].Emitting? && t.points[thread].resent
    ensures var past := t.points[thread].past;
            && |past.loads| == 3 && past.base <= |Log(t, thread)|
            && (forall i :: 0 <= i < 3 ==> past.claimed <= past.loads[i] <= |t.saved|)
            && Log(t, thread)[past.base..]
               == Fitting(Latest(t.saved[..past.loads[0]], Counters)
                          + Latest(t.saved[..past.loads[1]], CamTracks)
                          + Latest(t.saved[..past.loads[2]], CamNames))
  {
    InitialInv(s);
    RunInv(s, steps, t);
    assert ThreadInv(t, thread);
    var past := t.points[thread].past;
    hide Fitting, Latest;
    assert Log(t, thread)[past.base..] + Fitting([]) == Fitting(Due(past, t.saved));
    NothingFits();
  }

  lemma NothingFits()
    ensures Fitting([]) == []
  {
  }

  lemma {:induction false} LatestHas(ms: seq<Message>, n: nat, i: nat)
    requires i < n <= |ms|
    ensures ms[i] in Latest(ms[..n], KindOf(ms[i]))
    decreases n
  {
    if i < n - 1 {
      LatestHas(ms, n - 1, i);
      assert ms[..n][..n - 1] == ms[..n - 1];
    }
  }

  lemma {:induction false} FittingHas(ms: seq<Message>, m: Message)
    ensures m in Fitting(ms) <==> m in ms && Accepted(m)
  {
    if ms != [] {
      FittingHas(ms[..|ms| - 1], m);
      assert ms == ms[..|ms| - 1] + [ms[|ms| - 1]];
    }
  }

  /** So every entry saved before the flag was taken down is sent again, if it is not too large. */
  lemma EverySavedEntryIsResent(s: State, steps: seq<Step>, t: State, thread: nat, i: nat)
    requires Initial(s) && Run(s, steps, t)
    requires thread in t.points && t.points[thread].Emitting? && t.points[thread].resent
    requires i < t.points[thread].past.claimed && i < |t.saved| && Saved(t.saved[i]) && Accepted(t.saved[i])
    ensures t.points[thread].past.base <= |Log(t, thread)|
    ensures t.saved[i] in Log(t, thread)[t.points[thread].past.base..]
  {
    ResendIsComplete(s, steps, t, thread);
    var past := t.points[thread].past;
    var m := t.saved[i];
    var x := Latest(t.saved[..past.loads[0]], Counters);
    var y := Latest(t.saved[..past.loads[1]], CamTracks);
    var z := Latest(t.saved[..past.loads[2]], CamNames);
    LatestHas(t.saved, past.loads[Index(KindOf(m))], i);
    hide Latest, Fitting, Run, Initial;
    assert m in x + y + z;
    FittingHas(x + y + z, m);
  }

  // --------------------------------------------------------------- a session

  /** What a finished resend has committed holds the i-th entry saved, if it was saved before the claim. */
  lemma ResentHas(past: Resending, log: seq<Message>, saved: seq<Message>, i: nat)
    requires PastInv(past, 3, [], log, saved) && i < past.claimed && i < |saved|
    requires Saved(saved[i]) && Accepted(saved[i])
    ensures saved[i] in log[past.base..]
  {
    var m := saved[i];
    var x := Latest(saved[..past.loads[0]], Counters);
    var y := Latest(saved[..past.loads[1]], CamTracks);
    var z := Latest(saved[..past.loads[2]], CamNames);
    LatestHas(saved, past.loads[Index(KindOf(m))], i);
    NothingFits();
    hide Latest, Fitting;
    assert log[past.base..] + [] == log[past.base..];
    assert m in x + y + z;
    FittingHas(x + y + z, m);
  }

  /** Thread v has committed the message since the beginning s of the session. */
  predicate LoggedBy(s: State, t: State, v: nat, m: Message) {
    |Log(s, v)| <= |Log(t, v)| && m in Log(t, v)[|Log(s, v)|..]
  }

  ghost predicate Logged(s: State, t: State, m: Message) {
    exists v :: LoggedBy(s, t, v, m)
  }

  /** Thread v is about to write the message as its own. */
  predicate OwnedBy(t: State, v: nat, m: Message) {
    v in t.points && !t.points[v].Saving? && t.points[v].own == m
  }

  ghost predicate Owned(t: State, m: Message) {
    exists v :: OwnedBy(t, v, m)
  }

  /** Thread v is in a resend, begun in the session, that covers the i-th entry. */
  predicate ResentBy(s: State, t: State, v: nat, i: nat) {
    && v in t.points && (t.points[v].Loading? || t.points[v].Walking?)
    && i < t.points[v].past.claimed && |Log(s, v)| <= t.points[v].past.base
  }

  ghost predicate BeingResent(s: State, t: State, i: nat) {
    exists v :: ResentBy(s, t, v, i)
  }

  /** The i-th entry has been committed in the session, or is bound to be. */
  ghost predicate Covered(s: State, t: State, i: nat)
    requires i < |t.saved|
  {
    t.resend || t.toRaise > 0 || Logged(s, t, t.saved[i]) || Owned(t, t.saved[i]) || BeingResent(s, t, i)
  }

  ghost predicate SessionInv(s: State, t: State) {
    && t.capturing
    && (forall v :: |Log(s, v)| <= |Log(t, v)|)
    && (forall i :: 0 <= i < |t.saved| && Saved(t.saved[i]) && Accepted(t.saved[i]) ==> Covered(s, t, i))
  }

  predicate NeverStops(steps: seq<Step>) {
    forall i :: 0 <= i < |steps| ==> steps[i] != Stop
  }

  lemma LogGrows(t: State, step: Step, v: nat)
    requires Enabled(t, step)
    ensures Log(t, v) <= Log(Do(t, step), v)
  {
    hide Fitting, Latest;
  }

  lemma LoggedStays(s: State, t: State, u: State, m: Message)
    requires Logged(s, t, m) && forall v :: Log(t, v) <= Log(u, v)
    ensures Logged(s, u, m)
  {
    hide Log;
    var v :| LoggedBy(s, t, v, m);
    PrefixHas(Log(t, v), Log(u, v), |Log(s, v)|, m);
    assert LoggedBy(s, u, v, m);
  }

  lemma PrefixHas(log: seq<Message>, more: seq<Message>, a: nat, m: Message)
    requires a <= |log| && log <= more && m in log[a..]
    ensures m in more[a..]
  {
    var i :| 0 <= i < |log| - a && log[a..][i] == m;
    assert more[a..][i] == m;
  }

  /** A thread that owns the message keeps it until it has written it. */
  lemma OwnedStep(s: State, t: State, step: Step, m: Message)
    requires Enabled(t, step) && step != Stop && t.capturing && Owned(t, m) && Accepted(m)
    requires forall v :: |Log(s, v)| <= |Log(t, v)|
    ensures Owned(Do(t, step), m) || Logged(s, Do(t, step), m)
  {
    var u := Do(t, step);
    var v :| OwnedBy(t, v, m);
    hide Latest;
    if step == Emit(v) {
      EmitLogs(t, v);
      hide Fitting, Do, Enabled;
      SnocHas(Log(t, v), |Log(s, v)|, m);
      assert LoggedBy(s, u, v, m);
    } else {
      OwnerGoesOn(t, step, v);
      assert OwnedBy(u, v, m);
    }
  }

  lemma EmitLogs(t: State, v: nat)
    requires Enabled(t, Emit(v)) && Accepted(t.points[v].own)
    ensures Log(Do(t, Emit(v)), v) == Log(t, v) + [t.points[v].own]
  {
    assert Fitting([t.points[v].own]) == [t.points[v].own];
  }

  lemma SnocHas(log: seq<Message>, a: nat, m: Message)
    requires a <= |log|
    ensures m in (log + [m])[a..]
  {
    assert (log + [m])[a..][|log| - a] == m;
  }

  lemma OwnerGoesOn(t: State, step: Step, v: nat)
    requires Enabled(t, step) && step != Stop && t.capturing && step != Emit(v)
    requires v in t.points && !t.points[v].Saving?
    ensures OwnedBy(Do(t, step), v, t.points[v].own)
  {
    hide Fitting, Latest;
  }

  /** A resend that covers an entry goes on until it has written it. */
  lemma ResentStep(s: State, t: State, step: Step, i: nat)
    requires Inv(t) && Enabled(t, step) && i < |t.saved| && Saved(t.saved[i]) && Accepted(t.saved[i])
    requires BeingResent(s, t, i)
    ensures BeingResent(s, Do(t, step), i) || Logged(s, Do(t, step), t.saved[i])
  {
    var u := Do(t, step);
    var v :| ResentBy(s, t, v, i);
    hide Inv, Enabled, Do, Saved, Accepted, Log;
    if v in u.points && u.points[v].Emitting? {
      ResendEnds(t, step, v);
      StepInv(t, step);
      ResentIsLogged(s, u, v, i);
    } else {
      ResendGoesOn(t, step, v);
      assert ResentBy(s, u, v, i);
    }
  }

  lemma ResentIsLogged(s: State, t: State, v: nat, i: nat)
    requires Inv(t) && v in t.points && t.points[v].Emitting? && t.points[v].resent
    requires i < t.points[v].past.claimed && i < |t.saved| && Saved(t.saved[i]) && Accepted(t.saved[i])
    requires |Log(s, v)| <= t.points[v].past.base
    ensures LoggedBy(s, t, v, t.saved[i])
  {
    assert ThreadInv(t, v);
    hide Inv, PastInv, Saved, Accepted;
    ResentHas(t.points[v].past, Log(t, v), t.saved, i);
    PastBase(t.points[v].past, Log(t, v), t.saved);
    SuffixHas(Log(t, v), |Log(s, v)|, t.points[v].past.base, t.saved[i]);
  }

  lemma PastBase(past: Resending, log: seq<Message>, saved: seq<Message>)
    requires PastInv(past, 3, [], log, saved)
    ensures past.base <= |log|
  {
  }

  lemma SuffixHas(log: seq<Message>, a: nat, b: nat, m: Message)
    requires a <= b <= |log| && m in log[b..]
    ensures m in log[a..]
  {
    assert log[b..] == log[a..][b - a..];
  }

  lemma ResendEnds(t: State, step: Step, v: nat)
    requires Enabled(t, step) && v in t.points && (t.points[v].Loading? || t.points[v].Walking?)
    requires v in Do(t, step).points && Do(t, step).points[v].Emitting?
    ensures var p := Do(t, step).points[v];
            p.resent && p.past == t.points[v].past && Do(t, step).saved == t.saved
  {
    hide Latest, Fitting, Head;
    if step != Write(v) && step != Load(v) {
      assert !StepOf(step, v);
      OthersPoint(t, step, v);
      hide Do, Enabled;
    }
  }

  lemma ResendGoesOn(t: State, step: Step, v: nat)
    requires Enabled(t, step) && v in t.points && (t.points[v].Loading? || t.points[v].Walking?)
    requires !(v in Do(t, step).points && Do(t, step).points[v].Emitting?)
    ensures v in Do(t, step).points && (Do(t, step).points[v].Loading? || Do(t, step).points[v].Walking?)
    ensures Do(t, step).points[v].past.claimed == t.points[v].past.claimed
    ensures Do(t, step).points[v].past.base == t.points[v].past.base
  {
    if step == Write(v) {
      hide Latest, Fitting, Head;
    } else if step == Load(v) {
      hide Latest, Fitting, Head;
    } else {
      assert !StepOf(step, v);
      OthersPoint(t, step, v);
      hide Do, Enabled;
    }
  }

  /** Taking the flag down makes every entry saved so far the winner's. */
  lemma ClaimCovers(s: State, t: State, step: Step, i: nat)
    requires Enabled(t, step) && t.resend && !Do(t, step).resend && i < |t.saved|
    requires forall v :: |Log(s, v)| <= |Log(t, v)|
    ensures BeingResent(s, Do(t, step), i)
  {
    hide Latest, Fitting;
    assert step.Claim?;
    assert ResentBy(s, Do(t, step), step.thread, i);
  }

  /** A flag that is yet to be raised is raised, not forgotten. */
  lemma RaisedInTime(t: State, step: Step)
    requires Enabled(t, step) && !Do(t, step).resend && Do(t, step).toRaise == 0
    ensures t.toRaise == 0
  {
    hide Latest, Fitting, NextPoint, Head, WithHead, KindOf, Saved;
  }

  /** A new entry is its saver's own message. */
  lemma PushOwns(t: State, step: Step)
    requires Enabled(t, step)
    ensures t.saved <= Do(t, step).saved && |Do(t, step).saved| <= |t.saved| + 1
    ensures Do(t, step).saved != t.saved ==> Owned(Do(t, step), Do(t, step).saved[|t.saved|])
  {
    hide Latest, Fitting;
    var u := Do(t, step);
    if u.saved != t.saved {
      assert step.Push?;
      assert OwnedBy(u, step.thread, u.saved[|t.saved|]);
    }
  }

  lemma CoveredStep(s: State, t: State, step: Step, i: nat)
    requires Inv(t) && SessionInv(s, t) && Enabled(t, step) && step != Stop && i < |Do(t, step).saved|
    requires Saved(Do(t, step).saved[i]) && Accepted(Do(t, step).saved[i])
    requires forall v :: Log(t, v) <= Log(Do(t, step), v)
    ensures Covered(s, Do(t, step), i)
  {
    hide Inv, SessionInv, Do, Enabled, Logged, Owned, BeingResent, Accepted, Saved, Log;
    PushOwns(t, step);
    if i < |t.saved| && !Do(t, step).resend && Do(t, step).toRaise == 0 {
      assert Do(t, step).saved[i] == t.saved[i];
      SessionGives(s, t, i);
      StaysCovered(s, t, step, i);
    }
  }

  lemma SessionGives(s: State, t: State, i: nat)
    requires SessionInv(s, t) && i < |t.saved| && Saved(t.saved[i]) && Accepted(t.saved[i])
    ensures t.capturing && Covered(s, t, i) && forall v :: |Log(s, v)| <= |Log(t, v)|
  {
    hide Covered, Saved, Accepted, Log;
  }

  lemma StaysCovered(s: State, t: State, step: Step, i: nat)
    requires Inv(t) && t.capturing && Enabled(t, step) && step != Stop && i < |t.saved|
    requires Saved(t.saved[i]) && Accepted(t.saved[i]) && Covered(s, t, i)
    requires !Do(t, step).resend && Do(t, step).toRaise == 0
    requires forall v :: |Log(s, v)| <= |Log(t, v)| && Log(t, v) <= Log(Do(t, step), v)
    ensures var u, m := Do(t, step), t.saved[i]; Logged(s, u, m) || Owned(u, m) || BeingResent(s, u, i)
  {
    hide Inv, Do, Enabled, Logged, Owned, BeingResent, Accepted, Saved, Log;
    if t.resend || t.toRaise > 0 {
      RaisedInTime(t, step);
      ClaimCovers(s, t, step, i);
    } else if Logged(s, t, t.saved[i]) {
      LoggedStays(s, t, Do(t, step), t.saved[i]);
    } else if Owned(t, t.saved[i]) {
      OwnedStep(s, t, step, t.saved[i]);
    } else {
      ResentStep(s, t, step, i);
    }
  }

  lemma SessionStep(s: State, t: State, step: Step)
    requires Inv(t) && SessionInv(s, t) && Enabled(t, step) && step != Stop
    ensures SessionInv(s, Do(t, step))
  {
    var u := Do(t, step);
    forall v
      ensures Log(t, v) <= Log(u, v)
    {
      LogGrows(t, step, v);
    }
    forall i | 0 <= i < |u.saved| && Saved(u.saved[i]) && Accepted(u.saved[i])
      ensures Covered(s, u, i)
    {
      CoveredStep(s, t, step, i);
    }
    assert u.capturing;
    hide Inv, Covered, Saved, Accepted, Log;
    assert forall v :: |Log(s, v)| <= |Log(t, v)| && Log(t, v) <= Log(u, v);
  }

  lemma {:induction false} SessionRun(s: State, t: State, steps: seq<Step>, u: State)
    requires Inv(t) && SessionInv(s, t) && Run(t, steps, u) && NeverStops(steps)
    ensures SessionInv(s, u)
    decreases |steps|
  {
    if steps != [] {
      hide Inv, Enabled, Do, SessionInv;
      SessionStep(s, t, steps[0]);
      StepInv(t, steps[0]);
      SessionRun(s, Do(t, steps[0]), steps[1..], u);
    }
  }

  ghost predicate Reachable(s: State) {
    exists i: State, steps: seq<Step> :: Initial(i) && Run(i, steps, s)
  }

  lemma SessionEnds(s: State, steps: seq<Step>, t: State, i: nat) returns (v: nat)
    requires Inv(s) && s.capturing && (s.resend || s.toRaise > 0 || s.saved == [])
    requires Run(s, steps, t) && NeverStops(steps) && !t.resend && t.toRaise == 0 && t.points == map[]
    requires i < |t.saved| && Saved(t.saved[i]) && Accepted(t.saved[i])
    ensures LoggedBy(s, t, v, t.saved[i])
  {
    hide Inv, Run, Accepted;
    SessionRun(s, s, steps, t);
    assert Covered(s, t, i);
    v :| LoggedBy(s, t, v, t.saved[i]);
  }

  /**
    * What saving and sending again are for: once the capture has started and as
    * long as it stays on, at any point at which the flag has been raised and is
    * down and no call is under way, every saved entry that is not too large has been
    * committed by some thread since the start, the old ones by the winner and the
    * new ones by those who saved them.
    */
  lemma SessionHasEveryEntry(s: State, again: bool, steps: seq<Step>, t: State, i: nat) returns (v: nat)
    requires Reachable(s) && !s.capturing && Enabled(s, Start(again))
    requires Run(Do(s, Start(again)), steps, t) && NeverStops(steps)
    requires !t.resend && t.toRaise == 0 && t.points == map[]
    requires i < |t.saved| && Saved(t.saved[i]) && Accepted(t.saved[i])
    ensures |Log(s, v)| <= |Log(t, v)| && t.saved[i] in Log(t, v)[|Log(s, v)|..]
  {
    ReachableInv(s);
    hide *;
    StepInv(s, Start(again));
    StartOpensSession(s, again);
    v := SessionEnds(Do(s, Start(again)), steps, t, i);
    LoggedSince(s, Do(s, Start(again)), t, v, t.saved[i]);
  }

  lemma StartOpensSession(s: State, again: bool)
    requires !s.capturing && Enabled(s, Start(again))
    ensures Do(s, Start(again)).capturing && Do(s, Start(again)).toRaise > 0 && Do(s, Start(again)).logs == s.logs
  {
  }

  lemma LoggedSince(s: State, u: State, t: State, v: nat, m: Message)
    requires LoggedBy(u, t, v, m) && u.logs == s.logs
    ensures |Log(s, v)| <= |Log(t, v)| && m in Log(t, v)[|Log(s, v)|..]
  {
  }

  /** In the session the program begins with nothing is sent again; the savers commit their entries themselves. */
  lemma FirstSession(s: State, steps: seq<Step>, t: State, i: nat) returns (v: nat)
    requires Initial(s) && Run(s, steps, t) && NeverStops(steps) && !t.resend && t.toRaise == 0 && t.points == map[]
    requires i < |t.saved| && Saved(t.saved[i]) && Accepted(t.saved[i])
    ensures t.saved[i] in Log(t, v)
  {
    InitialInv(s);
    hide Inv, Run, Accepted;
    v := SessionEnds(s, steps, t, i);
  }

  // ------------------------------------------------------ how a push succeeds

  /** Thread t has linked its entry n of kind k to h and is about to push it. */
  predicate Poised(s: State, t: nat, n: Addr, h: Addr) {
    && t in s.points && s.points[t] == Saving(n, true)
    && n in s.heap && !s.heap[n].shared && s.heap[n].next == h
  }

  lemma PoisedStep(s: State, step: Step, t: nat, n: Addr, h: Addr)
    requires Inv(s) && Poised(s, t, n, h) && Enabled(s, step) && !StepOf(step, t)
    ensures Poised(Do(s, step), t, n, h) && Do(s, step).heap[n] == s.heap[n]
  {
    OthersPoint(s, step, t);
    hide Latest, Fitting, Head, WithHead, KindOf, Saved, NextPoint, ListsInv;
    assert ThreadInv(s, t);
    if step.Link? || step.Push? {
      assert ThreadInv(s, step.thread);
    }
  }

  /** No step of the run is one of thread v. */
  predicate WithoutThread(steps: seq<Step>, v: nat) {
    forall i :: 0 <= i < |steps| ==> !StepOf(steps[i], v)
  }

  lemma {:induction false} PoisedRun(s: State, steps: seq<Step>, u: State, t: nat, n: Addr, h: Addr)
    requires Inv(s) && Poised(s, t, n, h) && Run(s, steps, u) && WithoutThread(steps, t)
    ensures Inv(u) && Poised(u, t, n, h) && u.heap[n] == s.heap[n]
    decreases |steps|
  {
    hide Inv, Poised, Enabled, Do, StepOf;
    if steps != [] {
      StepInv(s, steps[0]);
      PoisedStep(s, steps[0], t, n, h);
      PoisedRun(Do(s, steps[0]), steps[1..], u, t, n, h);
    }
  }

  /**
    * A push fails only if the head of its list has been moved since its thread
    * linked the entry, whatever the other threads have done; else the entry is
    * saved, and its thread goes on to write it.
    */
  lemma PushesUnlessHeadMoved(s: State, t: nat, steps: seq<Step>, u: State)
    requires Reachable(s) && Enabled(s, Link(t))
    requires Run(Do(s, Link(t)), steps, u) && WithoutThread(steps, t)
    requires var k := KindOf(s.heap[s.points[t].node].entry); Head(u.heads, k) == Head(s.heads, k)
    ensures Enabled(u, Push(t))
    ensures var m := s.heap[s.points[t].node].entry;
            Do(u, Push(t)).saved == u.saved + [m] && Do(u, Push(t)).points[t] == Entering(m)
  {
    ReachableInv(s);
    StepInv(s, Link(t));
    LinkPoises(s, t);
    var n := s.points[t].node;
    hide Inv, Run, KindOf, Head;
    PoisedRun(Do(s, Link(t)), steps, u, t, n, Do(s, Link(t)).heap[n].next);
  }

  /** The steps are those of a push by thread t. */
  predicate PushSteps(steps: seq<Step>, t: nat) {
    forall i :: 0 <= i < |steps| ==> steps[i] == Link(t) || steps[i] == Push(t)
  }

  /** A thread that is saving always has a step, and undisturbed its entry is saved after three at the latest. */
  lemma UndisturbedPushEnds(s: State, t: nat, steps: seq<Step>, u: State)
    requires Reachable(s) && t in s.points && s.points[t].Saving? && PushSteps(steps, t) && Run(s, steps, u)
    ensures Enabled(s, Link(t)) || Enabled(s, Push(t))
    ensures |steps| >= 3 ==> u.saved == s.saved + [s.heap[s.points[t].node].entry]
  {
    ReachableInv(s);
    OwnNode(s, t, s.points[t].node);
    if |steps| >= 3 {
      hide Inv, KindOf, Reachable;
      var n := s.points[t].node;
      if s.points[t].linked && Head(s.heads, KindOf(s.heap[n].entry)) != s.heap[n].next {
        TwoSteps(Do(s, steps[0]), t, steps[1..], u);
      } else {
        TwoSteps(s, t, steps, u);
      }
    }
  }

  lemma TwoSteps(s: State, t: nat, steps: seq<Step>, u: State)
    requires t in s.points && s.points[t].Saving? && s.points[t].node in s.heap
    requires var n := s.points[t].node;
             s.points[t].linked ==> Head(s.heads, KindOf(s.heap[n].entry)) == s.heap[n].next
    requires PushSteps(steps, t) && Run(s, steps, u) && |steps| >= 2
    ensures u.saved == s.saved + [s.heap[s.points[t].node].entry]
  {
    if s.points[t].linked {
      LastStep(s, t, steps, u);
    } else {
      hide KindOf, Latest, Head;
      assert steps[0] == Link(t);
      LastStep(Do(s, Link(t)), t, steps[1..], u);
    }
  }

  lemma LastStep(s: State, t: nat, steps: seq<Step>, u: State)
    requires t in s.points && s.points[t].Saving? && s.points[t].linked && s.points[t].node in s.heap
    requires var n := s.points[t].node; Head(s.heads, KindOf(s.heap[n].entry)) == s.heap[n].next
    requires PushSteps(steps, t) && Run(s, steps, u) && |steps| >= 1
    ensures u.saved == s.saved + [s.heap[s.points[t].node].entry]
  {
    hide KindOf, Latest, Head, WithHead;
    assert steps[0] == Push(t);
    assert Do(s, Push(t)).points[t].Entering?;
  }

  lemma LinkPoises(s: State, t: nat)
    requires Inv(s) && Enabled(s, Link(t))
    ensures var u, n := Do(s, Link(t)), s.points[t].node;
            && Poised(u, t, n, Head(s.heads, KindOf(s.heap[n].entry)))
            && u.heap[n].entry == s.heap[n].entry
  {
    OwnNode(s, t, s.points[t].node);
    hide Inv, Latest, KindOf;
  }

  lemma ReachableInv(s: State)
    requires Reachable(s)
    ensures Inv(s)
  {
    var o: State, before: seq<Step> :| Initial(o) && Run(o, before, s);
    hide *;
    InitialInv(o);
    RunInv(o, before, s);
  }

  /** A message of a saved kind that a thread has as its own is among the saved ones. */
  predicate OwnIsSaved(s: State) {
    forall v :: v in s.points && !s.points[v].Saving? && Saved(s.points[v].own) ==> s.points[v].own in s.saved
  }

  lemma OwnIsSavedStep(s: State, step: Step)
    requires OwnIsSaved(s) && Enabled(s, step)
    ensures OwnIsSaved(Do(s, step))
  {
    var u := Do(s, step);
    forall v | v in u.points && !u.points[v].Saving? && Saved(u.points[v].own)
      ensures u.points[v].own in u.saved
    {
      PushOwns(s, step);
      if StepOf(step, v) {
        OwnMessageStays(s, step, v);
      } else {
        OthersPoint(s, step, v);
      }
      hide Do, Enabled, Saved;
    }
  }

  lemma OwnMessageStays(s: State, step: Step, v: nat)
    requires OwnIsSaved(s) && Enabled(s, step) && StepOf(step, v)
    requires var u := Do(s, step); v in u.points && !u.points[v].Saving? && Saved(u.points[v].own)
    ensures Do(s, step).points[v].own in Do(s, step).saved
  {
    hide Latest, Fitting, Head, WithHead, KindOf, Saved;
  }

  lemma {:induction false} OwnIsSavedRun(s: State, steps: seq<Step>, t: State)
    requires OwnIsSaved(s) && Run(s, steps, t)
    ensures OwnIsSaved(t)
    decreases |steps|
  {
    hide OwnIsSaved, Enabled, Do;
    if steps != [] {
      OwnIsSavedStep(s, steps[0]);
      OwnIsSavedRun(Do(s, steps[0]), steps[1..], t);
    }
  }

  /** No thread goes on to write its entry before it is in the list. */
  lemma SavedBeforeWritten(s: State, steps: seq<Step>, t: State, v: nat)
    requires Initial(s) && Run(s, steps, t)
    requires v in t.points && !t.points[v].Saving? && Saved(t.points[v].own)
    ensures t.points[v].own in t.saved
  {
    OwnIsSavedRun(s, steps, t);
  }

  // ------------------------------------------------- who sends what, and why

  /** A call of one thread, as its caller knows it. */
  datatype Call =
    | NoCall
    | Asked(m: Message)     // the capture has not been tested yet
    | Granted(m: Message)   // the capture was on

  function NextCall(call: Call, v: nat, step: Step, capturing: bool): Call {
    match step
    case Save(t, _, m) => if t == v then Asked(m) else call
    case Annotate(t, m) => if t == v then Asked(m) else call
    case Enter(t) => if t == v && call.Asked? then if capturing then Granted(call.m) else NoCall else call
    case Emit(t) => if t == v then NoCall else call
    case _ => call
  }

  /** The messages of the calls of thread v that found the capture on and come to their end in the run. */
  function Answered(s: State, steps: seq<Step>, v: nat, call: Call): seq<Message>
    decreases |steps|
  {
    if steps == [] || !Enabled(s, steps[0]) then []
    else
      (if steps[0] == Emit(v) && call.Granted? then [call.m] else [])
      + Answered(Do(s, steps[0]), steps[1..], v, NextCall(call, v, steps[0], s.capturing))
  }

  function CallOf(s: State, v: nat): Call {
    if v !in s.points then NoCall
    else
      match s.points[v]
      case Saving(n, _) => if n in s.heap then Asked(s.heap[n].entry) else NoCall
      case Entering(own) => Asked(own)
      case Claiming(own) => Granted(own)
      case Loading(own, _, _) => Granted(own)
      case Walking(own, _, _, _, _) => Granted(own)
      case Emitting(own, _, _) => Granted(own)
  }

  /** The step is one of thread v itself. */
  predicate StepOf(step: Step, v: nat) {
    !step.Start? && !step.Raise? && !step.Stop? && step.thread == v
  }

  lemma CallStep(s: State, step: Step, v: nat)
    requires Inv(s) && Enabled(s, step)
    ensures CallOf(Do(s, step), v) == NextCall(CallOf(s, v), v, step, s.capturing)
  {
    NodeOfSaver(s, v);
    hide Inv;
    if StepOf(step, v) {
      OwnCallStep(s, step, v);
    } else {
      OtherCallStep(s, step, v);
    }
  }

  lemma NodeOfSaver(s: State, v: nat)
    requires Inv(s)
    ensures v in s.points && s.points[v].Saving? ==> s.points[v].node in s.heap
  {
    assert v in s.points ==> ThreadInv(s, v);
    hide PastInv, Lists, ListsInv;
  }

  lemma OwnCallStep(s: State, step: Step, v: nat)
    requires Enabled(s, step) && StepOf(step, v)
    ensures CallOf(Do(s, step), v) == NextCall(CallOf(s, v), v, step, s.capturing)
  {
    hide Latest, Fitting, Head, WithHead, KindOf, Saved;
  }

  lemma OtherCallStep(s: State, step: Step, v: nat)
    requires Enabled(s, step) && !StepOf(step, v)
    requires v in s.points && s.points[v].Saving? ==> s.points[v].node in s.heap
    ensures CallOf(Do(s, step), v) == NextCall(CallOf(s, v), v, step, s.capturing)
  {
    OthersPoint(s, step, v);
    if v in s.points && s.points[v].Saving? {
      EntriesStay(s, step, s.points[v].node);
    }
    hide Do, Enabled;
  }

  lemma OthersPoint(s: State, step: Step, v: nat)
    requires Enabled(s, step) && !StepOf(step, v)
    ensures v in Do(s, step).points <==> v in s.points
    ensures v in s.points ==> Do(s, step).points[v] == s.points[v]
  {
    hide Latest, Fitting, Head, WithHead, KindOf, Saved, NextPoint;
  }

  lemma EntriesStay(s: State, step: Step, a: Addr)
    requires Enabled(s, step) && a in s.heap
    ensures a in Do(s, step).heap && Do(s, step).heap[a].entry == s.heap[a].entry
  {
    hide Latest, Fitting, Head, WithHead, KindOf, Saved, NextPoint;
  }

  /** The flag is down and stays down, and nobody is sending again. */
  predicate Quiet(s: State) {
    && !s.resend && s.toRaise == 0
    && (forall v :: v in s.points ==> !s.points[v].Loading? && !s.points[v].Walking?)
  }

  lemma QuietStep(s: State, step: Step, v: nat)
    requires Quiet(s) && Enabled(s, step) && !step.Start?
    ensures Quiet(Do(s, step))
    ensures Log(Do(s, step), v) ==
            if step == Emit(v) then Log(s, v) + Fitting([s.points[v].own]) else Log(s, v)
  {
    hide Latest, Fitting, Head, WithHead, KindOf, Saved;
  }

  predicate WithoutStart(steps: seq<Step>) {
    forall i :: 0 <= i < |steps| ==> !steps[i].Start?
  }

  lemma {:induction false} OwnRun(s: State, steps: seq<Step>, t: State, v: nat)
    requires Inv(s) && Quiet(s) && Run(s, steps, t) && WithoutStart(steps)
    ensures Log(t, v) == Log(s, v) + Fitting(Answered(s, steps, v, CallOf(s, v)))
    decreases |steps|
  {
    if steps == [] {
      NothingFits();
      hide Inv, Quiet, Log, CallOf;
      assert Log(s, v) + [] == Log(s, v);
    } else {
      hide Inv, Quiet, Enabled, Do, CallOf, NextCall, Log, Fitting;
      var u := Do(s, steps[0]);
      StepInv(s, steps[0]);
      QuietStep(s, steps[0], v);
      CallStep(s, steps[0], v);
      OwnRun(u, steps[1..], t, v);
      NowAnswered(s, steps[0], v);
      FittingJoin(Now(s, steps[0], v), Answered(u, steps[1..], v, CallOf(u, v)));
      Regroup(Log(s, v), Fitting(Now(s, steps[0], v)), Fitting(Answered(u, steps[1..], v, CallOf(u, v))));
    }
  }

  lemma Regroup(x: seq<Message>, y: seq<Message>, z: seq<Message>)
    ensures x + y + z == x + (y + z)
  {
  }

  /** What the step commits of thread v's own. */
  function Now(s: State, step: Step, v: nat): seq<Message> {
    if step == Emit(v) && CallOf(s, v).Granted? then [CallOf(s, v).m] else []
  }

  lemma NowAnswered(s: State, step: Step, v: nat)
    requires Quiet(s) && Enabled(s, step) && !step.Start?
    ensures Log(Do(s, step), v) == Log(s, v) + Fitting(Now(s, step, v))
  {
    QuietStep(s, step, v);
    NothingFits();
    hide Quiet, Do, Fitting, Log;
    assert Log(s, v) + [] == Log(s, v);
  }

  /**
    * Nothing is sent again unless the flag was raised: from a state without a
    * resend, until the next start of the capture, each thread commits the messages
    * of its own calls that found the capture on, each once, and no others.
    */
  lemma OwnMessagesOnly(s: State, steps: seq<Step>, t: State, v: nat)
    requires Reachable(s) && Quiet(s) && Run(s, steps, t) && WithoutStart(steps)
    ensures Log(t, v) == Log(s, v) + Fitting(Answered(s, steps, v, CallOf(s, v)))
  {
    ReachableInv(s);
    hide *;
    OwnRun(s, steps, t, v);
  }

  predicate Wins(s: State, step: Step)
    requires Enabled(s, step)
  {
    step.Claim? && step.thread in Do(s, step).points && Do(s, step).points[step.thread].Loading?
  }

  /** The claims of the run that begin a resend. */
  function Winners(s: State, steps: seq<Step>): nat
    decreases |steps|
  {
    if steps == [] || !Enabled(s, steps[0]) then 0
    else (if Wins(s, steps[0]) then 1 else 0) + Winners(Do(s, steps[0]), steps[1..])
  }

  function Raises(steps: seq<Step>): nat {
    if steps == [] then 0 else (if steps[0] == Raise then 1 else 0) + Raises(steps[1..])
  }

  lemma WinnerStep(s: State, step: Step)
    requires Enabled(s, step)
    ensures (if Wins(s, step) then 1 else 0) + (if Do(s, step).resend then 1 else 0)
            <= (if step == Raise then 1 else 0) + (if s.resend then 1 else 0)
  {
    hide Latest, Fitting, Head, WithHead, KindOf, Saved;
  }

  /** Every time the flag is raised at most one thread begins a resend. */
  lemma {:induction false} OneWinnerEach(s: State, steps: seq<Step>, t: State)
    requires Run(s, steps, t)
    ensures Winners(s, steps) + (if t.resend then 1 else 0) <= Raises(steps) + (if s.resend then 1 else 0)
    decreases |steps|
  {
    if steps != [] {
      hide Enabled, Do, Wins;
      WinnerStep(s, steps[0]);
      OneWinnerEach(Do(s, steps[0]), steps[1..], t);
    }
  }

  lemma ClaimTakesFlag(s: State, step: Step)
    requires Enabled(s, step) && s.resend
    ensures if step.Claim? then Wins(s, step) else Do(s, step).resend
  {
    hide Latest, Fitting, Head, WithHead, KindOf, Saved;
  }

  /** And the first thread that comes to look at a raised flag does. */
  lemma {:induction false} FirstClaimWins(s: State, steps: seq<Step>, t: State, i: nat)
    requires Run(s, steps, t) && s.resend && i < |steps| && steps[i].Claim?
    ensures Winners(s, steps) >= 1
    decreases |steps|
  {
    hide Enabled, Do, Wins;
    ClaimTakesFlag(s, steps[0]);
    if i > 0 && !steps[0].Claim? {
      FirstClaimWins(Do(s, steps[0]), steps[1..], t, i - 1);
    }
  }

  /** How often the flag is to be raised for the starts of the run: twice for a start command, once for a connection. */
  function Owed(s: State, steps: seq<Step>): nat
    decreases |steps|
  {
    if steps == [] || !Enabled(s, steps[0]) then 0
    else
      (if steps[0].Start? && !s.capturing then if steps[0].again then 2 else 1 else 0)
      + Owed(Do(s, steps[0]), steps[1..])
  }

  lemma OwedStep(s: State, step: Step)
    requires Enabled(s, step)
    ensures Do(s, step).toRaise + (if step == Raise then 1 else 0) ==
            s.toRaise + if step.Start? && !s.capturing then if step.again then 2 else 1 else 0
  {
    hide Latest, Fitting, Head, WithHead, KindOf, Saved, NextPoint;
  }

  lemma {:induction false} RaisedAsOwed(s: State, steps: seq<Step>, t: State)
    requires Run(s, steps, t)
    ensures Raises(steps) + t.toRaise == s.toRaise + Owed(s, steps)
    decreases |steps|
  {
    if steps != [] {
      hide Enabled, Do;
      OwedStep(s, steps[0]);
      RaisedAsOwed(Do(s, steps[0]), steps[1..], t);
    }
  }

  /** Over a whole run there are at most two resends for a start command and one for a new connection. */
  lemma ResendsAreBounded(s: State, steps: seq<Step>, t: State)
    requires Initial(s) && Run(s, steps, t)
    ensures Winners(s, steps) <= Owed(s, steps)
  {
    OneWinnerEach(s, steps, t);
    RaisedAsOwed(s, steps, t);
  }

  /** A call of v that has not found the capture on yet. */
  predicate Outside(s: State, v: nat) {
    v in s.points ==> s.points[v].Saving? || s.points[v].Entering?
  }

  lemma OffStep(s: State, step: Step, v: nat)
    requires Enabled(s, step) && !step.Start? && !s.capturing && Outside(s, v)
    ensures var u := Do(s, step); !u.capturing && Outside(u, v) && Log(u, v) == Log(s, v)
  {
    hide Latest, Fitting, Head, WithHead, KindOf, Saved, NextPoint;
  }

  lemma {:induction false} OffRun(s: State, steps: seq<Step>, t: State, v: nat)
    requires !s.capturing && Outside(s, v) && Run(s, steps, t) && WithoutStart(steps)
    ensures Log(t, v) == Log(s, v)
    decreases |steps|
  {
    if steps != [] {
      hide Enabled, Do, Outside, Log;
      OffStep(s, steps[0], v);
      OffRun(Do(s, steps[0]), steps[1..], t, v);
    }
  }

  /** Between a stop and the next start no thread commits anything, unless its call had found the capture on before. */
  lemma NothingWhileStopped(s: State, steps: seq<Step>, t: State, v: nat)
    requires Enabled(s, Stop) && Outside(s, v) && Run(Do(s, Stop), steps, t) && WithoutStart(steps)
    ensures Log(t, v) == Log(s, v)
  {
    OffRun(Do(s, Stop), steps, t, v);
  }

  // --------------------------------------------------- the order of a resend

  /** The place of a message in the order of sending again. */
  function Rank(m: Message): nat {
    if m.Counter? then 0 else if m.CamTrack? then 1 else 2
  }

  /** Only messages of the three kinds are saved. */
  predicate OnlySaved(s: State) {
    && (forall a :: a in s.heap ==> Saved(s.heap[a].entry))
    && (forall i :: 0 <= i < |s.saved| ==> Saved(s.saved[i]))
  }

  lemma OnlySavedStep(s: State, step: Step)
    requires OnlySaved(s) && Enabled(s, step)
    ensures OnlySaved(Do(s, step))
  {
    hide Latest, Fitting, Head, WithHead, KindOf, NextPoint, Saved;
    assert step.Save? ==> Saved(step.entry);
  }

  lemma {:induction false} OnlySavedRun(s: State, steps: seq<Step>, t: State)
    requires OnlySaved(s) && Run(s, steps, t)
    ensures OnlySaved(t)
    decreases |steps|
  {
    if steps != [] {
      hide OnlySaved, Enabled, Do;
      OnlySavedStep(s, steps[0]);
      OnlySavedRun(Do(s, steps[0]), steps[1..], t);
    }
  }

  predicate AllSaved(ms: seq<Message>) {
    forall m :: m in ms ==> Saved(m)
  }

  predicate AllOfRank(ms: seq<Message>, rank: nat) {
    forall m :: m in ms ==> Saved(m) && Rank(m) == rank
  }

  lemma {:induction false} LatestRank(ms: seq<Message>, k: Kind)
    requires AllSaved(ms)
    ensures AllOfRank(Latest(ms, k), Index(k))
  {
    if ms != [] {
      LatestRank(ms[..|ms| - 1], k);
    }
  }

  lemma {:induction false} FittingRank(ms: seq<Message>, rank: nat)
    requires AllOfRank(ms, rank)
    ensures AllOfRank(Fitting(ms), rank)
  {
    if ms != [] {
      FittingRank(ms[..|ms| - 1], rank);
    }
  }

  lemma PartOfRank(saved: seq<Message>, n: nat, k: Kind)
    requires n <= |saved| && forall i :: 0 <= i < |saved| ==> Saved(saved[i])
    ensures AllOfRank(Fitting(Latest(saved[..n], k)), Index(k))
  {
    LatestRank(saved[..n], k);
    FittingRank(Latest(saved[..n], k), Index(k));
  }

  /** Of the committed entries every counter comes before every track and every track before every view name. */
  lemma ResendIsOrdered(s: State, steps: seq<Step>, t: State, thread: nat)
    requires Initial(s) && Run(s, steps, t)
    requires thread in t.points && t.points[thread].Emitting? && t.points[thread].resent
    ensures t.points[thread].past.base <= |Log(t, thread)|
    ensures var sent := Log(t, thread)[t.points[thread].past.base..];
            forall i, j :: 0 <= i < j < |sent| ==>
              && Saved(sent[i]) && (sent[i].CamViewName? ==> sent[j].CamViewName?)
              && (sent[j].Counter? ==> sent[i].Counter?)
  {
    ResendIsComplete(s, steps, t, thread);
    OnlySavedRun(s, steps, t);
    var past := t.points[thread].past;
    var x := Latest(t.saved[..past.loads[0]], Counters);
    var y := Latest(t.saved[..past.loads[1]], CamTracks);
    var z := Latest(t.saved[..past.loads[2]], CamNames);
    PartOfRank(t.saved, past.loads[0], Counters);
    PartOfRank(t.saved, past.loads[1], CamTracks);
    PartOfRank(t.saved, past.loads[2], CamNames);
    hide Latest, Fitting, Run, Initial;
    FittingJoin(x + y, z);
    FittingJoin(x, y);
    RanksInOrder(Fitting(x), Fitting(y), Fitting(z));
  }

  lemma RanksInOrder(x: seq<Message>, y: seq<Message>, z: seq<Message>)
    requires AllOfRank(x, 0) && AllOfRank(y, 1) && AllOfRank(z, 2)
    ensures var sent := x + y + z;
            forall i, j :: 0 <= i < j < |sent| ==>
              && Saved(sent[i]) && (sent[i].CamViewName? ==> sent[j].CamViewName?)
              && (sent[j].Counter? ==> sent[i].Counter?)
  {
    var sent := x + y + z;
    forall i | 0 <= i < |sent|
      ensures Saved(sent[i]) && Rank(sent[i]) == if i < |x| then 0 else if i < |x| + |y| then 1 else 2
    {
      assert sent[i] == if i < |x| then x[i] else if i < |x| + |y| then y[i - |x|] else z[i - |x| - |y|];
    }
  }
}
