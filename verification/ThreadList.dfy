// The list of annotating threads: any number of threads push themselves with
// compare-and-swap while the one sender walks the list and unlinks and frees
// the nodes of threads that have exited. Addresses are reused after free.

module ThreadList {

  /** Addresses; 0 is NULL. The head pointer gator_state.threads is not a node. */
  type Addr = nat

  /** A node in allocated memory and, as history, the thread it stands for. */
  datatype Node = Node(next: Addr, exited: bool, owner: nat)

  type Heap = map<Addr, Node>

  /** A thread inside gator_get_thread: its node is its own until the compare-and-swap succeeds. */
  datatype Pusher = Pusher(node: Addr, linked: bool)

  /** The sender in the loop of gator_func; prev is 0 for the head pointer. */
  datatype Walker =
    | Outside
    | At(prev: Addr, cur: Addr)                    // about to look at cur (0: the loop is over)
    | Looked(prev: Addr, cur: Addr, next: Addr)    // cur has had its turn, cur->next is loaded
    | Unlinked(prev: Addr, cur: Addr, next: Addr)  // the swap took cur out, it is not freed yet

  datatype State = State(
    heap: Heap, head: Addr, pushers: map<nat, Pusher>, walker: Walker,
    // history: the list as a sequence and the place of the walker in it; the threads that
    // have been pushed, have exited, have been freed; those in the list when the pass began
    // and those that have had their turn in it
    chain: seq<Addr>, pos: nat, pushed: set<nat>, gone: set<nat>, freed: set<nat>,
    atStart: set<nat>, seen: set<nat>)

  datatype Step =
    | Allocate(thread: nat, node: Addr)  // malloc: any address not in use
    | Link(thread: nat)                  // thread->next = gator_state.threads
    | Push(thread: nat)                  // the compare-and-swap, successful or not
    | Exit(node: Addr)                   // gator_destructor
    | BeginPass | Turn | Advance | Unlink | Free

  ghost predicate Initial(s: State) {
    && s.heap == map[] && s.head == 0 && s.pushers == map[] && s.walker == Outside
    && s.chain == [] && s.pos == 0 && s.pushed == {} && s.gone == {} && s.freed == {}
    && s.atStart == {} && s.seen == {}
  }

  predicate Enabled(s: State, step: Step) {
    match step
    case Allocate(t, n) => t !in s.pushed && t !in s.pushers && n != 0 && n !in s.heap
    case Link(t) => t in s.pushers && !s.pushers[t].linked && s.pushers[t].node in s.heap
    case Push(t) => t in s.pushers && s.pushers[t].linked && s.pushers[t].node in s.heap
    case Exit(n) => n in s.heap && n in s.chain
    case BeginPass => s.walker == Outside
    case Turn => s.walker.At? && (s.walker.cur == 0 || s.walker.cur in s.heap)
    case Advance => s.walker.Looked? && s.walker.cur in s.heap && !s.heap[s.walker.cur].exited
    case Unlink => s.walker.Looked? && s.walker.cur in s.heap && s.heap[s.walker.cur].exited
                   && (s.walker.prev == 0 || s.walker.prev in s.heap)
    case Free => s.walker.Unlinked? && s.walker.cur in s.heap
  }

  /** The threads whose nodes are linked. */
  function Members(heap: Heap, chain: seq<Addr>): set<nat> {
    set a | a in chain && a in heap :: heap[a].owner
  }

  function AfterAllocate(s: State, t: nat, n: Addr): State {
    s.(heap := s.heap[n := Node(0, false, t)], pushers := s.pushers[t := Pusher(n, false)])
  }

  function AfterLink(s: State, t: nat, n: Addr): State
    requires n in s.heap
  {
    s.(heap := s.heap[n := s.heap[n].(next := s.head)], pushers := s.pushers[t := Pusher(n, true)])
  }

  function AfterPush(s: State, t: nat, n: Addr): State
    requires n in s.heap
  {
    if s.head == s.heap[n].next then
      s.(head := n, pushers := s.pushers - {t},
         chain := [n] + s.chain, pos := s.pos + 1, pushed := s.pushed + {t})
    else s.(pushers := s.pushers[t := Pusher(n, false)])
  }

  function AfterExit(s: State, n: Addr): State
    requires n in s.heap
  {
    s.(heap := s.heap[n := s.heap[n].(exited := true)], gone := s.gone + {s.heap[n].owner})
  }

  function AfterTurn(s: State, prev: Addr, cur: Addr): State
    requires cur == 0 || cur in s.heap
  {
    if cur == 0 then s.(walker := Outside)
    else s.(walker := Looked(prev, cur, s.heap[cur].next), seen := s.seen + {s.heap[cur].owner})
  }

  /** `prev = &thread->next; thread = *prev` */
  function StepOver(s: State, cur: Addr): State
    requires cur in s.heap
  {
    s.(walker := At(cur, s.heap[cur].next), pos := s.pos + 1)
  }

  function Dropped(chain: seq<Addr>, k: nat): seq<Addr> {
    if k < |chain| then chain[..k] + chain[k + 1..] else chain
  }

  /** The compare-and-swap on *prev; when it fails the walker steps over cur and gets it next time. */
  function AfterUnlink(s: State, prev: Addr, cur: Addr, next: Addr): State
    requires cur in s.heap && (prev == 0 || prev in s.heap)
  {
    if prev == 0 then
      if s.head == cur then s.(head := next, walker := Unlinked(prev, cur, next), chain := Dropped(s.chain, s.pos))
      else StepOver(s, cur)
    else
      if s.heap[prev].next == cur then
        s.(heap := s.heap[prev := s.heap[prev].(next := next)], walker := Unlinked(prev, cur, next),
           chain := Dropped(s.chain, s.pos))
      else StepOver(s, cur)
  }

  function AfterFree(s: State, prev: Addr, cur: Addr, next: Addr): State
    requires cur in s.heap
  {
    s.(heap := s.heap - {cur}, walker := At(prev, next), freed := s.freed + {s.heap[cur].owner})
  }

  function Do(s: State, step: Step): State
    requires Enabled(s, step)
  {
    match step
    case Allocate(t, n) => AfterAllocate(s, t, n)
    case Link(t) => AfterLink(s, t, s.pushers[t].node)
    case Push(t) => AfterPush(s, t, s.pushers[t].node)
    case Exit(n) => AfterExit(s, n)
    case BeginPass => s.(walker := At(0, s.head), pos := 0, atStart := Members(s.heap, s.chain), seen := {})
    case Turn => AfterTurn(s, s.walker.prev, s.walker.cur)
    case Advance => StepOver(s, s.walker.cur)
    case Unlink => AfterUnlink(s, s.walker.prev, s.walker.cur, s.walker.next)
    case Free => AfterFree(s, s.walker.prev, s.walker.cur, s.walker.next)
  }

  predicate Run(s: State, steps: seq<Step>, t: State)
    decreases |steps|
  {
    if steps == [] then s == t
    else Enabled(s, steps[0]) && Run(Do(s, steps[0]), steps[1..], t)
  }

  // ---------------------------------------------------------------- invariant

  /** The pointer that ought to point to place i of the chain. */
  function Target(chain: seq<Addr>, i: nat): Addr {
    if i < |chain| then chain[i] else 0
  }

  predicate NodeAt(heap: Heap, chain: seq<Addr>, i: nat)
    requires i < |chain|
  {
    chain[i] != 0 && chain[i] in heap && heap[chain[i]].next == Target(chain, i + 1)
  }

  /** Following the next pointers from the head visits the chain node by node, never twice, and ends. */
  predicate ChainInv(heap: Heap, head: Addr, chain: seq<Addr>) {
    && head == Target(chain, 0)
    && (forall i :: 0 <= i < |chain| ==> NodeAt(heap, chain, i))
    && (forall i, j :: 0 <= i < j < |chain| ==> chain[i] != chain[j])
  }

  /** The walker is at its place, one behind prev unless prev is the head pointer. */
  predicate WalkerInv(s: State) {
    match s.walker
    case Outside => true
    case At(prev, cur) =>
      s.pos <= |s.chain| && cur == Target(s.chain, s.pos) && PrevOk(s, prev)
    case Looked(prev, cur, next) =>
      s.pos < |s.chain| && cur == s.chain[s.pos] && next == Target(s.chain, s.pos + 1) && PrevOk(s, prev)
    case Unlinked(prev, cur, next) =>
      && s.pos <= |s.chain| && next == Target(s.chain, s.pos) && PrevOk(s, prev)
      && cur in s.heap && cur !in s.chain && s.heap[cur].exited
  }

  predicate PrevOk(s: State, prev: Addr) {
    prev == 0 || (0 < s.pos <= |s.chain| && prev == s.chain[s.pos - 1])
  }

  /** A node that is being pushed is reachable from nowhere and belongs to one thread. */
  predicate PusherInv(s: State) {
    && (forall t :: t in s.pushers ==> PusherOk(s, t))
    && (forall t, u :: t in s.pushers && u in s.pushers && t != u ==> s.pushers[t].node != s.pushers[u].node)
  }

  predicate PusherOk(s: State, t: nat)
    requires t in s.pushers
  {
    var n := s.pushers[t].node;
    && n != 0 && n in s.heap && n !in s.chain && s.heap[n].owner == t && !s.heap[n].exited && t !in s.pushed
    && (s.walker.Unlinked? ==> n != s.walker.cur)
  }

  /** The thread whose node is out of the list but not freed yet. */
  function Limbo(s: State): set<nat> {
    if s.walker.Unlinked? && s.walker.cur in s.heap then {s.heap[s.walker.cur].owner} else {}
  }

  /** Every thread ever pushed is in the list, or in limbo, or freed, and only one of these. */
  predicate MemberInv(s: State) {
    && s.pushed == Members(s.heap, s.chain) + Limbo(s) + s.freed
    && (forall i, j :: 0 <= i < j < |s.chain| && s.chain[i] in s.heap && s.chain[j] in s.heap ==>
          s.heap[s.chain[i]].owner != s.heap[s.chain[j]].owner)
    && Members(s.heap, s.chain) !! s.freed && Members(s.heap, s.chain) !! Limbo(s) && Limbo(s) !! s.freed
    && s.freed <= s.gone
    && (forall a :: a in s.heap && s.heap[a].exited ==> s.heap[a].owner in s.gone)
  }

  /** Whoever was in the list when the pass began has had a turn or is still ahead. */
  predicate PassInv(s: State) {
    s.pos <= |s.chain| && !s.walker.Outside? ==> s.atStart <= s.seen + Members(s.heap, s.chain[s.pos..])
  }

  /** The node the walker has just looked at has had its turn. */
  predicate LookedIsSeen(s: State) {
    (s.walker.Looked? || s.walker.Unlinked?) && s.walker.cur in s.heap ==> s.heap[s.walker.cur].owner in s.seen
  }

  predicate Inv(s: State) {
    && ChainInv(s.heap, s.head, s.chain) && WalkerInv(s) && PusherInv(s) && MemberInv(s)
    && PassInv(s) && LookedIsSeen(s)
  }

  // ------------------------------------------------------- the steps keep it

  lemma SameMembers(h: Heap, g: Heap, chain: seq<Addr>)
    requires forall a :: a in chain ==> (a in h <==> a in g) && (a in h ==> h[a].owner == g[a].owner)
    ensures Members(h, chain) == Members(g, chain)
  {
  }

  lemma MembersCons(h: Heap, n: Addr, chain: seq<Addr>)
    requires n in h
    ensures Members(h, [n] + chain) == {h[n].owner} + Members(h, chain)
  {
  }

  lemma SuffixIn(chain: seq<Addr>, k: nat)
    requires k <= |chain|
    ensures forall a :: a in chain[k..] ==> a in chain
  {
  }

  /** Nodes that are not in the chain may come, go and change; owners stay. */
  lemma SameChain(h: Heap, g: Heap, head: Addr, chain: seq<Addr>)
    requires ChainInv(h, head, chain)
    requires forall a :: a in chain && a in h ==> a in g && g[a].next == h[a].next && g[a].owner == h[a].owner
    ensures ChainInv(g, head, chain) && Members(g, chain) == Members(h, chain)
    ensures forall k: nat :: k <= |chain| ==> Members(g, chain[k..]) == Members(h, chain[k..])
  {
    forall i | 0 <= i < |chain|
      ensures NodeAt(g, chain, i)
    {
      assert NodeAt(h, chain, i) && chain[i] in chain;
    }
    InHeap(h, head, chain);
    SameMembers(h, g, chain);
    forall k: nat | k <= |chain|
      ensures Members(g, chain[k..]) == Members(h, chain[k..])
    {
      SuffixIn(chain, k);
      SameMembers(h, g, chain[k..]);
    }
  }

  lemma InHeap(h: Heap, head: Addr, chain: seq<Addr>)
    requires ChainInv(h, head, chain)
    ensures forall a :: a in chain ==> a in h && a != 0
  {
    forall a | a in chain
      ensures a in h && a != 0
    {
      var i :| 0 <= i < |chain| && chain[i] == a;
      assert NodeAt(h, chain, i);
    }
  }

  lemma AllocatePushers(s: State, t: nat, n: Addr)
    requires PusherInv(s) && t !in s.pushed && t !in s.pushers && n != 0 && n !in s.heap && n !in s.chain
    requires s.walker.Unlinked? ==> s.walker.cur in s.heap
    ensures PusherInv(AfterAllocate(s, t, n))
  {
    var u := AfterAllocate(s, t, n);
    forall v | v in u.pushers
      ensures PusherOk(u, v) && (v != t ==> u.pushers[v].node != n)
    {
      if v != t {
        assert PusherOk(s, v);
      }
    }
  }

  lemma AllocateMembers(s: State, t: nat, n: Addr)
    requires MemberInv(s) && n !in s.heap && (forall a :: a in s.chain ==> a in s.heap)
    requires s.walker.Unlinked? ==> s.walker.cur in s.heap
    requires Members(s.heap[n := Node(0, false, t)], s.chain) == Members(s.heap, s.chain)
    ensures MemberInv(AfterAllocate(s, t, n))
  {
    hide Members;
  }

  lemma AllocateInv(s: State, t: nat, n: Addr)
    requires Inv(s) && Enabled(s, Allocate(t, n))
    ensures Inv(AfterAllocate(s, t, n))
  {
    var u := AfterAllocate(s, t, n);
    InHeap(s.heap, s.head, s.chain);
    SameChain(s.heap, u.heap, s.head, s.chain);
    AllocatePushers(s, t, n);
    AllocateMembers(s, t, n);
    hide Members, NodeAt, ChainInv, PusherInv, MemberInv;
  }

  lemma LinkInv(s: State, t: nat, n: Addr)
    requires Inv(s) && t in s.pushers && n == s.pushers[t].node
    ensures n in s.heap && Inv(AfterLink(s, t, n))
  {
    assert PusherOk(s, t);
    var u := AfterLink(s, t, n);
    SameChain(s.heap, u.heap, s.head, s.chain);
    hide Members, NodeAt, ChainInv;
    forall v | v in u.pushers
      ensures PusherOk(u, v)
    {
      assert PusherOk(s, v);
    }
  }

  lemma ExitInv(s: State, n: Addr)
    requires Inv(s) && Enabled(s, Exit(n))
    ensures Inv(AfterExit(s, n))
  {
    SameChain(s.heap, AfterExit(s, n).heap, s.head, s.chain);
    ExitPushers(s, n);
    ExitMembers(s, n);
    hide Members, NodeAt, ChainInv, PusherInv, MemberInv;
  }

  lemma ExitPushers(s: State, n: Addr)
    requires PusherInv(s) && n in s.heap && n in s.chain
    ensures PusherInv(AfterExit(s, n))
  {
    forall v | v in s.pushers
      ensures PusherOk(AfterExit(s, n), v)
    {
      assert PusherOk(s, v);
    }
  }

  lemma ExitMembers(s: State, n: Addr)
    requires MemberInv(s) && n in s.heap
    requires Members(AfterExit(s, n).heap, s.chain) == Members(s.heap, s.chain)
    ensures MemberInv(AfterExit(s, n))
  {
    hide Members;
  }

  lemma PushedChain(h: Heap, head: Addr, chain: seq<Addr>, n: Addr)
    requires ChainInv(h, head, chain) && n != 0 && n in h && n !in chain && h[n].next == head
    ensures ChainInv(h, n, [n] + chain)
  {
    var c := [n] + chain;
    forall i | 0 <= i < |c|
      ensures NodeAt(h, c, i)
    {
      if i > 0 {
        assert NodeAt(h, chain, i - 1);
      }
    }
  }

  lemma PushPushers(s: State, t: nat, n: Addr)
    requires PusherInv(s) && t in s.pushers && n == s.pushers[t].node
    ensures n in s.heap && PusherInv(AfterPush(s, t, n))
  {
    assert PusherOk(s, t);
    var u := AfterPush(s, t, n);
    forall v | v in u.pushers
      ensures PusherOk(u, v)
    {
      assert PusherOk(s, v);
    }
  }

  lemma PushMembers(s: State, t: nat, n: Addr)
    requires MemberInv(s) && n in s.heap && s.heap[n].owner == t && t !in s.pushed
    requires s.head == s.heap[n].next
    ensures MemberInv(AfterPush(s, t, n))
  {
    MembersCons(s.heap, n, s.chain);
    NewOwner(s, n);
    hide Members;
  }

  lemma PushInv(s: State, t: nat, n: Addr)
    requires Inv(s) && t in s.pushers && n == s.pushers[t].node
    ensures n in s.heap && Inv(AfterPush(s, t, n))
  {
    assert PusherOk(s, t);
    PushPushers(s, t, n);
    var u := AfterPush(s, t, n);
    if s.head == s.heap[n].next {
      PushedChain(s.heap, s.head, s.chain, n);
      PushMembers(s, t, n);
      PushWalker(s, t, n);
    }
    hide Members, NodeAt, ChainInv, PusherInv, MemberInv, PusherOk, WalkerInv, PassInv, LookedIsSeen;
  }

  lemma PushWalker(s: State, t: nat, n: Addr)
    requires WalkerInv(s) && PassInv(s) && LookedIsSeen(s) && n in s.heap && n !in s.chain
    requires s.head == s.heap[n].next && (s.walker.Unlinked? ==> s.walker.cur != n)
    ensures var u := AfterPush(s, t, n); WalkerInv(u) && PassInv(u) && LookedIsSeen(u)
  {
    var u := AfterPush(s, t, n);
    assert s.pos <= |s.chain| ==> u.chain[u.pos..] == s.chain[s.pos..];
    hide Members;
  }

  lemma NewOwner(s: State, n: Addr)
    requires MemberInv(s) && n in s.heap && s.heap[n].owner !in s.pushed
    ensures s.heap[n].owner !in Members(s.heap, s.chain) + Limbo(s) + s.freed
    ensures forall a :: a in s.chain && a in s.heap ==> s.heap[a].owner != s.heap[n].owner
  {
    forall a | a in s.chain && a in s.heap
      ensures s.heap[a].owner != s.heap[n].owner
    {
      assert s.heap[a].owner in Members(s.heap, s.chain);
    }
  }

  // The walker.

  /** The walker's steps do not touch the nodes that are being pushed. */
  lemma SamePushers(s: State, u: State)
    requires PusherInv(s) && u.pushers == s.pushers && u.pushed == s.pushed
    requires forall a :: a in u.chain ==> a in s.chain
    requires forall t :: t in s.pushers ==>
               var n := s.pushers[t].node;
               (n in s.heap && n !in s.chain ==>
                  n in u.heap && u.heap[n] == s.heap[n] && (u.walker.Unlinked? ==> n != u.walker.cur))
    ensures PusherInv(u)
  {
    forall t | t in u.pushers
      ensures PusherOk(u, t)
    {
      assert PusherOk(s, t);
    }
  }

  lemma BeginPassInv(s: State)
    requires Inv(s) && s.walker == Outside
    ensures Inv(Do(s, BeginPass))
  {
    SamePushers(s, Do(s, BeginPass));
    hide NodeAt, Members, PusherInv;
    assert s.chain[0..] == s.chain;
  }

  lemma SplitSuffix(h: Heap, chain: seq<Addr>, k: nat)
    requires k < |chain| && chain[k] in h
    ensures Members(h, chain[k..]) == {h[chain[k]].owner} + Members(h, chain[k + 1..])
  {
    assert chain[k..] == [chain[k]] + chain[k + 1..];
  }

  lemma TurnInv(s: State, prev: Addr, cur: Addr)
    requires Inv(s) && s.walker == At(prev, cur)
    ensures (cur == 0 || cur in s.heap) && Inv(AfterTurn(s, prev, cur))
  {
    InHeap(s.heap, s.head, s.chain);
    assert cur != 0 ==> NodeAt(s.heap, s.chain, s.pos);
    SamePushers(s, AfterTurn(s, prev, cur));
    hide ChainInv, Members, PusherInv;
  }

  lemma NotNull(h: Heap, head: Addr, chain: seq<Addr>, i: nat)
    requires ChainInv(h, head, chain) && i < |chain|
    ensures chain[i] != 0
  {
    assert NodeAt(h, chain, i);
  }

  /** A pass is over only when everyone who was in the list at its beginning has had a turn. */
  lemma PassIsComplete(s: State)
    requires Inv(s) && s.walker.At? && s.walker.cur == 0
    ensures s.atStart <= s.seen
  {
    if s.pos < |s.chain| {
      NotNull(s.heap, s.head, s.chain, s.pos);
    }
    assert s.chain[s.pos..] == [];
  }

  lemma StepOverMembers(s: State, cur: Addr)
    requires MemberInv(s) && s.walker.Looked? && cur in s.heap
    ensures MemberInv(StepOver(s, cur))
  {
    hide Members;
  }

  lemma StepOverPass(s: State, prev: Addr, cur: Addr, next: Addr)
    requires PassInv(s) && LookedIsSeen(s) && s.walker == Looked(prev, cur, next)
    requires s.pos < |s.chain| && cur == s.chain[s.pos] && cur in s.heap
    ensures PassInv(StepOver(s, cur)) && LookedIsSeen(StepOver(s, cur))
  {
    SplitSuffix(s.heap, s.chain, s.pos);
    hide Members;
  }

  lemma StepOverInv(s: State, prev: Addr, cur: Addr, next: Addr)
    requires Inv(s) && s.walker == Looked(prev, cur, next)
    ensures cur in s.heap && Inv(StepOver(s, cur))
  {
    assert NodeAt(s.heap, s.chain, s.pos);
    StepOverPass(s, prev, cur, next);
    StepOverMembers(s, cur);
    SamePushers(s, StepOver(s, cur));
    hide ChainInv, Members, PusherInv, MemberInv, PassInv, LookedIsSeen;
  }

  lemma DroppedPart(chain: seq<Addr>, k: nat)
    requires k < |chain|
    requires forall i, j :: 0 <= i < j < |chain| ==> chain[i] != chain[j]
    ensures forall a :: a in Dropped(chain, k) <==> a in chain && a != chain[k]
    ensures Dropped(chain, k)[k..] == chain[k + 1..]
  {
    var d := Dropped(chain, k);
    forall a | a in chain && a != chain[k]
      ensures a in d
    {
      var i :| 0 <= i < |chain| && chain[i] == a;
      assert i < k ==> d[i] == a;
      assert i > k ==> d[i - 1] == a;
    }
  }

  /** Taking out place k: its predecessor, or the head pointer, now points past it. */
  lemma DroppedChain(h: Heap, g: Heap, head: Addr, newHead: Addr, chain: seq<Addr>, k: nat)
    requires ChainInv(h, head, chain) && k < |chain|
    requires forall i :: 0 <= i < |chain| && i != k - 1 ==> chain[i] in h && chain[i] in g && g[chain[i]] == h[chain[i]]
    requires k == 0 ==> newHead == Target(chain, 1)
    requires k > 0 ==> newHead == head && chain[k - 1] in g && g[chain[k - 1]].next == Target(chain, k + 1)
    ensures ChainInv(g, newHead, Dropped(chain, k))
  {
    var d := Dropped(chain, k);
    forall i | 0 <= i < |d|
      ensures NodeAt(g, d, i)
    {
      assert NodeAt(h, chain, if i < k then i else i + 1);
    }
  }

  lemma DroppedMembers(h: Heap, chain: seq<Addr>, k: nat)
    requires k < |chain| && (forall a :: a in chain ==> a in h)
    requires forall i, j :: 0 <= i < j < |chain| ==> chain[i] != chain[j]
    requires forall i, j :: 0 <= i < j < |chain| && chain[i] in h && chain[j] in h ==>
               h[chain[i]].owner != h[chain[j]].owner
    ensures Members(h, Dropped(chain, k)) == Members(h, chain) - {h[chain[k]].owner}
    ensures h[chain[k]].owner in Members(h, chain)
  {
    DroppedPart(chain, k);
    forall a | a in Dropped(chain, k)
      ensures h[a].owner != h[chain[k]].owner
    {
      var i :| 0 <= i < |chain| && chain[i] == a;
    }
  }

  /** The next pointers after a successful unlink; only the predecessor's changes. */
  function Bypassed(h: Heap, prev: Addr, next: Addr): Heap {
    if prev != 0 && prev in h then h[prev := h[prev].(next := next)] else h
  }

  /** Whether the compare-and-swap of an unlink succeeds: no push has come in front of the first node. */
  predicate Swaps(s: State, prev: Addr, cur: Addr) {
    prev != 0 || s.head == cur
  }

  lemma UnlinkCases(s: State, prev: Addr, cur: Addr, next: Addr)
    requires Inv(s) && s.walker == Looked(prev, cur, next)
    ensures cur in s.heap && cur == s.chain[s.pos] && (prev == 0 || prev in s.heap)
    ensures Swaps(s, prev, cur) && prev == 0 ==> s.pos == 0
    ensures AfterUnlink(s, prev, cur, next) ==
            if Swaps(s, prev, cur) then
              s.(heap := Bypassed(s.heap, prev, next), head := if prev == 0 then next else s.head,
                 walker := Unlinked(prev, cur, next), chain := Dropped(s.chain, s.pos))
            else StepOver(s, cur)
  {
    assert NodeAt(s.heap, s.chain, s.pos);
    if prev != 0 {
      assert NodeAt(s.heap, s.chain, s.pos - 1);
    }
    hide MemberInv, PusherInv, PassInv;
  }

  lemma UnlinkChain(s: State, prev: Addr, cur: Addr, next: Addr)
    requires ChainInv(s.heap, s.head, s.chain) && WalkerInv(s) && s.walker == Looked(prev, cur, next)
    requires prev == 0 ==> s.pos == 0
    ensures ChainInv(Bypassed(s.heap, prev, next), if prev == 0 then next else s.head, Dropped(s.chain, s.pos))
  {
    InHeap(s.heap, s.head, s.chain);
    forall i | 0 <= i < |s.chain| && i != s.pos - 1
      ensures s.chain[i] in s.heap && (prev != 0 ==> s.chain[i] != prev)
    {
      assert s.chain[i] in s.chain;
    }
    DroppedChain(s.heap, Bypassed(s.heap, prev, next), s.head, if prev == 0 then next else s.head, s.chain, s.pos);
  }

  lemma BypassedOwners(h: Heap, prev: Addr, next: Addr, chain: seq<Addr>)
    ensures Members(Bypassed(h, prev, next), chain) == Members(h, chain)
    ensures forall a :: a in h <==> a in Bypassed(h, prev, next)
    ensures forall a :: a in h ==> Bypassed(h, prev, next)[a].owner == h[a].owner
                                   && Bypassed(h, prev, next)[a].exited == h[a].exited
  {
    SameMembers(h, Bypassed(h, prev, next), chain);
  }

  lemma UnlinkMembers(s: State, u: State, prev: Addr, cur: Addr, next: Addr)
    requires ChainInv(s.heap, s.head, s.chain) && MemberInv(s) && s.walker.Looked?
    requires s.pos < |s.chain| && cur == s.chain[s.pos]
    requires u.heap == Bypassed(s.heap, prev, next) && u.chain == Dropped(s.chain, s.pos)
    requires u.walker == Unlinked(prev, cur, next)
    requires u.pushed == s.pushed && u.gone == s.gone && u.freed == s.freed
    ensures MemberInv(u)
  {
    InHeap(s.heap, s.head, s.chain);
    DroppedMembers(s.heap, s.chain, s.pos);
    BypassedOwners(s.heap, prev, next, u.chain);
    assert cur in s.chain;
    hide Members, NodeAt, Bypassed;
    DroppedDistinct(s.heap, s.chain, s.pos);
  }

  lemma DroppedDistinct(h: Heap, chain: seq<Addr>, k: nat)
    requires k < |chain|
    requires forall i, j :: 0 <= i < j < |chain| && chain[i] in h && chain[j] in h ==>
               h[chain[i]].owner != h[chain[j]].owner
    ensures var d := Dropped(chain, k);
            forall i, j :: 0 <= i < j < |d| && d[i] in h && d[j] in h ==> h[d[i]].owner != h[d[j]].owner
  {
  }

  lemma UnlinkPass(s: State, u: State, prev: Addr, cur: Addr, next: Addr)
    requires ChainInv(s.heap, s.head, s.chain) && PassInv(s) && LookedIsSeen(s) && s.walker == Looked(prev, cur, next)
    requires s.pos < |s.chain| && cur == s.chain[s.pos] && cur in s.heap
    requires u.heap == Bypassed(s.heap, prev, next) && u.chain == Dropped(s.chain, s.pos) && u.pos == s.pos
    requires u.walker == Unlinked(prev, cur, next) && u.atStart == s.atStart && u.seen == s.seen
    ensures PassInv(u) && LookedIsSeen(u)
  {
    DroppedPart(s.chain, s.pos);
    SplitSuffix(s.heap, s.chain, s.pos);
    BypassedOwners(s.heap, prev, next, s.chain[s.pos + 1..]);
    hide Members, NodeAt, Bypassed;
  }

  lemma UnlinkWalker(s: State, u: State, prev: Addr, cur: Addr, next: Addr)
    requires ChainInv(s.heap, s.head, s.chain) && WalkerInv(s) && s.walker == Looked(prev, cur, next)
    requires cur in s.heap && s.heap[cur].exited
    requires u.heap == Bypassed(s.heap, prev, next) && u.chain == Dropped(s.chain, s.pos) && u.pos == s.pos
    requires u.walker == Unlinked(prev, cur, next)
    ensures WalkerInv(u)
  {
    DroppedPart(s.chain, s.pos);
    BypassedOwners(s.heap, prev, next, []);
    hide NodeAt, Members, Bypassed;
  }

  lemma UnlinkInv(s: State, prev: Addr, cur: Addr, next: Addr)
    requires Inv(s) && s.walker == Looked(prev, cur, next) && cur in s.heap && s.heap[cur].exited
    ensures (prev == 0 || prev in s.heap) && Inv(AfterUnlink(s, prev, cur, next))
  {
    UnlinkCases(s, prev, cur, next);
    if Swaps(s, prev, cur) {
      var u := AfterUnlink(s, prev, cur, next);
      UnlinkChain(s, prev, cur, next);
      UnlinkWalker(s, u, prev, cur, next);
      UnlinkMembers(s, u, prev, cur, next);
      UnlinkPass(s, u, prev, cur, next);
      UnlinkPushers(s, u, prev, cur, next);
    } else {
      StepOverInv(s, prev, cur, next);
    }
    hide ChainInv, WalkerInv, MemberInv, PassInv, PusherInv, LookedIsSeen, StepOver, AfterUnlink;
  }

  lemma UnlinkPushers(s: State, u: State, prev: Addr, cur: Addr, next: Addr)
    requires ChainInv(s.heap, s.head, s.chain) && WalkerInv(s) && s.walker == Looked(prev, cur, next) && PusherInv(s)
    requires u.heap == Bypassed(s.heap, prev, next) && u.chain == Dropped(s.chain, s.pos)
    requires u.walker == Unlinked(prev, cur, next) && u.pushers == s.pushers && u.pushed == s.pushed
    ensures PusherInv(u)
  {
    DroppedPart(s.chain, s.pos);
    assert cur in s.chain && (prev != 0 ==> prev in s.chain);
    hide NodeAt;
    SamePushers(s, u);
  }

  lemma FreeInv(s: State, prev: Addr, cur: Addr, next: Addr)
    requires Inv(s) && s.walker == Unlinked(prev, cur, next)
    ensures cur in s.heap && Inv(AfterFree(s, prev, cur, next))
  {
    var u := AfterFree(s, prev, cur, next);
    SameChain(s.heap, u.heap, s.head, s.chain);
    FreePushers(s, prev, cur, next);
    hide ChainInv, Members, PusherInv;
  }

  lemma FreePushers(s: State, prev: Addr, cur: Addr, next: Addr)
    requires PusherInv(s) && s.walker == Unlinked(prev, cur, next) && cur in s.heap
    ensures PusherInv(AfterFree(s, prev, cur, next))
  {
    var u := AfterFree(s, prev, cur, next);
    forall t | t in u.pushers
      ensures PusherOk(u, t)
    {
      assert PusherOk(s, t);
    }
  }

  lemma StepInv(s: State, step: Step)
    requires Inv(s) && Enabled(s, step)
    ensures Inv(Do(s, step))
  {
    match step
    case Allocate(t, n) => AllocateInv(s, t, n);
    case Link(t) => LinkInv(s, t, s.pushers[t].node);
    case Push(t) => PushInv(s, t, s.pushers[t].node);
    case Exit(n) => ExitInv(s, n);
    case BeginPass => BeginPassInv(s);
    case Turn => TurnInv(s, s.walker.prev, s.walker.cur);
    case Advance => StepOverInv(s, s.walker.prev, s.walker.cur, s.walker.next);
    case Unlink => UnlinkInv(s, s.walker.prev, s.walker.cur, s.walker.next);
    case Free => FreeInv(s, s.walker.prev, s.walker.cur, s.walker.next);
    hide Inv;
  }

  // --------------------------------------------------------------- whole runs

  lemma {:induction false} RunInv(s: State, steps: seq<Step>, t: State)
    requires Inv(s) && Run(s, steps, t)
    ensures Inv(t)
    decreases |steps|
  {
    hide Inv, Enabled, Do;
    if steps != [] {
      StepInv(s, steps[0]);
      RunInv(Do(s, steps[0]), steps[1..], t);
    }
  }

  lemma InitialInv(s: State)
    requires Initial(s)
    ensures Inv(s)
  {
  }

  /** The address n next-pointers behind p. */
  function Walk(heap: Heap, p: Addr, n: nat): Addr
    decreases n
  {
    if n == 0 then p else if p != 0 && p in heap then Walk(heap, heap[p].next, n - 1) else 0
  }

  lemma {:induction false} WalkChain(heap: Heap, head: Addr, chain: seq<Addr>, i: nat, n: nat)
    requires ChainInv(heap, head, chain) && i + n <= |chain|
    ensures Walk(heap, Target(chain, i), n) == Target(chain, i + n)
    decreases n
  {
    if n > 0 {
      assert NodeAt(heap, chain, i);
      WalkChain(heap, head, chain, i + 1, n - 1);
    }
  }

  /** The places from which thread t is reached, counted from the head. */
  predicate ReachedAt(s: State, t: nat, n: nat) {
    var a := Walk(s.heap, s.head, n);
    a in s.heap && a != 0 && s.heap[a].owner == t
  }

  /**
    * Over every interleaving of pushes, exits and unlinks: a thread that was
    * pushed and has not exited is reached from the head at one place and no
    * other, and the walk along the list ends.
    */
  lemma LiveThreadsAreReachedOnce(s: State, steps: seq<Step>, t: State, thread: nat) returns (n: nat)
    requires Initial(s) && Run(s, steps, t)
    requires thread in t.pushed && thread !in t.gone
    ensures ReachedAt(t, thread, n)
    ensures forall m: nat :: ReachedAt(t, thread, m) ==> m == n
    ensures Walk(t.heap, t.head, |t.chain|) == 0
  {
    InitialInv(s);
    RunInv(s, steps, t);
    n := MemberPlace(t, thread);
    hide MemberInv, WalkerInv, PusherInv, PassInv, NodeAt, Members;
    WalkFromHead(t, n);
    WalkFromHead(t, |t.chain|);
    forall m: nat | ReachedAt(t, thread, m)
      ensures m == n
    {
      if m >= |t.chain| {
        WalkPast(t, m);
      } else {
        WalkFromHead(t, m);
        OwnersDiffer(t, m, n);
      }
    }
  }

  lemma WalkFromHead(t: State, n: nat)
    requires ChainInv(t.heap, t.head, t.chain) && n <= |t.chain|
    ensures Walk(t.heap, t.head, n) == Target(t.chain, n)
  {
    WalkChain(t.heap, t.head, t.chain, 0, n);
  }

  lemma WalkOn(heap: Heap, p: Addr, n: nat, k: nat)
    ensures Walk(heap, p, n + k) == Walk(heap, Walk(heap, p, n), k)
    decreases n
  {
    if n > 0 && p != 0 && p in heap {
      WalkOn(heap, heap[p].next, n - 1, k);
    }
  }

  /** A walk past the end of the list stays at NULL. */
  lemma WalkPast(t: State, m: nat)
    requires ChainInv(t.heap, t.head, t.chain) && m >= |t.chain|
    ensures Walk(t.heap, t.head, m) == 0
  {
    WalkFromHead(t, |t.chain|);
    WalkOn(t.heap, t.head, |t.chain|, m - |t.chain|);
  }

  lemma OwnersDiffer(t: State, m: nat, n: nat)
    requires MemberInv(t) && m < |t.chain| && n < |t.chain| && t.chain[m] in t.heap && t.chain[n] in t.heap
    requires t.heap[t.chain[m]].owner == t.heap[t.chain[n]].owner
    ensures m == n
  {
  }

  lemma MemberPlace(t: State, thread: nat) returns (n: nat)
    requires Inv(t) && thread in t.pushed && thread !in t.gone
    ensures n < |t.chain| && t.chain[n] != 0 && t.chain[n] in t.heap && t.heap[t.chain[n]].owner == thread
  {
    InHeap(t.heap, t.head, t.chain);
    assert thread in Members(t.heap, t.chain);
    var a :| a in t.chain && a in t.heap && t.heap[a].owner == thread;
    n :| 0 <= n < |t.chain| && t.chain[n] == a;
  }

  /** A pass that comes to its end has given every thread that was in the list when it began a turn. */
  lemma PassReachesEveryone(s: State, steps: seq<Step>, t: State)
    requires Initial(s) && Run(s, steps, t) && t.walker.At? && t.walker.cur == 0
    ensures t.atStart <= t.seen
  {
    InitialInv(s);
    RunInv(s, steps, t);
    PassIsComplete(t);
  }

  // ------------------------------------------------- what is freed, and when

  /** The node is linked, or is being pushed, or is out of the list and about to be freed. */
  predicate InUse(s: State, a: Addr)
    requires a in s.heap
  {
    || a in s.chain
    || (s.heap[a].owner in s.pushers && s.pushers[s.heap[a].owner].node == a)
    || (s.walker.Unlinked? && a == s.walker.cur)
  }

  predicate AllInUse(s: State) {
    forall a :: a in s.heap ==> InUse(s, a)
  }

  lemma InUseStep(s: State, step: Step)
    requires Inv(s) && AllInUse(s) && Enabled(s, step)
    ensures AllInUse(Do(s, step))
  {
    if step.Unlink? {
      UnlinkInUse(s, s.walker.prev, s.walker.cur, s.walker.next);
    } else if step.Push? {
      PushInUse(s, step.thread);
    } else {
      hide ChainInv, WalkerInv, MemberInv, PassInv, LookedIsSeen, Members;
      forall a | a in Do(s, step).heap
        ensures InUse(Do(s, step), a)
      {
        assert a in s.heap ==> InUse(s, a);
      }
    }
  }

  lemma PushInUse(s: State, t: nat)
    requires Inv(s) && AllInUse(s) && Enabled(s, Push(t))
    ensures AllInUse(Do(s, Push(t)))
  {
    hide ChainInv, WalkerInv, MemberInv, PassInv, LookedIsSeen, Members;
    var u := Do(s, Push(t));
    assert PusherOk(s, t);
    forall a | a in u.heap
      ensures InUse(u, a)
    {
      assert InUse(s, a);
    }
  }

  lemma UnlinkInUse(s: State, prev: Addr, cur: Addr, next: Addr)
    requires Inv(s) && AllInUse(s) && s.walker == Looked(prev, cur, next)
    ensures cur in s.heap && (prev == 0 || prev in s.heap) && AllInUse(AfterUnlink(s, prev, cur, next))
  {
    UnlinkCases(s, prev, cur, next);
    BypassedOwners(s.heap, prev, next, []);
    if Swaps(s, prev, cur) {
      DroppedPart(s.chain, s.pos);
    }
    hide *;
    UnlinkedInUse(s, AfterUnlink(s, prev, cur, next), cur);
  }

  lemma UnlinkedInUse(s: State, u: State, cur: Addr)
    requires AllInUse(s) && !s.walker.Unlinked? && u.pushers == s.pushers
    requires forall a :: a in u.heap ==> a in s.heap && u.heap[a].owner == s.heap[a].owner
    requires forall a :: a in s.chain ==> a in u.chain || (u.walker.Unlinked? && a == u.walker.cur)
    ensures AllInUse(u)
  {
    forall a | a in u.heap
      ensures InUse(u, a)
    {
      assert InUse(s, a);
    }
  }

  lemma {:induction false} InUseRun(s: State, steps: seq<Step>, t: State)
    requires Inv(s) && AllInUse(s) && Run(s, steps, t)
    ensures Inv(t) && AllInUse(t)
    decreases |steps|
  {
    hide Inv, AllInUse, Enabled, Do;
    if steps != [] {
      StepInv(s, steps[0]);
      InUseStep(s, steps[0]);
      InUseRun(Do(s, steps[0]), steps[1..], t);
    }
  }

  /**
    * No memory leaks and none is given back too early: in every reachable state
    * the allocated nodes are those in the list, those being pushed and the one
    * taken out last. So no node of a freed thread is left.
    */
  lemma AllocatedIffInUse(s: State, steps: seq<Step>, t: State, a: Addr)
    requires Initial(s) && Run(s, steps, t)
    ensures a in t.heap <==>
            || a in t.chain
            || (exists thread :: thread in t.pushers && t.pushers[thread].node == a)
            || (t.walker.Unlinked? && a == t.walker.cur)
    ensures a in t.heap ==> t.heap[a].owner !in t.freed
  {
    InitialInv(s);
    InUseRun(s, steps, t);
    InHeap(t.heap, t.head, t.chain);
    forall thread | thread in t.pushers
      ensures PusherOk(t, thread)
    {
    }
    if a in t.heap {
      assert InUse(t, a);
      if a in t.chain {
        assert t.heap[a].owner in Members(t.heap, t.chain);
      }
    }
  }

  /** No node of a freed thread is left in memory, and nothing the sender holds or follows has been freed. */
  lemma NothingFreedIsTouched(s: State, steps: seq<Step>, t: State)
    requires Initial(s) && Run(s, steps, t)
    ensures forall a :: a in t.chain ==> a in t.heap
    ensures forall a :: a in t.heap ==> t.heap[a].owner !in t.freed
    ensures !t.walker.Outside? ==>
              (t.walker.cur == 0 || t.walker.cur in t.heap) && (t.walker.prev == 0 || t.walker.prev in t.heap)
    ensures t.walker.Looked? || t.walker.Unlinked? ==> t.walker.next == 0 || t.walker.next in t.heap
    ensures t.freed <= t.gone
    ensures t.walker.Unlinked? ==>
              t.walker.cur in t.heap && t.heap[t.walker.cur].exited && t.walker.cur !in t.chain
  {
    InitialInv(s);
    RunInv(s, steps, t);
    InHeap(t.heap, t.head, t.chain);
    forall a | a in t.heap
      ensures t.heap[a].owner !in t.freed
    {
      AllocatedIffInUse(s, steps, t, a);
    }
  }

  /** An address that was freed is used again by the next thread. */
  lemma AddressIsReused(s: State) returns (steps: seq<Step>, t: State)
    requires Initial(s)
    ensures Run(s, steps, t) && 0 in t.freed && t.heap == map[1 := Node(0, false, 1)]
  {
    var a := Do(Do(Do(s, Allocate(0, 1)), Link(0)), Push(0));
    var b := Do(Do(a, Exit(1)), BeginPass);
    var c := Do(Do(Do(b, Turn), Unlink), Free);
    t := Do(c, Allocate(1, 1));
    steps := [Allocate(0, 1), Link(0), Push(0)] + ([Exit(1), BeginPass] + ([Turn, Unlink, Free] + [Allocate(1, 1)]));
    RunOfThree(s, Allocate(0, 1), Link(0), Push(0));
    RunOfTwo(a, Exit(1), BeginPass);
    RunOfThree(b, Turn, Unlink, Free);
    RunOfOne(c, Allocate(1, 1));
    hide *;
    RunJoin(b, [Turn, Unlink, Free], c, [Allocate(1, 1)], t);
    RunJoin(a, [Exit(1), BeginPass], b, [Turn, Unlink, Free] + [Allocate(1, 1)], t);
    RunJoin(s, [Allocate(0, 1), Link(0), Push(0)], a,
            [Exit(1), BeginPass] + ([Turn, Unlink, Free] + [Allocate(1, 1)]), t);
  }

  lemma RunOfOne(s: State, x: Step)
    requires Enabled(s, x)
    ensures Run(s, [x], Do(s, x))
  {
    hide Enabled, Do;
    assert [x][1..] == [];
  }

  lemma RunOfTwo(s: State, x: Step, y: Step)
    requires Enabled(s, x) && Enabled(Do(s, x), y)
    ensures Run(s, [x, y], Do(Do(s, x), y))
  {
    hide Enabled, Do;
    RunOfOne(Do(s, x), y);
    assert [x, y][1..] == [y];
  }

  lemma RunOfThree(s: State, x: Step, y: Step, z: Step)
    requires Enabled(s, x) && Enabled(Do(s, x), y) && Enabled(Do(Do(s, x), y), z)
    ensures Run(s, [x, y, z], Do(Do(Do(s, x), y), z))
  {
    hide Enabled, Do;
    RunOfTwo(Do(s, x), y, z);
    assert [x, y, z][1..] == [y, z];
  }

  lemma {:induction false} RunJoin(s: State, x: seq<Step>, t: State, y: seq<Step>, u: State)
    requires Run(s, x, t) && Run(t, y, u)
    ensures Run(s, x + y, u)
    decreases |x|
  {
    hide Enabled, Do;
    if x == [] {
      assert x + y == y;
    } else {
      RunJoin(Do(s, x[0]), x[1..], t, y, u);
      assert (x + y)[0] == x[0] && (x + y)[1..] == x[1..] + y;
    }
  }

  /** Only pushed threads have exited, and the node of one that has says so. */
  predicate ExitInLine(s: State) {
    && s.gone <= s.pushed
    && (forall i :: 0 <= i < |s.chain| && s.chain[i] in s.heap && s.heap[s.chain[i]].owner in s.gone ==>
          s.heap[s.chain[i]].exited)
  }

  /** Place i of the list is taken by a thread of g. */
  predicate Holds(s: State, i: nat, g: set<nat>) {
    i < |s.chain| && s.chain[i] in s.heap && s.heap[s.chain[i]].owner in g
  }

  /**
    * A pass that began when the threads p had been pushed and those of g had
    * exited: behind the walker at most one of g is left, none as long as the walker
    * has not left the head pointer or nobody has been pushed since.
    */
  predicate Swept(s: State, p: set<nat>, g: set<nat>) {
    s.walker.Outside? ||
    (&& g <= s.gone && g <= p <= s.pushed
     && (s.pushed == p && s.walker.prev == 0 ==> s.pos == 0)
     && (s.pushed == p || s.walker.prev == 0 ==> forall i: nat :: i < s.pos ==> !Holds(s, i, g))
     && (forall i: nat, j: nat :: i < j < s.pos && Holds(s, i, g) ==> !Holds(s, j, g)))
  }

  /** The first k places of the list are as they were. */
  lemma SameFront(s: State, u: State, k: nat, g: set<nat>)
    requires k <= |s.chain| && k <= |u.chain| && s.chain[..k] == u.chain[..k]
    requires forall a :: a in s.chain[..k] ==> a in s.heap && a in u.heap && u.heap[a].owner == s.heap[a].owner
    ensures forall i: nat :: i < k ==> (Holds(u, i, g) <==> Holds(s, i, g))
  {
    forall i: nat | i < k
      ensures Holds(u, i, g) <==> Holds(s, i, g)
    {
      assert s.chain[..k][i] == s.chain[i] && u.chain[..k][i] == u.chain[i];
    }
  }

  /** A step that leaves the walker's place and everything before it alone. */
  lemma SweptStays(s: State, u: State, p: set<nat>, g: set<nat>)
    requires Swept(s, p, g) && !s.walker.Outside? && u.pos == s.pos && s.pos <= |s.chain| && s.pos <= |u.chain|
    requires u.walker.Outside? || u.walker.prev == s.walker.prev
    requires s.gone <= u.gone && u.pushed == s.pushed && s.chain[..s.pos] == u.chain[..s.pos]
    requires forall a :: a in s.chain[..s.pos] ==> a in s.heap && a in u.heap && u.heap[a].owner == s.heap[a].owner
    ensures Swept(u, p, g)
  {
    SameFront(s, u, s.pos, g);
    hide Holds;
  }

  lemma FrontInChain(s: State)
    requires ChainInv(s.heap, s.head, s.chain) && s.pos <= |s.chain|
    ensures forall a :: a in s.chain[..s.pos] ==> a in s.chain && a in s.heap
  {
    InHeap(s.heap, s.head, s.chain);
  }

  lemma SweptPush(s: State, t: nat, p: set<nat>, g: set<nat>)
    requires Inv(s) && ExitInLine(s) && Swept(s, p, g) && Enabled(s, Push(t))
    ensures Swept(Do(s, Push(t)), p, g)
  {
    var u, n := Do(s, Push(t)), s.pushers[t].node;
    assert PusherOk(s, t);
    if !s.walker.Outside? {
      if s.head == s.heap[n].next {
        assert !Holds(u, 0, g);
        forall i: nat
          ensures Holds(u, i + 1, g) <==> Holds(s, i, g)
        {
        }
        hide Holds, Inv;
        assert forall i: nat :: 0 < i && Holds(u, i, g) ==> Holds(s, i - 1, g) by {
          forall i: nat | 0 < i && Holds(u, i, g)
            ensures Holds(s, i - 1, g)
          {
            assert Holds(u, i - 1 + 1, g);
          }
        }
      } else {
        hide Inv, Swept;
        SweptSame(s, u, p, g);
      }
    }
  }

  lemma SweptSame(s: State, u: State, p: set<nat>, g: set<nat>)
    requires Swept(s, p, g)
    requires u == s.(pushers := u.pushers)
    ensures Swept(u, p, g)
  {
    assert forall i: nat :: Holds(u, i, g) <==> Holds(s, i, g);
    hide Holds;
  }

  lemma SweptStepOver(s: State, cur: Addr, p: set<nat>, g: set<nat>)
    requires Swept(s, p, g) && s.walker.Looked? && cur in s.heap && cur != 0
    requires s.pos < |s.chain|
    requires if Holds(s, s.pos, g) then s.walker.prev == 0 && s.pushed != p else true
    ensures Swept(StepOver(s, cur), p, g)
  {
    var u := StepOver(s, cur);
    assert forall i: nat :: Holds(u, i, g) <==> Holds(s, i, g);
    hide Holds;
  }

  lemma SweptAdvance(s: State, p: set<nat>, g: set<nat>)
    requires Inv(s) && ExitInLine(s) && Swept(s, p, g) && Enabled(s, Advance)
    ensures Swept(Do(s, Advance), p, g)
  {
    NotNull(s.heap, s.head, s.chain, s.pos);
    assert !Holds(s, s.pos, g);
    hide Holds, ChainInv, PusherInv, MemberInv, PassInv, LookedIsSeen;
    SweptStepOver(s, s.walker.cur, p, g);
  }

  lemma SweptUnlink(s: State, p: set<nat>, g: set<nat>)
    requires Inv(s) && Swept(s, p, g) && Enabled(s, Unlink)
    ensures Swept(Do(s, Unlink), p, g)
  {
    var prev, cur, next := s.walker.prev, s.walker.cur, s.walker.next;
    UnlinkCases(s, prev, cur, next);
    NotNull(s.heap, s.head, s.chain, s.pos);
    if Swaps(s, prev, cur) {
      FrontInChain(s);
      BypassedOwners(s.heap, prev, next, []);
      hide Swept, PusherInv, MemberInv, PassInv, LookedIsSeen, ChainInv, AfterUnlink, Bypassed, Swaps;
      assert Dropped(s.chain, s.pos)[..s.pos] == s.chain[..s.pos];
      SweptStays(s, Do(s, Unlink), p, g);
    } else {
      assert s.pushed == p ==> s.pos == 0;
      hide Holds, Swept, PusherInv, MemberInv, PassInv, LookedIsSeen, AfterUnlink, StepOver;
      SweptStepOver(s, cur, p, g);
    }
  }

  lemma SweptFree(s: State, p: set<nat>, g: set<nat>)
    requires Inv(s) && Swept(s, p, g) && Enabled(s, Free)
    ensures Swept(Do(s, Free), p, g)
  {
    FrontInChain(s);
    hide Swept, PusherInv, MemberInv, PassInv, LookedIsSeen, ChainInv;
    SweptStays(s, Do(s, Free), p, g);
  }

  lemma SweptStep(s: State, step: Step, p: set<nat>, g: set<nat>)
    requires Inv(s) && ExitInLine(s) && Swept(s, p, g) && Enabled(s, step) && step != BeginPass
    ensures Swept(Do(s, step), p, g)
  {
    match step
    case Push(t) => SweptPush(s, t, p, g);
    case Advance => SweptAdvance(s, p, g);
    case Unlink => SweptUnlink(s, p, g);
    case Free => SweptFree(s, p, g);
    case BeginPass =>
    case Turn => SweptElsewhere(s, Turn, p, g);
    case Allocate(_, _) => SweptElsewhere(s, step, p, g);
    case Link(_) => SweptElsewhere(s, step, p, g);
    case Exit(_) => SweptElsewhere(s, step, p, g);
  }

  lemma SweptElsewhere(s: State, step: Step, p: set<nat>, g: set<nat>)
    requires Inv(s) && Swept(s, p, g) && Enabled(s, step)
    requires step.Allocate? || step.Link? || step.Exit? || step.Turn?
    ensures Swept(Do(s, step), p, g)
  {
    if !s.walker.Outside? {
      FrontInChain(s);
      hide Swept, PusherInv, MemberInv, PassInv, LookedIsSeen, ChainInv;
      SweptStays(s, Do(s, step), p, g);
    }
  }

  lemma ExitInLineStep(s: State, step: Step)
    requires Inv(s) && ExitInLine(s) && Enabled(s, step)
    ensures ExitInLine(Do(s, step))
  {
    if step.Push? {
      ExitInLinePush(s, step.thread);
    } else if step.Unlink? {
      ExitInLineUnlink(s, s.walker.prev, s.walker.cur, s.walker.next);
    } else {
      if step.Exit? {
        assert s.heap[step.node].owner in Members(s.heap, s.chain);
      }
      hide ChainInv, WalkerInv, PassInv, LookedIsSeen, Members;
    }
  }

  lemma ExitInLinePush(s: State, t: nat)
    requires Inv(s) && ExitInLine(s) && Enabled(s, Push(t))
    ensures ExitInLine(Do(s, Push(t)))
  {
    hide ChainInv, WalkerInv, MemberInv, PassInv, LookedIsSeen, Members;
    assert PusherOk(s, t);
  }

  lemma ExitInLineUnlink(s: State, prev: Addr, cur: Addr, next: Addr)
    requires Inv(s) && ExitInLine(s) && s.walker == Looked(prev, cur, next)
    ensures cur in s.heap && (prev == 0 || prev in s.heap) && ExitInLine(AfterUnlink(s, prev, cur, next))
  {
    UnlinkCases(s, prev, cur, next);
    BypassedOwners(s.heap, prev, next, []);
    if Swaps(s, prev, cur) {
      DroppedPart(s.chain, s.pos);
    }
    hide *;
    StillInLine(s, AfterUnlink(s, prev, cur, next));
  }

  lemma StillInLine(s: State, u: State)
    requires ExitInLine(s) && u.gone == s.gone && u.pushed == s.pushed
    requires forall a :: a in u.chain ==> a in s.chain
    requires forall a :: a in u.heap ==>
               a in s.heap && u.heap[a].owner == s.heap[a].owner && u.heap[a].exited == s.heap[a].exited
    ensures ExitInLine(u)
  {
    forall i | 0 <= i < |u.chain| && u.chain[i] in u.heap && u.heap[u.chain[i]].owner in u.gone
      ensures u.heap[u.chain[i]].exited
    {
      assert u.chain[i] in u.chain;
      var j :| 0 <= j < |s.chain| && s.chain[j] == u.chain[i];
    }
  }

  lemma {:induction false} ExitInLineRun(s: State, steps: seq<Step>, t: State)
    requires Inv(s) && ExitInLine(s) && Run(s, steps, t)
    ensures Inv(t) && ExitInLine(t)
    decreases |steps|
  {
    hide Inv, ExitInLine, Enabled, Do;
    if steps != [] {
      StepInv(s, steps[0]);
      ExitInLineStep(s, steps[0]);
      ExitInLineRun(Do(s, steps[0]), steps[1..], t);
    }
  }

  lemma {:induction false} SweptRun(s: State, steps: seq<Step>, t: State, p: set<nat>, g: set<nat>)
    requires Inv(s) && ExitInLine(s) && Swept(s, p, g) && Run(s, steps, t) && BeginPass !in steps
    ensures Inv(t) && Swept(t, p, g)
    decreases |steps|
  {
    hide Inv, ExitInLine, Enabled, Do, Swept;
    if steps != [] {
      StepInv(s, steps[0]);
      ExitInLineStep(s, steps[0]);
      SweptStep(s, steps[0], p, g);
      SweptRun(Do(s, steps[0]), steps[1..], t, p, g);
    }
  }

  /** At the end of a pass a thread that has exited and is not freed is at some place of the list. */
  lemma LeftOver(s: State, thread: nat, g: set<nat>) returns (i: nat)
    requires Inv(s) && s.walker.At? && s.walker.cur == 0 && thread in g && g <= s.pushed && thread !in s.freed
    ensures i < s.pos && Holds(s, i, g) && s.heap[s.chain[i]].owner == thread
  {
    if s.pos < |s.chain| {
      NotNull(s.heap, s.head, s.chain, s.pos);
    }
    hide ChainInv, PusherInv, PassInv, LookedIsSeen;
    assert thread in Members(s.heap, s.chain);
    var a :| a in s.chain && a in s.heap && s.heap[a].owner == thread;
    i :| 0 <= i < |s.chain| && s.chain[i] == a;
  }

  lemma EndOfPass(s: State, p: set<nat>, g: set<nat>)
    requires Inv(s) && Swept(s, p, g) && s.walker.At? && s.walker.cur == 0
    ensures s.pushed == p ==> g <= s.freed
    ensures forall x, y :: x in g && y in g && x != y ==> x in s.freed || y in s.freed
  {
    forall x | x in g && x !in s.freed
      ensures s.pushed != p
      ensures forall y :: y in g && y != x ==> y in s.freed
    {
      var i := LeftOver(s, x, g);
      forall y | y in g && y != x
        ensures y in s.freed
      {
        if y !in s.freed {
          var j := LeftOver(s, y, g);
        }
      }
    }
  }

  /**
    * A pass frees every thread that had exited when it began, except for at most
    * one, whose node was the first when another was pushed in front of it; if nobody
    * is pushed during the pass it frees them all.
    */
  lemma PassFreesExited(o: State, before: seq<Step>, s: State, steps: seq<Step>, t: State)
    requires Initial(o) && Run(o, before, s) && s.walker == Outside
    requires Run(Do(s, BeginPass), steps, t) && BeginPass !in steps && t.walker.At? && t.walker.cur == 0
    ensures t.pushed == s.pushed ==> s.gone <= t.freed
    ensures forall x, y :: x in s.gone && y in s.gone && x != y ==> x in t.freed || y in t.freed
  {
    InitialInv(o);
    ExitInLineRun(o, before, s);
    StepInv(s, BeginPass);
    ExitInLineStep(s, BeginPass);
    SweptRun(Do(s, BeginPass), steps, t, s.pushed, s.gone);
    hide Inv, Run, Swept;
    EndOfPass(t, s.pushed, s.gone);
  }

  // ------------------------------------------------------ how a push succeeds

  /** Thread t has linked its node n to h and is about to push it. */
  predicate Poised(s: State, t: nat, n: Addr, h: Addr) {
    t in s.pushers && s.pushers[t] == Pusher(n, true) && n in s.heap && s.heap[n].next == h
  }

  lemma PoisedStep(s: State, step: Step, t: nat, n: Addr, h: Addr)
    requires Inv(s) && Poised(s, t, n, h) && Enabled(s, step) && step != Link(t) && step != Push(t)
    ensures Poised(Do(s, step), t, n, h)
  {
    assert PusherOk(s, t);
    if step.Unlink? {
      PoisedUnlink(s, s.walker.prev, s.walker.cur, s.walker.next, n);
    } else if step.Link? {
      assert PusherOk(s, step.thread);
    }
    hide ChainInv, WalkerInv, MemberInv, PassInv, LookedIsSeen, Members, AfterUnlink;
  }

  lemma PoisedUnlink(s: State, prev: Addr, cur: Addr, next: Addr, n: Addr)
    requires Inv(s) && s.walker == Looked(prev, cur, next) && n in s.heap && n !in s.chain
    ensures cur in s.heap && (prev == 0 || prev in s.heap)
    ensures var u := AfterUnlink(s, prev, cur, next); u.pushers == s.pushers && n in u.heap && u.heap[n] == s.heap[n]
  {
    UnlinkCases(s, prev, cur, next);
    assert prev != 0 ==> prev == s.chain[s.pos - 1];
    hide ChainInv, PusherInv, MemberInv, PassInv, LookedIsSeen, AfterUnlink;
  }

  lemma {:induction false} PoisedRun(s: State, steps: seq<Step>, u: State, t: nat, n: Addr, h: Addr)
    requires Inv(s) && Poised(s, t, n, h) && Run(s, steps, u) && Link(t) !in steps && Push(t) !in steps
    ensures Inv(u) && Poised(u, t, n, h)
    decreases |steps|
  {
    hide Inv, Poised, Enabled, Do;
    if steps != [] {
      StepInv(s, steps[0]);
      PoisedStep(s, steps[0], t, n, h);
      PoisedRun(Do(s, steps[0]), steps[1..], u, t, n, h);
    }
  }

  /**
    * A push fails only if the head has been moved since its thread linked its
    * node, whatever else has happened; else the node is the first of the list.
    */
  lemma PushesUnlessHeadMoved(o: State, before: seq<Step>, s: State, t: nat, steps: seq<Step>, u: State)
    requires Initial(o) && Run(o, before, s) && Enabled(s, Link(t))
    requires Run(Do(s, Link(t)), steps, u) && Link(t) !in steps && Push(t) !in steps && u.head == s.head
    ensures Enabled(u, Push(t)) && t in Do(u, Push(t)).pushed
    ensures Do(u, Push(t)).head == s.pushers[t].node && Do(u, Push(t)).chain == [s.pushers[t].node] + u.chain
  {
    InitialInv(o);
    RunInv(o, before, s);
    StepInv(s, Link(t));
    hide Inv, Run;
    PoisedRun(Do(s, Link(t)), steps, u, t, s.pushers[t].node, s.head);
  }

  /** The steps are those of the pushing thread t. */
  predicate OwnSteps(steps: seq<Step>, t: nat) {
    forall i :: 0 <= i < |steps| ==> steps[i] == Link(t) || steps[i] == Push(t)
  }

  /** A pushing thread always has a step, and undisturbed it is in the list after three of them at the latest. */
  lemma UndisturbedPushEnds(o: State, before: seq<Step>, s: State, t: nat, steps: seq<Step>, u: State)
    requires Initial(o) && Run(o, before, s) && t in s.pushers
    requires OwnSteps(steps, t) && Run(s, steps, u)
    ensures Enabled(s, Link(t)) || Enabled(s, Push(t))
    ensures |steps| >= 3 ==> t in u.pushed
  {
    InitialInv(o);
    RunInv(o, before, s);
    assert PusherOk(s, t);
    if |steps| >= 3 {
      hide Inv, Members;
      if s.pushers[t].linked && s.head != s.heap[s.pushers[t].node].next {
        TwoSteps(Do(s, steps[0]), t, steps[1..], u);
      } else {
        TwoSteps(s, t, steps, u);
      }
    }
  }

  /** From a link, or a push that succeeds, on. */
  lemma TwoSteps(s: State, t: nat, steps: seq<Step>, u: State)
    requires t in s.pushers && s.pushers[t].node in s.heap
    requires s.pushers[t].linked ==> s.head == s.heap[s.pushers[t].node].next
    requires OwnSteps(steps, t) && Run(s, steps, u) && |steps| >= 2
    ensures t in u.pushed
  {
    if s.pushers[t].linked {
      LastStep(s, t, steps, u);
    } else {
      assert steps[0] == Link(t);
      LastStep(Do(s, Link(t)), t, steps[1..], u);
    }
  }

  lemma LastStep(s: State, t: nat, steps: seq<Step>, u: State)
    requires t in s.pushers && s.pushers[t].linked && s.pushers[t].node in s.heap
    requires s.head == s.heap[s.pushers[t].node].next
    requires OwnSteps(steps, t) && Run(s, steps, u) && |steps| >= 1
    ensures t in u.pushed
  {
    assert steps[0] == Push(t);
    assert t !in Do(s, Push(t)).pushers;
  }
}
