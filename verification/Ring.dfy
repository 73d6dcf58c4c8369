// The per-thread ring as a value: 65536 slots addressed modulo their number.
// `Put` says what a writer leaves in the ring, `Slice` what a reader finds
// there; the theorems relate the two to an unbounded byte queue.

module Ring {
  import opened Bytes

  const SIZE: nat := 0x1_0000

  type slots = a: seq<byte> | |a| == SIZE witness seq(SIZE, _ => 0)

  /** gator_buf_pos: `& THREAD_BUFFER_MASK` keeps the low 16 bits. */
  function Pos(x: nat): (p: nat)
    ensures p < SIZE
    ensures x < SIZE ==> p == x
    ensures SIZE <= x < 2 * SIZE ==> p == x - SIZE
  {
    x % SIZE
  }

  /** How far slot j lies ahead of slot p. */
  function Ahead(p: nat, j: nat): (d: nat)
    requires p < SIZE && j < SIZE
    ensures d < SIZE && Pos(p + d) == j
  {
    if j >= p then j - p else j + SIZE - p
  }

  /** gator_buf_used: the 32-bit difference, masked. */
  function Used(r: nat, w: nat): (n: nat)
    requires r < SIZE && w < SIZE
    ensures n == Ahead(r, w)
  {
    ((w - r) % 0x1_0000_0000) % SIZE
  }

  /** gator_buf_free: one slot always stays unused. */
  function Free(r: nat, w: nat): (n: nat)
    requires r < SIZE && w < SIZE
    ensures n + Used(r, w) == SIZE - 1
  {
    ((r - w - 1) % 0x1_0000_0000) % SIZE
  }

  /** The ring after bs was written from slot p on. */
  function Put(a: slots, p: nat, bs: seq<byte>): slots
    requires p < SIZE && |bs| <= SIZE
  {
    seq(SIZE, j requires 0 <= j < SIZE => if Ahead(p, j) < |bs| then bs[Ahead(p, j)] else a[j])
  }

  /** The n bytes from slot p on. */
  function Slice(a: slots, p: nat, n: nat): (bs: seq<byte>)
    requires p < SIZE && n <= SIZE
    ensures |bs| == n
  {
    seq(n, i requires 0 <= i < n => a[Pos(p + i)])
  }

  function Unread(a: slots, r: nat, w: nat): seq<byte>
    requires r < SIZE && w < SIZE
  {
    Slice(a, r, Used(r, w))
  }

  lemma PutNothing(a: slots, p: nat)
    requires p < SIZE
    ensures Put(a, p, []) == a
  {
  }

  /** One more byte is one more slot. */
  lemma PutByte(a: slots, p: nat, bs: seq<byte>, b: byte)
    requires p < SIZE && |bs| < SIZE
    ensures Put(a, p, bs + [b]) == Put(a, p, bs)[Pos(p + |bs|) := b]
  {
  }

  /** Two writes in a row are one write. */
  lemma PutPut(a: slots, p: nat, x: seq<byte>, y: seq<byte>)
    requires p < SIZE && |x| + |y| <= SIZE
    ensures Put(Put(a, p, x), Pos(p + |x|), y) == Put(a, p, x + y)
  {
    var l, r := Put(Put(a, p, x), Pos(p + |x|), y), Put(a, p, x + y);
    forall j | 0 <= j < SIZE
      ensures l[j] == r[j]
    {
      if |x| < SIZE {
        assert Ahead(p, j) >= |x| ==> Ahead(Pos(p + |x|), j) == Ahead(p, j) - |x|;
        assert Ahead(p, j) < |x| ==> Ahead(Pos(p + |x|), j) == Ahead(p, j) + SIZE - |x|;
      }
    }
  }

  /** Bytes patched in afterwards, inside what was written before. */
  lemma PutPatch(a: slots, p: nat, x: seq<byte>, o: nat, y: seq<byte>)
    requires p < SIZE && |x| <= SIZE && o + |y| <= |x|
    ensures Put(Put(a, p, x), Pos(p + o), y) == Put(a, p, x[..o] + y + x[o + |y|..])
  {
    var l, r := Put(Put(a, p, x), Pos(p + o), y), Put(a, p, x[..o] + y + x[o + |y|..]);
    if |y| > 0 {
      forall j | 0 <= j < SIZE
        ensures l[j] == r[j]
      {
        assert Ahead(p, j) >= o ==> Ahead(Pos(p + o), j) == Ahead(p, j) - o;
        assert Ahead(p, j) < o ==> Ahead(Pos(p + o), j) == Ahead(p, j) + SIZE - o;
      }
    }
  }

  /** A write is one copy, or two when it runs over the end of the ring. */
  lemma PutIsCopy(a: slots, p: nat, bs: seq<byte>)
    requires p < SIZE && |bs| <= SIZE
    ensures p + |bs| <= SIZE ==> Put(a, p, bs) == a[..p] + bs + a[p + |bs|..]
    ensures p + |bs| > SIZE ==>
              var first := SIZE - p; Put(a, p, bs) == bs[first..] + a[|bs| - first..p] + bs[..first]
  {
  }

  lemma SliceSplit(a: slots, p: nat, n: nat, m: nat)
    requires p < SIZE && n + m <= SIZE
    ensures Slice(a, p, n + m) == Slice(a, p, n) + Slice(a, Pos(p + n), m)
  {
    var whole, parts := Slice(a, p, n + m), Slice(a, p, n) + Slice(a, Pos(p + n), m);
    forall i | 0 <= i < n + m
      ensures whole[i] == parts[i]
    {
      if i >= n {
        assert Pos(Pos(p + n) + (i - n)) == Pos(p + i);
      }
    }
  }

  lemma SliceOfPut(a: slots, p: nat, bs: seq<byte>)
    requires p < SIZE && |bs| <= SIZE
    ensures Slice(Put(a, p, bs), p, |bs|) == bs
  {
    var read := Slice(Put(a, p, bs), p, |bs|);
    forall i | 0 <= i < |bs|
      ensures read[i] == bs[i]
    {
      assert Ahead(p, Pos(p + i)) == i;
    }
  }

  /** A write that starts where a slice ends leaves the slice alone while both fit. */
  lemma SliceBeforePut(a: slots, p: nat, n: nat, bs: seq<byte>)
    requires p < SIZE && n + |bs| <= SIZE
    ensures Slice(Put(a, Pos(p + n), bs), p, n) == Slice(a, p, n)
  {
    var after, before := Slice(Put(a, Pos(p + n), bs), p, n), Slice(a, p, n);
    forall i | 0 <= i < n
      ensures after[i] == before[i]
    {
      assert Ahead(Pos(p + n), Pos(p + i)) >= |bs|;
    }
  }

  /**
    * Committing bs refines an append to the byte queue exactly when bs fits the
    * free space: one byte more and the queue is torn.
    */
  lemma CommitIsAppendIff(a: slots, r: nat, w: nat, bs: seq<byte>)
    requires r < SIZE && w < SIZE && |bs| <= SIZE
    ensures Unread(Put(a, w, bs), r, Pos(w + |bs|)) == Unread(a, r, w) + bs <==> |bs| <= Free(r, w)
  {
    var n := Used(r, w);
    if |bs| <= Free(r, w) {
      SliceBeforePut(a, r, n, bs);
      SliceOfPut(a, w, bs);
      SliceSplit(Put(a, w, bs), r, n, |bs|);
      assert Used(r, Pos(w + |bs|)) == n + |bs|;
    } else {
      assert |Unread(a, r, w) + bs| >= SIZE;
    }
  }

  /** Moving read_pos over k published bytes takes exactly those off the front of the queue. */
  lemma ConsumeIsDrop(a: slots, r: nat, w: nat, k: nat)
    requires r < SIZE && w < SIZE && k <= Used(r, w)
    ensures Slice(a, r, k) + Unread(a, Pos(r + k), w) == Unread(a, r, w)
    ensures Used(Pos(r + k), w) == Used(r, w) - k
  {
    SliceSplit(a, r, k, Used(r, w) - k);
    assert Used(Pos(r + k), w) == Used(r, w) - k;
  }

  /** A commit of something that fits leaves the ring non-empty. */
  lemma CommitMovesOn(r: nat, w: nat, n: nat)
    requires r < SIZE && w < SIZE && 0 < n <= Free(r, w)
    ensures Pos(w + n) != r
  {
  }
}
