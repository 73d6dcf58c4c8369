// NodeMap: for every node of a graph the nodes it is mapped to, in the order in
// which the mappings were made. A pair is a node number and a graph number.

module NodeMaps {

  type Pair = (int, int)

  type Relation = map<Pair, seq<Pair>>

  /** The pairs a key is mapped to, earliest first. */
  function Images(mm: Relation, key: Pair): seq<Pair> {
    if key in mm then mm[key] else []
  }

  /** The elements of xs in the order of their first occurrence. */
  function FirstOccurrences(xs: seq<Pair>): (ys: seq<Pair>)
    ensures forall x :: x in ys <==> x in xs
  {
    if xs == [] then []
    else
      var init, last := FirstOccurrences(xs[..|xs| - 1]), xs[|xs| - 1];
      assert xs == xs[..|xs| - 1] + [last];
      if last in init then init else init + [last]
  }

  predicate Distinct(xs: seq<Pair>) {
    forall i, j :: 0 <= i < j < |xs| ==> xs[i] != xs[j]
  }

  /** Where the first element with the given graph number is; |xs| when there is none. */
  function FirstIn(xs: seq<Pair>, graph: int): (i: nat)
    ensures i <= |xs|
    ensures i < |xs| ==> xs[i].1 == graph
    ensures forall j :: 0 <= j < i ==> xs[j].1 != graph
  {
    if xs == [] || xs[0].1 == graph then 0 else 1 + FirstIn(xs[1..], graph)
  }

  /** An insertion adds the value behind the others unless it is there already. */
  function Inserted(mm: Relation, key: Pair, value: Pair): Relation {
    if value in Images(mm, key) then mm else mm[key := Images(mm, key) + [value]]
  }

  const ABSENT: Pair := (-1, -1)
  const UNMAPPED: Pair := (-2, -2)

  /** The earliest image in the target graph, else the earliest in the key's own graph. */
  function Found(mm: Relation, key: Pair, targetGraph: int): Pair {
    var vs := Images(mm, key);
    if key !in mm then ABSENT
    else if FirstIn(vs, targetGraph) < |vs| then vs[FirstIn(vs, targetGraph)]
    else if FirstIn(vs, key.1) < |vs| then vs[FirstIn(vs, key.1)]
    else UNMAPPED
  }

  class NodeMap {
    var mm: Relation

    constructor ()
      ensures mm == map[]
    {
      mm := map[];
    }

    method Insert(key: Pair, value: Pair)
      modifies this
      ensures mm == Inserted(old(mm), key, value)
    {
      if key in mm {
        var vv := mm[key];
        var exist := false;
        for i := 0 to |vv|
          invariant exist <==> value in vv[..i]
        {
          if vv[i] == value {
            exist := true;
          }
        }
        assert vv[..|vv|] == vv;
        if !exist {
          mm := mm[key := mm[key] + [value]];
        }
      } else {
        mm := mm[key := [value]];
        assert Images(old(mm), key) + [value] == [value];
      }
    }

    method Find(key: Pair, targetGraph: int) returns (r: Pair)
      ensures r == Found(mm, key, targetGraph)
    {
      r := UNMAPPED;
      if key !in mm {
        r := ABSENT;
      } else {
        var maps := mm[key];
        var exist := false;
        for i := 0 to |maps|
          invariant !exist && r == UNMAPPED
          invariant forall j :: 0 <= j < i ==> maps[j].1 != targetGraph
        {
          if maps[i].1 == targetGraph {
            exist := true;
            r := maps[i];
            break;
          }
        }
        if !exist {
          for i := 0 to |maps|
            invariant r == UNMAPPED
            invariant forall j :: 0 <= j < i ==> maps[j].1 != key.1
          {
            if maps[i].1 == key.1 {
              r := maps[i];
              break;
            }
          }
        }
      }
    }
  }

  // --------------------------------------------------- runs of insertions

  datatype Insertion = Insertion(key: Pair, value: Pair)

  function AfterAll(ops: seq<Insertion>): Relation {
    if ops == [] then map[]
    else var op := ops[|ops| - 1]; Inserted(AfterAll(ops[..|ops| - 1]), op.key, op.value)
  }

  /** The values inserted for a key, in order, with repetitions. */
  function ValuesFor(ops: seq<Insertion>, key: Pair): seq<Pair> {
    if ops == [] then []
    else
      var op := ops[|ops| - 1];
      ValuesFor(ops[..|ops| - 1], key) + if op.key == key then [op.value] else []
  }

  /** The map refines a relation: each key holds the values inserted for it, each once, earliest first. */
  lemma {:induction false} HoldsFirstOccurrences(ops: seq<Insertion>, key: Pair)
    ensures Images(AfterAll(ops), key) == FirstOccurrences(ValuesFor(ops, key))
    ensures key in AfterAll(ops) <==> ValuesFor(ops, key) != []
    ensures key in AfterAll(ops) ==> AfterAll(ops)[key] != []
  {
    if ops != [] {
      var init, op := ops[..|ops| - 1], ops[|ops| - 1];
      HoldsFirstOccurrences(init, key);
      if op.key == key {
        var vs := ValuesFor(init, key);
        assert (vs + [op.value])[..|vs|] == vs;
      } else {
        assert ValuesFor(init, key) + [] == ValuesFor(init, key);
      }
    }
  }

  lemma {:induction false} FirstOccurrencesAreDistinct(xs: seq<Pair>)
    ensures Distinct(FirstOccurrences(xs))
  {
    if xs != [] {
      FirstOccurrencesAreDistinct(xs[..|xs| - 1]);
    }
  }

  /** The index of the first occurrence. */
  function IndexOf(xs: seq<Pair>, x: Pair): (i: nat)
    requires x in xs
    ensures i < |xs| && xs[i] == x && x !in xs[..i]
  {
    if xs[0] == x then 0
    else
      var i := 1 + IndexOf(xs[1..], x);
      assert xs[..i] == [xs[0]] + xs[1..][..i - 1];
      i
  }

  lemma {:induction false} IndexInPrefix(xs: seq<Pair>, n: nat, x: Pair)
    requires n <= |xs| && x in xs[..n]
    ensures IndexOf(xs, x) == IndexOf(xs[..n], x)
    decreases |xs|
  {
    if xs[0] != x {
      assert xs[..n][1..] == xs[1..][..n - 1];
      IndexInPrefix(xs[1..], n - 1, x);
    }
  }

  /** The images of a key lie in the order of their first insertion. */
  lemma {:induction false} InInsertionOrder(xs: seq<Pair>, i: nat, j: nat)
    requires i < j < |FirstOccurrences(xs)|
    ensures FirstOccurrences(xs)[i] in xs && FirstOccurrences(xs)[j] in xs
    ensures IndexOf(xs, FirstOccurrences(xs)[i]) < IndexOf(xs, FirstOccurrences(xs)[j])
  {
    var ys, n := FirstOccurrences(xs), |xs| - 1;
    var init := FirstOccurrences(xs[..n]);
    assert init[i] in xs[..n];
    IndexInPrefix(xs, n, init[i]);
    if j < |init| {
      InInsertionOrder(xs[..n], i, j);
      assert init[j] in xs[..n];
      IndexInPrefix(xs, n, init[j]);
    }
  }

  lemma {:induction false} FirstInSnoc(xs: seq<Pair>, x: Pair, graph: int)
    ensures FirstIn(xs + [x], graph) ==
            if FirstIn(xs, graph) < |xs| || x.1 == graph then FirstIn(xs, graph) else |xs| + 1
  {
    if xs != [] && xs[0].1 != graph {
      FirstInSnoc(xs[1..], x, graph);
      assert (xs + [x])[1..] == xs[1..] + [x];
    }
  }

  /** Leaving out repetitions does not change which pair of a graph comes first. */
  lemma {:induction false} SameFirst(xs: seq<Pair>, graph: int)
    ensures FirstIn(FirstOccurrences(xs), graph) < |FirstOccurrences(xs)| <==> FirstIn(xs, graph) < |xs|
    ensures FirstIn(xs, graph) < |xs| ==>
              FirstOccurrences(xs)[FirstIn(FirstOccurrences(xs), graph)] == xs[FirstIn(xs, graph)]
  {
    if xs != [] {
      var init, last := xs[..|xs| - 1], xs[|xs| - 1];
      SameFirst(init, graph);
      FirstInSnoc(init, last, graph);
      assert xs == init + [last];
      FirstInSnoc(FirstOccurrences(init), last, graph);
    }
  }

  /**
    * After any run of insertions a look-up gives the pair of the target graph
    * inserted first for the key, else the pair of the key's own graph inserted
    * first, else (-2,-2); and (-1,-1) for a key never inserted.
    */
  lemma LookUpIsEarliest(ops: seq<Insertion>, key: Pair, targetGraph: int)
    ensures var vs, r := ValuesFor(ops, key), Found(AfterAll(ops), key, targetGraph);
            r == if vs == [] then (-1, -1)
                 else if FirstIn(vs, targetGraph) < |vs| then vs[FirstIn(vs, targetGraph)]
                 else if FirstIn(vs, key.1) < |vs| then vs[FirstIn(vs, key.1)]
                 else (-2, -2)
  {
    HoldsFirstOccurrences(ops, key);
    SameFirst(ValuesFor(ops, key), targetGraph);
    SameFirst(ValuesFor(ops, key), key.1);
  }

  predicate NonNegative(xs: seq<Pair>) {
    forall x :: x in xs ==> x.0 >= 0 && x.1 >= 0
  }

  /** With non-negative numbers the two special answers mean what they are meant to. */
  lemma SpecialAnswers(ops: seq<Insertion>, key: Pair, targetGraph: int)
    requires NonNegative(ValuesFor(ops, key))
    ensures var vs, r := ValuesFor(ops, key), Found(AfterAll(ops), key, targetGraph);
            && (r == (-1, -1) <==> vs == [])
            && (r == (-2, -2) <==> vs != [] && forall v :: v in vs ==> v.1 != targetGraph && v.1 != key.1)
  {
    LookUpIsEarliest(ops, key, targetGraph);
    var vs := ValuesFor(ops, key);
    if vs != [] && FirstIn(vs, targetGraph) == |vs| == FirstIn(vs, key.1) {
      forall v | v in vs
        ensures v.1 != targetGraph && v.1 != key.1
      {
        var i :| 0 <= i < |vs| && vs[i] == v;
      }
    }
  }

  /** For arbitrary numbers a stored key can look absent exactly when its earliest pair of graph -1 is (-1,-1). */
  lemma LooksAbsentIff(mm: Relation, key: Pair)
    requires key in mm
    ensures (exists target :: Found(mm, key, target) == (-1, -1))
            <==> FirstIn(mm[key], -1) < |mm[key]| && mm[key][FirstIn(mm[key], -1)] == (-1, -1)
  {
    var vs := mm[key];
    if FirstIn(vs, -1) < |vs| && vs[FirstIn(vs, -1)] == (-1, -1) {
      assert Found(mm, key, -1) == (-1, -1);
    }
  }
}
