/** The lookup trees of a fifo over its chain of chunks (src/svm/svm_fifo.c:585-758). A tree
    always indexes a contiguous run of the chain, and chunks know whether they are in it.
    The enqueue and the dequeue tree work alike; enq tells which one is meant. */
module ChunkIndex {
  import opened Position
  import opened Chunks
  import opened ChunkTree

  function Flag(c: Chunk, enq: bool): bool {
    if enq then c.enq else c.deq
  }

  function SetFlag(c: Chunk, enq: bool, v: bool): Chunk {
    if enq then c.(enq := v) else c.(deq := v)
  }

  ghost predicate InRun(chain: seq<Sptr>, pos: seq<int>, a: nat, b: nat, key: u32, c: Sptr)
    requires b <= |chain| <= |pos|
  {
    exists i: nat :: a <= i < b && key == Wrap(pos[i]) && c == chain[i]
  }

  /** The tree holds exactly the chunks a..b of the chain, by start position. */
  ghost predicate TreeIs(t: Tree, chain: seq<Sptr>, pos: seq<int>, a: nat, b: nat)
    requires b <= |chain| < |pos|
  {
    && Ordered(t, pos[0], pos[0], pos[0] + TWO_31)
    && (forall k, c :: Has(t, k, c) <==> InRun(chain, pos, a, b, k, c))
  }

  ghost predicate Flags(mem: Memory, chain: seq<Sptr>, enq: bool, a: nat, b: nat) {
    forall i: nat :: i < |chain| ==> chain[i] in mem && (Flag(mem[chain[i]], enq) <==> a <= i < b)
  }

  ghost predicate Index(mem: Memory, t: Tree, chain: seq<Sptr>, pos: seq<int>, enq: bool, a: nat, b: nat) {
    a <= b <= |chain| < |pos| && TreeIs(t, chain, pos, a, b) && Flags(mem, chain, enq, a, b)
  }

  lemma KeyOf(pos: seq<int>, i: nat)
    requires i < |pos| && pos[0] <= pos[i] < pos[0] + TWO_31
    ensures Unwrap(pos[0], Wrap(pos[i])) == pos[i]
  {
    UnwrapWrap(pos[0], pos[i]);
  }

  lemma KeysDiffer(mem: Memory, chain: seq<Sptr>, pos: seq<int>, i: nat, j: nat)
    requires Chain(mem, chain, pos) && i < |chain| && j < |chain|
    ensures Wrap(pos[i]) == Wrap(pos[j]) <==> i == j
  {
    ChainAt(mem, chain, pos, i);
    ChainAt(mem, chain, pos, j);
    KeyOf(pos, i);
    KeyOf(pos, j);
  }

  /** An empty run has the empty tree. */
  lemma EmptyRun(t: Tree, chain: seq<Sptr>, pos: seq<int>, a: nat, b: nat)
    requires a <= b <= |chain| < |pos| && TreeIs(t, chain, pos, a, b)
    ensures t == Nil <==> a == b
  {
    if t.Node? {
      assert Has(t, t.key, t.chunk);
      assert InRun(chain, pos, a, b, t.key, t.chunk);
    }
    if a < b {
      assert InRun(chain, pos, a, b, Wrap(pos[a]), chain[a]);
    }
  }

  /** The floor of position p in the tree is the last chunk of the run that starts by p. */
  lemma FloorInRun(mem: Memory, t: Tree, chain: seq<Sptr>, pos: seq<int>, a: nat, b: nat, p: int, key: u32, c: Sptr) returns (j: nat)
    requires Chain(mem, chain, pos) && b <= |chain| && TreeIs(t, chain, pos, a, b)
    requires IsFloor(t, pos[0], p, key, c)
    ensures a <= j < b && c == chain[j] && pos[j] <= p && (j + 1 < b ==> p < pos[j + 1])
  {
    assert InRun(chain, pos, a, b, key, c);
    j :| a <= j < b && key == Wrap(pos[j]) && c == chain[j];
    ChainAt(mem, chain, pos, j);
    KeyOf(pos, j);
    if j + 1 < b {
      ChainAt(mem, chain, pos, j + 1);
      KeyOf(pos, j + 1);
      assert InRun(chain, pos, a, b, Wrap(pos[j + 1]), chain[j + 1]);
      assert Has(t, Wrap(pos[j + 1]), chain[j + 1]);
    }
  }

  lemma FloorExists(mem: Memory, t: Tree, chain: seq<Sptr>, pos: seq<int>, a: nat, b: nat, p: int)
    requires Chain(mem, chain, pos) && a < b <= |chain| && TreeIs(t, chain, pos, a, b) && pos[a] <= p
    ensures !NoneAtOrBefore(t, pos[0], p)
  {
    ChainAt(mem, chain, pos, a);
    KeyOf(pos, a);
    assert InRun(chain, pos, a, b, Wrap(pos[a]), chain[a]);
    assert Has(t, Wrap(pos[a]), chain[a]);
  }

  /** Adding the next chunk extends the run by one. */
  lemma InsertRun(mem: Memory, t: Tree, chain: seq<Sptr>, pos: seq<int>, a: nat, b: nat)
    requires Chain(mem, chain, pos) && a <= b < |chain| && TreeIs(t, chain, pos, a, b)
    ensures TreeIs(Insert(t, Wrap(pos[b]), chain[b]), chain, pos, a, b + 1)
  {
    hide Chain, Ordered, Has;
    ChainAt(mem, chain, pos, b);
    var key, c := Wrap(pos[b]), chain[b];
    KeyOf(pos, b);
    forall d ensures !Has(t, key, d) {
      if Has(t, key, d) {
        var i: nat :| a <= i < b && key == Wrap(pos[i]) && d == chain[i];
        KeysDiffer(mem, chain, pos, i, b);
      }
    }
    InsertOrdered(t, pos[0], pos[0], pos[0] + TWO_31, key, c);
    forall k, d ensures Has(Insert(t, key, c), k, d) <==> InRun(chain, pos, a, b + 1, k, d) {
      InsertHas(t, key, c, k, d);
      InRunExtend(chain, pos, a, b, k, d);
    }
  }

  lemma InRunExtend(chain: seq<Sptr>, pos: seq<int>, a: nat, b: nat, k: u32, c: Sptr)
    requires a <= b < |chain| <= |pos|
    ensures InRun(chain, pos, a, b + 1, k, c) <==> InRun(chain, pos, a, b, k, c) || (k == Wrap(pos[b]) && c == chain[b])
  {
  }

  lemma InRunShrink(chain: seq<Sptr>, pos: seq<int>, a: nat, b: nat, k: u32, c: Sptr)
    requires a < b <= |chain| <= |pos|
    ensures InRun(chain, pos, a, b, k, c) <==> InRun(chain, pos, a + 1, b, k, c) || (k == Wrap(pos[a]) && c == chain[a])
  {
  }

  /** Deleting the first chunk of the run leaves the rest of it. */
  lemma DeleteRun(mem: Memory, t: Tree, chain: seq<Sptr>, pos: seq<int>, a: nat, b: nat)
    requires Chain(mem, chain, pos) && a < b <= |chain| && TreeIs(t, chain, pos, a, b)
    ensures TreeIs(Delete(t, Wrap(pos[a])), chain, pos, a + 1, b)
  {
    hide Chain, Ordered, Has;
    ChainAt(mem, chain, pos, a);
    var key := Wrap(pos[a]);
    KeyOf(pos, a);
    DeleteOrdered(t, pos[0], pos[0], pos[0] + TWO_31, key);
    forall k, c ensures Has(Delete(t, key), k, c) <==> InRun(chain, pos, a + 1, b, k, c) {
      DeleteHas(t, pos[0], pos[0], pos[0] + TWO_31, key, k, c);
      InRunShrink(chain, pos, a, b, k, c);
      if InRun(chain, pos, a + 1, b, k, c) {
        var i: nat :| a + 1 <= i < b && k == Wrap(pos[i]) && c == chain[i];
        KeysDiffer(mem, chain, pos, i, a);
      }
    }
  }

  /** mem differs from mem0 only in one of the two flags of chunks of the chain. */
  ghost predicate OnlyFlags(mem0: Memory, mem: Memory, chain: seq<Sptr>, enq: bool) {
    && mem.Keys == mem0.Keys
    && (forall x :: x in mem ==> SetFlag(mem[x], enq, false) == SetFlag(mem0[x], enq, false))
    && (forall x :: x in mem && x !in chain ==> mem[x] == mem0[x])
  }

  lemma OnlyFlagsRefl(mem: Memory, chain: seq<Sptr>, enq: bool)
    ensures OnlyFlags(mem, mem, chain, enq)
  {
  }

  lemma OnlyFlagsStep(mem0: Memory, mem: Memory, chain: seq<Sptr>, enq: bool, i: nat, v: bool)
    requires OnlyFlags(mem0, mem, chain, enq) && i < |chain| && chain[i] in mem
    ensures OnlyFlags(mem0, mem[chain[i] := SetFlag(mem[chain[i]], enq, v)], chain, enq)
  {
  }

  lemma OnlyFlagsChain(mem0: Memory, mem: Memory, chain: seq<Sptr>, pos: seq<int>, enq: bool)
    requires OnlyFlags(mem0, mem, chain, enq) && Chain(mem0, chain, pos)
    ensures Chain(mem, chain, pos)
  {
    forall i: nat | i < |chain| ensures ChunkAt(mem, chain, pos, i) {
      ChainAt(mem0, chain, pos, i);
      assert SetFlag(mem[chain[i]], enq, false) == SetFlag(mem0[chain[i]], enq, false);
    }
  }

  lemma OnlyFlagsHolds(mem0: Memory, mem: Memory, chain: seq<Sptr>, pos: seq<int>, log: Log, enq: bool)
    requires OnlyFlags(mem0, mem, chain, enq) && |chain| <= |pos| && Holds(mem0, chain, pos, log)
    ensures Holds(mem, chain, pos, log)
  {
    forall i: nat | i < |chain| ensures HoldsAt(mem, chain, pos, log, i) {
      assert HoldsAt(mem0, chain, pos, log, i);
      assert SetFlag(mem[chain[i]], enq, false) == SetFlag(mem0[chain[i]], enq, false);
    }
  }

  lemma OnlyFlagsOther(mem0: Memory, mem: Memory, chain: seq<Sptr>, enq: bool, a: nat, b: nat)
    requires OnlyFlags(mem0, mem, chain, enq) && Flags(mem0, chain, !enq, a, b)
    ensures Flags(mem, chain, !enq, a, b)
  {
    forall i: nat | i < |chain| ensures chain[i] in mem && Flag(mem[chain[i]], !enq) == Flag(mem0[chain[i]], !enq) {
      assert SetFlag(mem[chain[i]], enq, false) == SetFlag(mem0[chain[i]], enq, false);
    }
  }

  lemma FlagOn(mem: Memory, chain: seq<Sptr>, pos: seq<int>, enq: bool, a: nat, b: nat)
    requires Chain(mem, chain, pos) && Flags(mem, chain, enq, a, b) && a <= b < |chain|
    ensures chain[b] in mem && Flags(mem[chain[b] := SetFlag(mem[chain[b]], enq, true)], chain, enq, a, b + 1)
  {
    forall i: nat | i < |chain| && i != b ensures chain[i] != chain[b] {
    }
  }

  lemma FlagOff(mem: Memory, chain: seq<Sptr>, pos: seq<int>, enq: bool, a: nat, b: nat)
    requires Chain(mem, chain, pos) && Flags(mem, chain, enq, a, b) && a < b <= |chain|
    ensures chain[a] in mem && Flags(mem[chain[a] := SetFlag(mem[chain[a]], enq, false)], chain, enq, a + 1, b)
  {
    forall i: nat | i < |chain| && i != a ensures chain[i] != chain[a] {
    }
  }

  /** Chunk b joins the tree. */
  lemma Joined(mem0: Memory, mem: Memory, t: Tree, chain: seq<Sptr>, pos: seq<int>, enq: bool, a: nat, b: nat)
    requires Chain(mem, chain, pos) && Index(mem, t, chain, pos, enq, a, b) && b < |chain| && OnlyFlags(mem0, mem, chain, enq)
    ensures chain[b] in mem && mem[chain[b]].start == Wrap(pos[b])
    ensures var m := mem[chain[b] := SetFlag(mem[chain[b]], enq, true)];
            && Chain(m, chain, pos) && OnlyFlags(mem0, m, chain, enq)
            && Index(m, Insert(t, Wrap(pos[b]), chain[b]), chain, pos, enq, a, b + 1)
  {
    hide Chain, TreeIs, OnlyFlags, Flags, SetFlag;
    ChainAt(mem, chain, pos, b);
    InsertRun(mem, t, chain, pos, a, b);
    FlagOn(mem, chain, pos, enq, a, b);
    OnlyFlagsStep(mem0, mem, chain, enq, b, true);
    OnlyFlagsRefl(mem, chain, enq);
    OnlyFlagsStep(mem, mem, chain, enq, b, true);
    OnlyFlagsChain(mem, mem[chain[b] := SetFlag(mem[chain[b]], enq, true)], chain, pos, enq);
  }

  /** Chunk a, the first of the run, leaves the tree. */
  lemma Left(mem0: Memory, mem: Memory, t: Tree, chain: seq<Sptr>, pos: seq<int>, enq: bool, a: nat, b: nat)
    requires Chain(mem, chain, pos) && Index(mem, t, chain, pos, enq, a, b) && a < b && OnlyFlags(mem0, mem, chain, enq)
    ensures chain[a] in mem && mem[chain[a]].start == Wrap(pos[a])
    ensures var m := mem[chain[a] := SetFlag(mem[chain[a]], enq, false)];
            && Chain(m, chain, pos) && OnlyFlags(mem0, m, chain, enq)
            && Index(m, Delete(t, Wrap(pos[a])), chain, pos, enq, a + 1, b)
  {
    hide Chain, TreeIs, OnlyFlags, Flags, SetFlag;
    ChainAt(mem, chain, pos, a);
    DeleteRun(mem, t, chain, pos, a, b);
    FlagOff(mem, chain, pos, enq, a, b);
    OnlyFlagsStep(mem0, mem, chain, enq, a, false);
    OnlyFlagsRefl(mem, chain, enq);
    OnlyFlagsStep(mem, mem, chain, enq, a, false);
    OnlyFlagsChain(mem, mem[chain[a] := SetFlag(mem[chain[a]], enq, false)], chain, pos, enq);
  }

  lemma FlagAt(mem: Memory, t: Tree, chain: seq<Sptr>, pos: seq<int>, enq: bool, a: nat, b: nat, i: nat)
    requires Index(mem, t, chain, pos, enq, a, b) && i < |chain|
    ensures chain[i] in mem && (Flag(mem[chain[i]], enq) <==> a <= i < b)
  {
  }

  /** The loop of f_update_ooo_enq and f_update_ooo_deq: from chunk j on, indexes the chunks
      after the run up to the one that holds position e. */
  method ExtendRun(mem0: Memory, t0: Tree, enq: bool, c0: Sptr, startPos: u32, endPos: u32, found0: Sptr,
                   ghost chain: seq<Sptr>, ghost pos: seq<int>, ghost a: nat, ghost b: nat, ghost j: nat, ghost p: int, ghost e: int)
    returns (mem: Memory, t: Tree, found: Sptr, ghost b': nat)
    requires Chain(mem0, chain, pos) && Index(mem0, t0, chain, pos, enq, a, b) && a <= j < b && c0 == chain[j]
    requires startPos == Wrap(p) && endPos == Wrap(e) && pos[0] <= p < pos[|chain|] && p <= e <= pos[|chain|]
    requires pos[j] <= p && !(pos[j] <= e < pos[j + 1])
    requires if p < pos[j + 1] then found0 == ChunkFor(chain, pos, p) else j + 1 == b
    ensures Chain(mem, chain, pos) && Index(mem, t, chain, pos, enq, a, b') && OnlyFlags(mem0, mem, chain, enq)
    ensures found == ChunkFor(chain, pos, p)
    ensures b <= b' && (b < b' ==> pos[b' - 1] <= e)
  {
    hide Chain, Index, OnlyFlags, IncludesPos, ChunkFor, Flag, SetFlag;
    mem, t, found, b' := mem0, t0, found0, b;
    ChainAscending(mem, chain, pos);
    IndexBounds(mem, t, chain, pos, enq, a, b);
    ChainAt(mem, chain, pos, j);
    OnlyFlagsRefl(mem, chain, enq);
    var c := c0;
    ghost var i := j;
    while true
      invariant a <= i < |chain| && c == chain[i] && i < b' && b <= b' <= |chain| && (i > j ==> i + 1 == b')
      invariant Chain(mem, chain, pos) && Index(mem, t, chain, pos, enq, a, b') && OnlyFlags(mem0, mem, chain, enq)
      invariant pos[i + 1] <= e && (if p < pos[i + 1] then found == ChunkFor(chain, pos, p) else i + 1 == b')
      invariant b < b' ==> pos[b' - 1] <= e
      decreases |chain| - i
    {
      ChainAt(mem, chain, pos, i);
      c := mem[c].next;
      if c == NULL {
        NextIsNull(mem, chain, pos, i);
        return;
      }
      i := i + 1;
      FlagAt(mem, t, chain, pos, enq, a, b', i);
      if Flag(mem[c], enq) {
        return;
      }
      Joined(mem0, mem, t, chain, pos, enq, a, b');
      t := Insert(t, mem[c].start, c);
      mem := mem[c := SetFlag(mem[c], enq, true)];
      b' := b' + 1;
      ChainAt(mem, chain, pos, i);
      Includes(mem, chain, pos, i, p);
      if IncludesPos(mem[c], startPos) {
        found := c;
        ChunkForIs(mem, chain, pos, i, p);
      }
      Includes(mem, chain, pos, i, e);
      if IncludesPos(mem[c], endPos) {
        return;
      }
    }
  }

  lemma IndexBounds(mem: Memory, t: Tree, chain: seq<Sptr>, pos: seq<int>, enq: bool, a: nat, b: nat)
    requires Index(mem, t, chain, pos, enq, a, b)
    ensures a <= b <= |chain| && (t == Nil <==> a == b)
  {
    EmptyRun(t, chain, pos, a, b);
  }

  lemma NextIsNull(mem: Memory, chain: seq<Sptr>, pos: seq<int>, i: nat)
    requires Chain(mem, chain, pos) && i < |chain| && chain[i] in mem && mem[chain[i]].next == NULL
    ensures i == |chain| - 1
  {
    ChainAt(mem, chain, pos, i);
    if i + 1 < |chain| {
      ChainAt(mem, chain, pos, i + 1);
    }
  }

  /** f_update_ooo_enq and f_update_ooo_deq on an initialised tree: brings the tree up to
      position e and finds the chunk of position p, the one a linear scan would find. The
      run starts at the anchor, the fifo's tail chunk or start chunk. */
  method UpdateLookup(mem0: Memory, t0: Tree, enq: bool, anchor: Sptr, startPos: u32, endPos: u32,
                      ghost chain: seq<Sptr>, ghost pos: seq<int>, ghost a0: nat, ghost b0: nat, ghost i0: nat, ghost p: int, ghost e: int)
    returns (mem: Memory, t: Tree, found: Sptr, ghost a: nat, ghost b: nat)
    requires Chain(mem0, chain, pos) && Index(mem0, t0, chain, pos, enq, a0, b0)
    requires i0 < |chain| && anchor == chain[i0] && (a0 < b0 ==> a0 == i0) && pos[i0] <= p
    requires startPos == Wrap(p) && endPos == Wrap(e) && p < pos[|chain|] && p <= e <= pos[|chain|]
    ensures Chain(mem, chain, pos) && Index(mem, t, chain, pos, enq, a, b) && OnlyFlags(mem0, mem, chain, enq)
    ensures pos[0] <= p && found == ChunkFor(chain, pos, p)
    ensures a == i0 < b && (a0 == b0 || b0 < b ==> pos[b - 1] <= e) && (a0 < b0 ==> b0 <= b)
  {
    hide Chain, Index, OnlyFlags, IncludesPos, ChunkFor, SetFlag, Ordered, IsFloor, NoneAtOrBefore;
    ChainAscending(mem0, chain, pos);
    ChainAt(mem0, chain, pos, i0);
    IndexBounds(mem0, t0, chain, pos, enq, a0, b0);
    OnlyFlagsRefl(mem0, chain, enq);
    mem, t, found, a, b := mem0, t0, NULL, i0, b0;
    var c := anchor;
    ghost var j := i0;
    if t == Nil {
      EmptyIndexMoves(mem0, t0, chain, pos, enq, a0, b0, i0);
      Joined(mem0, mem0, t0, chain, pos, enq, i0, i0);
      t := Insert(t, mem[c].start, c);
      mem := mem[c := SetFlag(mem[c], enq, true)];
      b := i0 + 1;
    } else {
      IndexOrdered(mem, t, chain, pos, enq, a, b);
      FloorExists(mem, t, chain, pos, a, b, p);
      var n := FindNode(t, startPos, pos[0], p);
      j := FloorInRun(mem, t, chain, pos, a, b, p, n.key, n.chunk);
      c := n.chunk;
    }
    ChainAt(mem, chain, pos, j);
    Includes(mem, chain, pos, j, p);
    Includes(mem, chain, pos, j, e);
    if IncludesPos(mem[c], startPos) {
      found := c;
      ChunkForIs(mem, chain, pos, j, p);
    }
    if !IncludesPos(mem[c], endPos) {
      ghost var m, b1 := mem, b;
      mem, t, found, b := ExtendRun(mem, t, enq, c, startPos, endPos, found, chain, pos, a, b, j, p, e);
      OnlyFlagsTrans(mem0, m, mem, chain, enq);
    }
  }

  lemma EmptyIndexMoves(mem: Memory, t: Tree, chain: seq<Sptr>, pos: seq<int>, enq: bool, a: nat, b: nat, i: nat)
    requires Index(mem, t, chain, pos, enq, a, b) && a == b && i <= |chain|
    ensures Index(mem, t, chain, pos, enq, i, i)
  {
  }

  lemma IndexOrdered(mem: Memory, t: Tree, chain: seq<Sptr>, pos: seq<int>, enq: bool, a: nat, b: nat)
    requires Index(mem, t, chain, pos, enq, a, b)
    ensures b <= |chain| < |pos| && TreeIs(t, chain, pos, a, b) && Ordered(t, pos[0], pos[0], pos[0] + TWO_31)
  {
  }

  lemma OnlyFlagsTrans(m0: Memory, m1: Memory, m2: Memory, chain: seq<Sptr>, enq: bool)
    requires OnlyFlags(m0, m1, chain, enq) && OnlyFlags(m1, m2, chain, enq)
    ensures OnlyFlags(m0, m2, chain, enq)
  {
  }

  /** t is t0 without some of the chunks from the i-th on. */
  ghost predicate Pruned(t0: Tree, t: Tree, chain: seq<Sptr>, pos: seq<int>, i: nat)
    requires |chain| < |pos|
  {
    && Ordered(t, pos[0], pos[0], pos[0] + TWO_31)
    && (forall key, x :: Has(t, key, x) ==> Has(t0, key, x))
    && (forall key, x :: Has(t0, key, x) && !InRun(chain, pos, i, |chain|, key, x) ==> Has(t, key, x))
  }

  lemma PrunedRefl(mem: Memory, t: Tree, chain: seq<Sptr>, pos: seq<int>, enq: bool, a: nat, b: nat, i: nat)
    requires Index(mem, t, chain, pos, enq, a, b)
    ensures Pruned(t, t, chain, pos, i)
  {
  }

  lemma PrunedStep(mem: Memory, mem0: Memory, t0: Tree, t: Tree, chain: seq<Sptr>, pos: seq<int>, enq: bool, a: nat, b: nat, i0: nat, i: nat)
    requires Chain(mem, chain, pos) && Index(mem0, t0, chain, pos, enq, a, b) && Pruned(t0, t, chain, pos, i0) && i0 <= i < |chain|
    ensures Pruned(t0, Delete(t, Wrap(pos[i])), chain, pos, i0)
  {
    hide Chain, Ordered, Has, Flags;
    ChainAt(mem, chain, pos, i);
    KeyOf(pos, i);
    var d := Wrap(pos[i]);
    DeleteOrdered(t, pos[0], pos[0], pos[0] + TWO_31, d);
    forall key, x ensures Has(Delete(t, d), key, x) <==> Has(t, key, x) && key != d {
      DeleteHas(t, pos[0], pos[0], pos[0] + TWO_31, d, key, x);
    }
    forall key, x | Has(t0, key, x) && !InRun(chain, pos, i0, |chain|, key, x) ensures key != d {
      assert InRun(chain, pos, a, b, key, x);
      var j: nat :| a <= j < b && key == Wrap(pos[j]) && x == chain[j];
      KeysDiffer(mem, chain, pos, j, i);
    }
  }

  /** f_lookup_clear_enq_chunks and f_lookup_clear_deq_chunks: takes the chunks from the i0-th
      up to the one that holds position e out of the tree, and returns that one. What is left
      is a run unless the tree had chunks before the i0-th. */
  method ClearChunks(mem0: Memory, t0: Tree, enq: bool, start: Sptr, endPos: u32,
                     ghost chain: seq<Sptr>, ghost pos: seq<int>, ghost a0: nat, ghost b: nat, ghost i0: nat, ghost e: int)
    returns (mem: Memory, t: Tree, c: Sptr, ghost a: nat, ghost i: nat)
    requires Chain(mem0, chain, pos) && Index(mem0, t0, chain, pos, enq, a0, b)
    requires i0 <= |chain| && start == Nth(chain, i0) && pos[i0] <= e <= pos[|chain|] && endPos == Wrap(e)
    ensures Chain(mem, chain, pos) && OnlyFlags(mem0, mem, chain, enq) && Pruned(t0, t, chain, pos, i0)
    ensures pos[0] <= e && c == ChunkFor(chain, pos, e) == Nth(chain, i) && i <= |chain|
    ensures pos[i] <= e && (i < |chain| ==> e < pos[i + 1])
    ensures i0 <= i && (a <= i || a == a0) && (start == NULL ==> mem == mem0 && t == t0)
    ensures i0 <= a0 ==> Index(mem, t, chain, pos, enq, a, b) && a0 <= a && (a < b ==> i <= a) && (i <= a0 || a0 == b ==> a == a0)
  {
    hide Chain, Index, OnlyFlags, IncludesPos, ChunkFor, Flag, SetFlag, Pruned;
    ChainAscending(mem0, chain, pos);
    IndexBounds(mem0, t0, chain, pos, enq, a0, b);
    OnlyFlagsRefl(mem0, chain, enq);
    PrunedRefl(mem0, t0, chain, pos, enq, a0, b, i0);
    mem, t, c, a, i := mem0, t0, start, a0, i0;
    if i < |chain| {
      ChainAt(mem, chain, pos, i);
    }
    while c != NULL && !IncludesPos(mem[c], endPos)
      invariant i0 <= i <= |chain| && c == Nth(chain, i) && (i < |chain| ==> c != NULL && c in mem) && a <= b
      invariant Chain(mem, chain, pos) && OnlyFlags(mem0, mem, chain, enq) && Pruned(t0, t, chain, pos, i0)
      invariant i0 <= a0 ==> Index(mem, t, chain, pos, enq, a, b) && a0 <= a && (a < b ==> i <= a) && (i <= a0 || a0 == b ==> a == a0)
      invariant pos[i] <= e && (a <= i || a == a0) && (start == NULL ==> c == NULL && mem == mem0 && t == t0)
      decreases |chain| - i
    {
      ChainAt(mem, chain, pos, i);
      Includes(mem, chain, pos, i, e);
      if i0 <= a0 {
        FlagAt(mem, t, chain, pos, enq, a, b, i);
      }
      if Flag(mem[c], enq) {
        PrunedStep(mem, mem0, t0, t, chain, pos, enq, a0, b, i0, i);
        OnlyFlagsStep(mem0, mem, chain, enq, i, false);
        if i0 <= a0 {
          Left(mem0, mem, t, chain, pos, enq, a, b);
          a := a + 1;
        }
        t := Delete(t, mem[c].start);
        mem := mem[c := SetFlag(mem[c], enq, false)];
        OnlyFlagsChain(mem0, mem, chain, pos, enq);
        ChainAt(mem, chain, pos, i);
      }
      c := mem[c].next;
      i := i + 1;
      if i < |chain| {
        ChainAt(mem, chain, pos, i);
      }
    }
    if i < |chain| {
      ChainAt(mem, chain, pos, i);
      Includes(mem, chain, pos, i, e);
    }
    ChunkForIs(mem, chain, pos, i, e);
  }

  /** f_lookup_clear_enq_chunks: the tree was anchored at the tail's chunk and is again, with
      the tail at position e, and it is empty if no segments are left. */
  method ClearEnqChunks(mem0: Memory, t0: Tree, start: Sptr, endPos: u32, noSegs: bool,
                        ghost chain: seq<Sptr>, ghost pos: seq<int>, ghost a0: nat, ghost b: nat, ghost i0: nat, ghost e: int)
    returns (mem: Memory, t: Tree, c: Sptr, ghost a: nat)
    requires Chain(mem0, chain, pos) && Index(mem0, t0, chain, pos, true, a0, b) && (a0 < b ==> a0 == i0)
    requires i0 < |chain| && start == chain[i0] && pos[i0] <= e <= pos[|chain|] && endPos == Wrap(e)
    requires noSegs && a0 < b ==> pos[b - 1] <= e
    ensures Chain(mem, chain, pos) && OnlyFlags(mem0, mem, chain, true) && Index(mem, t, chain, pos, true, a, b)
    ensures pos[0] <= e && c == ChunkFor(chain, pos, e)
    ensures a < b ==> a < |chain| && a0 < b && pos[a] <= e < pos[a + 1]
    ensures noSegs ==> a == b
  {
    hide Chain, Index, OnlyFlags, ChunkFor, Pruned;
    ChainAscending(mem0, chain, pos);
    IndexBounds(mem0, t0, chain, pos, true, a0, b);
    ghost var i;
    ghost var from := if a0 < b then a0 else |chain|;
    ghost var to := if a0 < b then b else |chain|;
    if a0 == b {
      EmptyIndexMoves(mem0, t0, chain, pos, true, a0, b, |chain|);
    }
    mem, t, c, a, i := ClearChunks(mem0, t0, true, start, endPos, chain, pos, from, to, i0, e);
    IndexBounds(mem, t, chain, pos, true, a, to);
    if i < |chain| {
      ChainAt(mem, chain, pos, i);
    }
    if noSegs && c != NULL {
      FlagAt(mem, t, chain, pos, true, a, to, i);
      if mem[c].enq {
        NotBefore(mem, chain, pos, i, to - 1, e);
        Left(mem0, mem, t, chain, pos, true, a, to);
        t := Delete(t, mem[c].start);
        mem := mem[c := mem[c].(enq := false)];
        a := a + 1;
      }
    }
    if a0 == b {
      a := b;
      EmptyIndexMoves(mem, t, chain, pos, true, to, to, b);
    }
  }
}
