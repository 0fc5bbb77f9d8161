/** The state of a fifo as values, and what each operation makes of it. */
module FifoViews {
  import opened Sequences
  import opened Position
  import opened OooSegments
  import opened Chunks
  import opened SizeClasses
  import opened FreeLists
  import opened SegmentState
  import opened ChunkTree
  import opened ChunkIndex
  import opened Chains
  import opened FifoState

  /** svm_fifo_shared_t. */
  datatype Shared = Shared(startChunk: Sptr, endChunk: Sptr, headChunk: Sptr, tailChunk: Sptr, head: u32, tail: u32)

  /** A lookup tree and the chunk that was used last. */
  datatype Lookup = Lookup(tree: Tree, init: bool, cached: Sptr)

  /** The chain, the positions of its chunks, what was written where, head and tail as
      positions that do not wrap, and the runs of chunks in the lookup trees. */
  datatype View = View(chain: seq<Sptr>, pos: seq<int>, log: Log, hd: int, tl: int, enqFrom: nat, enqTo: nat, deqTo: nat)

  /** The stream is stored, and the producer's and the shared fields say where. */
  ghost predicate FifoInv(mem: Memory, v: View, shr: Shared, enq: Lookup, size: nat, segs: seq<Interval>) {
    && Stream(mem, v.chain, v.pos, v.log, v.hd, v.tl, size, segs)
    && Pointers(v.chain, v.pos, v.hd, v.tl, shr.startChunk, shr.endChunk, shr.headChunk, shr.tailChunk, shr.head, shr.tail)
    && EnqSide(mem, enq.tree, enq.init, v.chain, v.pos, v.enqFrom, v.enqTo, v.tl, segs, enq.cached)
  }

  ghost predicate DeqInv(mem: Memory, v: View, deq: Lookup) {
    DeqSide(mem, deq.tree, deq.init, v.chain, v.pos, v.deqTo, deq.cached)
  }

  lemma CoreFacts(mem: Memory, v: View, shr: Shared, size: nat, segs: seq<Interval>)
    requires Stream(mem, v.chain, v.pos, v.log, v.hd, v.tl, size, segs)
    requires Pointers(v.chain, v.pos, v.hd, v.tl, shr.startChunk, shr.endChunk, shr.headChunk, shr.tailChunk, shr.head, shr.tail)
    ensures Chain(mem, v.chain, v.pos) && Holds(mem, v.chain, v.pos, v.log) && Canonical(segs)
    ensures v.chain != [] && |v.pos| == |v.chain| + 1 && 0 < size <= MAX_FIFO < TWO_31
    ensures v.pos[0] <= v.hd <= v.pos[1] && v.hd <= v.tl <= v.pos[|v.chain|] && v.tl - v.hd <= size
    ensures Within(segs, v.tl + 1, v.hd + size) && Within(segs, v.tl + 1, v.pos[|v.chain|])
    ensures v.pos[|v.chain|] - v.hd <= Reach(size) && v.pos[0] < v.pos[|v.chain|] < v.pos[0] + TWO_31
    ensures Sub(shr.tail, shr.head) == v.tl - v.hd && shr.tail == Wrap(v.tl) && shr.head == Wrap(v.hd)
    ensures shr.endChunk == v.chain[|v.chain| - 1] && shr.endChunk in mem && ChunkEnd(mem[shr.endChunk]) == Wrap(v.pos[|v.chain|])
    ensures shr.startChunk == v.chain[0] && shr.startChunk in mem && ChunkEnd(mem[shr.startChunk]) == Wrap(v.pos[1])
    ensures Sub(ChunkEnd(mem[shr.endChunk]), shr.tail) == v.pos[|v.chain|] - v.tl
    ensures mem[shr.startChunk].length == v.pos[1] - v.pos[0]
  {
    hide Chain, ChunkEnd;
    StreamFacts(mem, v.chain, v.pos, v.log, v.hd, v.tl, size, segs);
    ChainAscending(mem, v.chain, v.pos);
    Includes(mem, v.chain, v.pos, |v.chain| - 1, v.pos[0]);
    Includes(mem, v.chain, v.pos, 0, v.pos[0]);
    ChainAt(mem, v.chain, v.pos, 0);
    SubWraps(v.hd, v.tl);
    SubWraps(v.tl, v.pos[|v.chain|]);
  }

  lemma Facts(mem: Memory, v: View, shr: Shared, enq: Lookup, size: nat, segs: seq<Interval>)
    requires FifoInv(mem, v, shr, enq, size, segs)
    ensures Chain(mem, v.chain, v.pos) && Holds(mem, v.chain, v.pos, v.log) && Canonical(segs)
    ensures v.chain != [] && |v.pos| == |v.chain| + 1 && 0 < size <= MAX_FIFO < TWO_31
    ensures v.pos[0] <= v.hd <= v.pos[1] && v.hd <= v.tl <= v.pos[|v.chain|] && v.tl - v.hd <= size
    ensures Within(segs, v.tl + 1, v.hd + size) && Within(segs, v.tl + 1, v.pos[|v.chain|])
    ensures v.pos[|v.chain|] - v.hd <= Reach(size) && v.pos[0] < v.pos[|v.chain|] < v.pos[0] + TWO_31
    ensures Sub(shr.tail, shr.head) == v.tl - v.hd && shr.tail == Wrap(v.tl) && shr.head == Wrap(v.hd)
    ensures shr.endChunk == v.chain[|v.chain| - 1] && shr.endChunk in mem && ChunkEnd(mem[shr.endChunk]) == Wrap(v.pos[|v.chain|])
    ensures shr.startChunk == v.chain[0] && shr.startChunk in mem && ChunkEnd(mem[shr.startChunk]) == Wrap(v.pos[1])
    ensures Sub(ChunkEnd(mem[shr.endChunk]), shr.tail) == v.pos[|v.chain|] - v.tl
    ensures mem[shr.startChunk].length == v.pos[1] - v.pos[0]
  {
    hide Stream, Pointers, EnqSide, Chain, ChunkEnd, Sub, Wrap, Holds, Canonical, Within, Reach;
    CoreFacts(mem, v, shr, size, segs);
  }

  lemma Same(mem: Memory, m: Memory, v: View, shr: Shared, enq: Lookup, deq: Lookup, size: nat, segs: seq<Interval>)
    requires SameOn(mem, m, v.chain)
    ensures FifoInv(mem, v, shr, enq, size, segs) ==> FifoInv(m, v, shr, enq, size, segs)
    ensures DeqInv(mem, v, deq) ==> DeqInv(m, v, deq)
  {
    hide Stream, EnqSide, DeqSide, Pointers;
    SameSides(mem, m, enq.tree, enq.init, deq.tree, deq.init, v.chain, v.pos, v.enqFrom, v.enqTo, v.deqTo, v.tl, segs, enq.cached, deq.cached);
    if FifoInv(mem, v, shr, enq, size, segs) {
      SameStream(mem, m, v.chain, v.pos, v.log, v.hd, v.tl, size, segs);
    }
  }

  /** A list of chunks of some size each, none of them in the chain. */
  ghost predicate NewChunks(mem: Memory, first: Sptr, got: seq<Sptr>, chain: seq<Sptr>) {
    && got != [] && ListOk(mem, first, got)
    && (forall x :: x in got ==> x in mem && x !in chain && mem[x].length == |mem[x].data| > 0)
  }

  lemma NewChunksList(mem: Memory, first: Sptr, got: seq<Sptr>, chain: seq<Sptr>)
    requires NewChunks(mem, first, got, chain)
    ensures got != [] && ListOk(mem, first, got) && (forall x :: x in got ==> x in mem)
  {
  }

  lemma AllocatedNew(mem0: Memory, place0: Places, mem: Memory, place: Places, first: Sptr, got: seq<Sptr>, s: nat, own: seq<Sptr>)
    requires Allocated(mem0, place0, mem, place, first, got, s) && HandedOut(place0, own, s) && place.Keys == mem.Keys && WellSized(mem)
    ensures NewChunks(mem, first, got, own)
  {
    hide ListOk;
  }

  lemma InitialState(mem0: Memory, mem: Memory, first: Sptr, got: seq<Sptr>, size: nat, last: Sptr)
    requires NewChunks(mem0, first, got, []) && LaidOut(mem0, mem, got, 0) && 0 < size <= MAX_FIFO && last == got[|got| - 1]
    requires TotalLength(mem0, got) <= Reach(size)
    ensures var v := View(got, Layout(mem0, got, 0), map[], 0, 0, 0, 0, 0);
            && FifoInv(mem, v, Shared(first, last, first, first, 0, 0), Lookup(Nil, false, NULL), size, [])
            && DeqInv(mem, v, Lookup(Nil, false, NULL)) && OwnWrite(mem0, mem, got)
  {
    hide Stream, Pointers, EnqSide, DeqSide, Chain, LaidOutAt, Layout;
    LaidOutChain(mem0, mem, first, got);
    ChainAscending(mem, got, Layout(mem0, got, 0));
    InitialSides(mem, got, Layout(mem0, got, 0), first, size);
    StartOwn(mem0, mem, got);
  }

  /** The view after a list of chunks has been linked to the end. */
  ghost function Grown(v: View, mem: Memory, got: seq<Sptr>): View
    requires |v.pos| == |v.chain| + 1 && (forall x :: x in got ==> x in mem)
  {
    v.(chain := v.chain + got, pos := v.pos + Layout(mem, got, v.pos[|v.chain|])[1..])
  }

  function GrownShared(shr: Shared, first: Sptr, last: Sptr): Shared {
    shr.(endChunk := last, tailChunk := if shr.tailChunk == NULL then first else shr.tailChunk)
  }

  lemma GrownState(mem1: Memory, m: Memory, v: View, shr: Shared, enq: Lookup, deq: Lookup, size: nat, segs: seq<Interval>,
                   first: Sptr, got: seq<Sptr>, last: Sptr)
    requires FifoInv(mem1, v, shr, enq, size, segs) && DeqInv(mem1, v, deq) && |v.pos| == |v.chain| + 1
    requires NewChunks(mem1, first, got, v.chain) && LaidOut(mem1, m, got, v.pos[|v.chain|]) && last == got[|got| - 1]
    requires v.pos[|v.chain|] + TotalLength(mem1, got) - v.hd <= Reach(size)
    requires v.pos[|v.chain|] + TotalLength(mem1, got) - v.pos[0] < TWO_31
    ensures shr.endChunk in m && last in m
    ensures var mem, v', shr' := Link(m, shr.endChunk, first, last), Grown(v, mem1, got), GrownShared(shr, first, last);
            && FifoInv(mem, v', shr', enq, size, segs) && DeqInv(mem, v', deq)
            && OwnWrite(mem1, mem, v'.chain) && shr'.tailChunk != NULL
            && |v'.pos| == |v'.chain| + 1 && v'.pos[..|v.pos|] == v.pos
            && v'.pos[|v'.chain|] == v.pos[|v.chain|] + TotalLength(mem1, got)
  {
    hide FifoInv, DeqInv, NewChunks, LaidOut, Layout, TotalLength, Link, OwnWrite, Appendable, Chain, ChunkEnd, Sub, Wrap, Holds, Canonical, Within, Reach, OnlyStart;
    Facts(mem1, v, shr, enq, size, segs);
    GrownReady(mem1, m, v, first, got);
    var q := Layout(mem1, got, v.pos[|v.chain|]);
    LinkIs(m, v.chain, v.pos, first, got, q);
    GrownInv(mem1, m, v, shr, enq, deq, size, segs, first, got, q);
    GrownOwn(mem1, m, v.chain, got, shr.endChunk, first);
    Prefix(v.chain, v.pos, got, q);
  }

  /** The new chunks continue the chain. */
  lemma GrownReady(mem1: Memory, m: Memory, v: View, first: Sptr, got: seq<Sptr>)
    requires Chain(mem1, v.chain, v.pos) && |v.pos| == |v.chain| + 1 && NewChunks(mem1, first, got, v.chain) && LaidOut(mem1, m, got, v.pos[|v.chain|])
    requires v.pos[|v.chain|] + TotalLength(mem1, got) - v.pos[0] < TWO_31
    ensures first != NULL && OnlyStart(mem1, m, got) && (forall x :: x in got ==> x in mem1) && got != []
    ensures var q := Layout(mem1, got, v.pos[|v.chain|]);
            Appendable(m, v.chain, v.pos, first, got, q) && |q| == |got| + 1 && q[|got|] == v.pos[|v.chain|] + TotalLength(mem1, got)
  {
    hide Chain, LaidOutAt, Layout, ListOk, OnlyStart, TotalLength, Appendable;
    LaidOutAppendable(mem1, m, v.chain, v.pos, first, got);
    LayoutTotal(mem1, got, v.pos[|v.chain|]);
    ListNotNull(mem1, first, got);
  }

  lemma GrownInv(mem1: Memory, m: Memory, v: View, shr: Shared, enq: Lookup, deq: Lookup, size: nat, segs: seq<Interval>,
                 first: Sptr, got: seq<Sptr>, q: seq<int>)
    requires FifoInv(mem1, v, shr, enq, size, segs) && DeqInv(mem1, v, deq)
    requires Appendable(m, v.chain, v.pos, first, got, q) && OnlyStart(mem1, m, got) && q[|got|] - v.hd <= Reach(size)
    ensures shr.endChunk in m
    ensures var mem := m[shr.endChunk := m[shr.endChunk].(next := first)];
            var w := v.(chain := v.chain + got, pos := v.pos + q[1..]);
            FifoInv(mem, w, GrownShared(shr, first, got[|got| - 1]), enq, size, segs) && DeqInv(mem, w, deq)
  {
    hide *;
    GrownEnd(mem1, v, shr, enq, size, segs);
    InvParts(mem1, v, shr, enq, deq, size, segs);
    GrownStream(mem1, m, v.chain, v.pos, first, got, q, v.log, v.hd, v.tl, size, segs);
    GrownSides(mem1, m, v.chain, v.pos, first, got, q, enq.tree, enq.init, deq.tree, deq.init, v.enqFrom, v.enqTo, v.deqTo, v.tl, segs,
               enq.cached, deq.cached);
    AppendableIs(m, v.chain, v.pos, first, got, q);
    ChainAscending(m, v.chain, v.pos);
    GrownPointers(m, v.chain, v.pos, first, got, q, v.hd, v.tl, shr.startChunk, shr.endChunk, shr.headChunk, shr.tailChunk, shr.head, shr.tail);
    var w, shr' := v.(chain := v.chain + got, pos := v.pos + q[1..]), GrownShared(shr, first, got[|got| - 1]);
    GrownSharedIs(shr, first, got[|got| - 1]);
    InvParts(m[shr.endChunk := m[shr.endChunk].(next := first)], w, shr', enq, deq, size, segs);
  }

  lemma GrownSharedIs(shr: Shared, first: Sptr, last: Sptr)
    ensures GrownShared(shr, first, last) == shr.(endChunk := last, tailChunk := if shr.tailChunk == NULL then first else shr.tailChunk)
  {
  }

  lemma InvParts(mem: Memory, v: View, shr: Shared, enq: Lookup, deq: Lookup, size: nat, segs: seq<Interval>)
    ensures FifoInv(mem, v, shr, enq, size, segs) <==>
            && Stream(mem, v.chain, v.pos, v.log, v.hd, v.tl, size, segs)
            && Pointers(v.chain, v.pos, v.hd, v.tl, shr.startChunk, shr.endChunk, shr.headChunk, shr.tailChunk, shr.head, shr.tail)
            && EnqSide(mem, enq.tree, enq.init, v.chain, v.pos, v.enqFrom, v.enqTo, v.tl, segs, enq.cached)
    ensures DeqInv(mem, v, deq) <==> DeqSide(mem, deq.tree, deq.init, v.chain, v.pos, v.deqTo, deq.cached)
  {
    hide Stream, Pointers, EnqSide, DeqSide;
  }

  lemma GrownEnd(mem: Memory, v: View, shr: Shared, enq: Lookup, size: nat, segs: seq<Interval>)
    requires FifoInv(mem, v, shr, enq, size, segs)
    ensures v.chain != [] && |v.pos| == |v.chain| + 1 && shr.endChunk == v.chain[|v.chain| - 1] && v.hd <= v.tl <= v.pos[|v.chain|]
  {
    hide FifoInv, ChunkEnd, Sub, Wrap, Holds, Canonical, Within, Reach, Chain;
    Facts(mem, v, shr, enq, size, segs);
  }

  /** What f_try_chunk_alloc asks for covers what is missing and keeps the chain within reach. */
  lemma GrowthBounds(mem: Memory, v: View, shr: Shared, enq: Lookup, size: nat, segs: seq<Interval>, len: nat)
    requires FifoInv(mem, v, shr, enq, size, segs) && WellSized(mem) && |v.pos| == |v.chain| + 1
    requires v.pos[|v.chain|] < v.tl + len <= v.hd + size
    ensures shr.endChunk in mem
    ensures var a := AllocSize(MinAlloc(size), size - Sub(shr.tail, shr.head), len - Sub(ChunkEnd(mem[shr.endChunk]), shr.tail));
            && 0 < a < TWO_32 && v.tl + len <= v.pos[|v.chain|] + a && (a <= MAX_SIZE || a == v.tl + len - v.pos[|v.chain|])
            && v.pos[|v.chain|] + Cap(a) - v.hd <= Reach(size) && v.pos[|v.chain|] + Cap(a) - v.pos[0] < TWO_31
  {
    hide FifoInv, Sub, ChunkEnd, AllocSize, MinAlloc, Cap;
    Facts(mem, v, shr, enq, size, segs);
    AllocBounds(size, v.hd, v.tl, v.pos[0], v.pos[|v.chain|], len);
  }

  lemma GrownChain(v: View, shr: Shared, mem: Memory, got: seq<Sptr>, first: Sptr, last: Sptr)
    requires |v.pos| == |v.chain| + 1 && (forall x :: x in got ==> x in mem)
    ensures Grown(v, mem, got).chain == v.chain + got
    ensures shr.tailChunk != NULL ==> GrownShared(shr, first, last).tailChunk == shr.tailChunk
    ensures GrownShared(shr, first, last) == shr.(endChunk := GrownShared(shr, first, last).endChunk, tailChunk := GrownShared(shr, first, last).tailChunk)
  {
  }

  lemma GrownFields(v: View, mem: Memory, got: seq<Sptr>)
    requires |v.pos| == |v.chain| + 1 && (forall x :: x in got ==> x in mem)
    ensures var w := Grown(v, mem, got);
            v.chain <= w.chain && v.pos <= w.pos && w == v.(chain := w.chain, pos := w.pos)
  {
  }

  /** m is mem with src written from position p on. */
  ghost predicate Copied(mem: Memory, m: Memory, v: View, p: int, src: seq<u8>) {
    Chain(m, v.chain, v.pos) && Holds(m, v.chain, v.pos, Overlay(v.log, p, src)) && OnlyData(mem, m, v.chain)
  }

  lemma EnqueuedState(mem: Memory, m1: Memory, m2: Memory, v: View, shr: Shared, enq: Lookup, deq: Lookup, size: nat, segs: seq<Interval>,
                      src: seq<u8>, t: int, segs': seq<Interval>, tree: Tree, a: nat, b: nat, tailC: Sptr)
    requires FifoInv(mem, v, shr, enq, size, segs) && DeqInv(mem, v, deq) && |v.pos| == |v.chain| + 1 && v.chain != []
    requires v.tl + |src| <= v.hd + size && v.tl + |src| <= v.pos[|v.chain|]
    requires Copied(mem, m1, v, v.tl, src)
    requires Chain(m2, v.chain, v.pos) && OnlyFlags(m1, m2, v.chain, true)
    requires Canonical(segs') && Collected(segs, segs', v.tl + |src|, t)
    requires Index(m2, tree, v.chain, v.pos, true, a, b)
    requires a < b ==> v.enqFrom < v.enqTo == b && a < |v.chain| && v.pos[a] <= t < v.pos[a + 1] && segs' != []
    requires v.pos[0] <= t && tailC == ChunkFor(v.chain, v.pos, t)
    ensures var v' := v.(log := Overlay(v.log, v.tl, src), tl := t, enqFrom := a, enqTo := b);
            && FifoInv(m2, v', shr.(tail := Wrap(t), tailChunk := tailC), enq.(tree := tree, cached := NULL), size, segs')
            && DeqInv(m2, v', deq) && OwnWrite(mem, m2, v.chain) && t !in v'.log && v.tl + |src| <= t <= v.hd + size
  {
    hide FifoInv, Chain, Holds, Overlay, OnlyData, OnlyFlags, Canonical, Collected, Index, ChunkFor, OwnWrite, Wrap;
    OnlyFlagsHolds(m1, m2, v.chain, v.pos, Overlay(v.log, v.tl, src), true);
    EnqueuedInv(mem, m2, v, shr, enq, size, segs, src, t, segs', tree, a, b, tailC);
    DataIndex(mem, m1, deq.tree, v.chain, v.pos, false, 0, v.deqTo);
    OtherIndex(m1, m2, deq.tree, v.chain, v.pos, true, 0, v.deqTo);
    Facts(mem, v, shr, enq, size, segs);
    DataOwn(mem, m1, v.chain, v.pos);
    FlagsOwn(m1, m2, v.chain, true);
    OwnWriteTrans(mem, m1, m2, v.chain);
  }

  /** The same for the stream and the producer's side alone. */
  lemma EnqueuedInv(mem: Memory, m2: Memory, v: View, shr: Shared, enq: Lookup, size: nat, segs: seq<Interval>,
                    src: seq<u8>, t: int, segs': seq<Interval>, tree: Tree, a: nat, b: nat, tailC: Sptr)
    requires FifoInv(mem, v, shr, enq, size, segs) && |v.pos| == |v.chain| + 1 && v.chain != []
    requires v.tl + |src| <= v.hd + size && v.tl + |src| <= v.pos[|v.chain|]
    requires Chain(m2, v.chain, v.pos) && Holds(m2, v.chain, v.pos, Overlay(v.log, v.tl, src))
    requires Canonical(segs') && Collected(segs, segs', v.tl + |src|, t)
    requires Index(m2, tree, v.chain, v.pos, true, a, b)
    requires a < b ==> v.enqFrom < v.enqTo == b && a < |v.chain| && v.pos[a] <= t < v.pos[a + 1] && segs' != []
    requires v.pos[0] <= t && tailC == ChunkFor(v.chain, v.pos, t)
    ensures var v' := v.(log := Overlay(v.log, v.tl, src), tl := t, enqFrom := a, enqTo := b);
            && FifoInv(m2, v', shr.(tail := Wrap(t), tailChunk := tailC), enq.(tree := tree, cached := NULL), size, segs')
            && t !in v'.log && v.tl + |src| <= t <= v.hd + size
  {
    hide Stream, Chain, Holds, Overlay, Canonical, Collected, Index, ChunkFor, ChunkEnd, Sub, Wrap, Within, Reach;
    Facts(mem, v, shr, enq, size, segs);
    EnqueueStream(mem, m2, v.chain, v.pos, v.log, v.hd, v.tl, size, segs, src, t, segs');
    StreamFacts(m2, v.chain, v.pos, Overlay(v.log, v.tl, src), v.hd, t, size, segs');
    if a < b {
      LastCollected(segs, segs', v.tl + |src|, t);
    }
  }

  /** Where the producer's lookup starts, for f_lookup_clear_enq_chunks. */
  lemma TailIndex(mem: Memory, m: Memory, v: View, shr: Shared, enq: Lookup, size: nat, segs: seq<Interval>, src: seq<u8>, segs': seq<Interval>, t: int)
    returns (i: nat)
    requires FifoInv(mem, v, shr, enq, size, segs) && segs != [] && Copied(mem, m, v, v.tl, src) && |v.pos| == |v.chain| + 1
    requires Canonical(segs') && Collected(segs, segs', v.tl + |src|, t) && v.tl + |src| <= v.pos[|v.chain|]
    ensures i < |v.chain| && shr.tailChunk == v.chain[i] && v.pos[i] <= t <= v.pos[|v.chain|]
    ensures Index(m, enq.tree, v.chain, v.pos, true, v.enqFrom, v.enqTo) && v.enqFrom <= v.enqTo <= |v.chain|
    ensures v.enqFrom < v.enqTo ==> v.enqFrom == i && (segs' == [] ==> v.pos[v.enqTo - 1] <= t)
  {
    hide *;
    Facts(mem, v, shr, enq, size, segs);
    NonEmptyRoom(segs, segs', v.tl, v.tl + |src|, t, v.pos[|v.chain|]);
    i := TailAnchor(mem, v, shr, enq, size, segs);
    CopiedParts(mem, m, v, v.tl, src, enq.tree, v.enqFrom, v.enqTo);
    LastCollected(segs, segs', v.tl + |src|, t);
  }

  lemma TailAnchor(mem: Memory, v: View, shr: Shared, enq: Lookup, size: nat, segs: seq<Interval>) returns (i: nat)
    requires FifoInv(mem, v, shr, enq, size, segs) && |v.pos| == |v.chain| + 1 && v.tl < v.pos[|v.chain|]
    ensures i < |v.chain| && shr.tailChunk == v.chain[i] && v.pos[i] <= v.tl < v.pos[i + 1]
    ensures Index(mem, enq.tree, v.chain, v.pos, true, v.enqFrom, v.enqTo) && v.enqFrom <= v.enqTo <= |v.chain|
    ensures v.enqFrom < v.enqTo ==> v.enqFrom == i && enq.init && segs != [] && v.pos[v.enqTo - 1] <= segs[|segs| - 1].hi
  {
    hide Stream, Chain, Index, Ascending, Find, NotPast, Within, Reach;
    Facts(mem, v, shr, enq, size, segs);
    ChainAscending(mem, v.chain, v.pos);
    IndexBounds(mem, enq.tree, v.chain, v.pos, true, v.enqFrom, v.enqTo);
    i := Find(v.pos, v.tl);
    if v.enqFrom < v.enqTo {
      FindUnique(v.pos, v.tl, v.enqFrom);
    }
  }

  lemma NonEmptyRoom(segs: seq<Interval>, segs': seq<Interval>, tl: int, t: int, t': int, limit: int)
    requires Canonical(segs) && Canonical(segs') && segs != [] && Within(segs, tl + 1, limit) && tl <= t <= limit && Collected(segs, segs', t, t')
    ensures tl < limit && t <= t' <= limit
  {
    assert segs[0].lo < segs[0].hi;
    CollectBounds(segs, segs', tl, t, t', limit);
  }

  lemma NothingCollected(t: int)
    ensures Collected([], [], t, t)
  {
  }

  /** The tail's chunk; it is null exactly when the tail is at the end of the chain. */
  lemma TailChunk(mem: Memory, v: View, shr: Shared, enq: Lookup, size: nat, segs: seq<Interval>) returns (i: nat)
    requires FifoInv(mem, v, shr, enq, size, segs)
    ensures |v.pos| == |v.chain| + 1 && v.pos[0] <= v.tl && (shr.tailChunk == NULL <==> v.tl == v.pos[|v.chain|])
    ensures shr.tailChunk != NULL ==> i < |v.chain| && shr.tailChunk == v.chain[i] && v.pos[i] <= v.tl < v.pos[i + 1]
  {
    hide Stream, EnqSide, Chain, Ascending, Find;
    Facts(mem, v, shr, enq, size, segs);
    ChainAscending(mem, v.chain, v.pos);
    ChunkForNull(mem, v.chain, v.pos, v.tl);
    i := if v.tl < v.pos[|v.chain|] then Find(v.pos, v.tl) else 0;
  }

  /** Without segments there is nothing to look up. */
  lemma NoSegments(mem: Memory, v: View, shr: Shared, enq: Lookup, size: nat)
    requires FifoInv(mem, v, shr, enq, size, [])
    ensures v.enqFrom == v.enqTo && enq.cached == NULL
    ensures Index(mem, enq.tree, v.chain, v.pos, true, v.enqFrom, v.enqTo)
  {
    hide Stream, Pointers;
  }

  lemma CopiedParts(mem: Memory, m: Memory, v: View, p: int, src: seq<u8>, t: Tree, a: nat, b: nat)
    requires Copied(mem, m, v, p, src)
    ensures Chain(m, v.chain, v.pos) && OnlyFlags(m, m, v.chain, true)
    ensures Index(mem, t, v.chain, v.pos, true, a, b) ==> Index(m, t, v.chain, v.pos, true, a, b)
  {
    hide Chain, Holds, OnlyData, Index;
    if Index(mem, t, v.chain, v.pos, true, a, b) {
      DataIndex(mem, m, t, v.chain, v.pos, true, a, b);
    }
  }

  lemma CollectReady(segs: seq<Interval>, hd: int, tl: int, size: nat, n: nat)
    requires Within(segs, tl + 1, hd + size) && hd <= tl && size <= MAX_FIFO && tl + n <= hd + size
    ensures n < TWO_31 < TWO_32 && Within(segs, tl + n - n + 1, tl + n - n + TWO_31) && Within(segs, tl, tl + TWO_31 - 1)
  {
  }

  /** What f_try_chunk_alloc asks the segment for when len bytes are to fit past the tail. */
  ghost function Growth(size: nat, v: View, len: int): int
    requires |v.pos| == |v.chain| + 1
  {
    AllocSize(MinAlloc(size), size - (v.tl - v.hd), v.tl + len - v.pos[|v.chain|])
  }

  /** What a segment hands out for a request: at least what was asked for, or one chunk of 4 MB when
      more was asked for, and never more than the limit of the allocator. */
  ghost predicate Obtained(asked: int, total: int) {
    asked > 0 && (asked <= total || total == 0x40_0000 < asked) && total <= Cap(asked)
  }

  lemma ObtainedOf(a: nat, total: nat)
    requires a > 0 && (a <= total || total == MAX_SIZE < a) && total <= Cap(a)
    ensures Obtained(a, total)
  {
    hide Cap;
  }

  lemma ObtainedIs(size: nat, v: View, len: nat, a: nat, total: nat)
    requires |v.pos| == |v.chain| + 1 && a == AllocSize(MinAlloc(size), size - (v.tl - v.hd), len - (v.pos[|v.chain|] - v.tl)) && a > 0
    requires (a <= total || total == MAX_SIZE < a) && total <= Cap(a)
    ensures Obtained(Growth(size, v, len), total)
  {
    hide AllocSize, MinAlloc, Cap;
  }

  /** The chain cannot grow so that len bytes fit past the tail. */
  ghost predicate Starved(p: Supply, slice: nat, size: nat, v: View, len: int)
    requires |v.pos| == |v.chain| + 1
  {
    Supplied(p, slice) && Growth(size, v, len) > 0 && !Served(p, slice, Growth(size, v, len))
  }

  lemma StarvedIs(p: Supply, slice: nat, size: nat, v: View, len: nat, a: nat)
    requires |v.pos| == |v.chain| + 1 && a == AllocSize(MinAlloc(size), size - (v.tl - v.hd), len - (v.pos[|v.chain|] - v.tl)) && a > 0
    requires Supplied(p, slice)
    ensures Starved(p, slice, size, v, len) <==> !Served(p, slice, a)
  {
    hide Served, AllocSize, MinAlloc;
  }

  /** If the chain grows for len bytes past the tail, it grows enough: no more than the largest
      chunk is missing, or the request's own class does not serve it. */
  ghost predicate Safe(p: Supply, slice: nat, size: nat, v: View, len: int)
    requires |v.pos| == |v.chain| + 1
  {
    || v.tl + len <= v.pos[|v.chain|] + MAX_SIZE
    || (Supplied(p, slice) && Growth(size, v, len) > 0 ==> !OwnServes(p, slice, Growth(size, v, len)))
  }

  lemma SafeIs(p: Supply, slice: nat, size: nat, v: View, len: int)
    requires |v.pos| == |v.chain| + 1 && v.tl + len <= v.pos[|v.chain|] + MAX_SIZE
    ensures Safe(p, slice, size, v, len)
  {
  }

  lemma SafeFits(p: Supply, slice: nat, size: nat, v: View, len: int)
    requires |v.pos| == |v.chain| + 1 && v.tl + len <= v.pos[|v.chain|]
    ensures Safe(p, slice, size, v, len)
  {
  }

  lemma SafeBeyond(p: Supply, slice: nat, size: nat, v: View, len: nat, a: nat)
    requires |v.pos| == |v.chain| + 1 && a == AllocSize(MinAlloc(size), size - (v.tl - v.hd), len - (v.pos[|v.chain|] - v.tl)) && a > 0
    requires Supplied(p, slice) && v.tl + len > v.pos[|v.chain|] + MAX_SIZE
    ensures Safe(p, slice, size, v, len) <==> !OwnServes(p, slice, a)
  {
    hide OwnServes, Supplied, AllocSize, MinAlloc;
  }

  /** Exactly when what was allocated is enough. */
  lemma SafeGrowth(p: Supply, slice: nat, size: nat, v: View, len: nat, a: nat, total: nat)
    requires |v.pos| == |v.chain| + 1 && a == AllocSize(MinAlloc(size), size - (v.tl - v.hd), len - (v.pos[|v.chain|] - v.tl))
    requires Supplied(p, slice) && 0 < v.tl + len - v.pos[|v.chain|] <= a && (a <= MAX_SIZE || a == v.tl + len - v.pos[|v.chain|])
    requires (a <= total || total == MAX_SIZE < a) && (a <= total <==> a <= MAX_SIZE || !OwnServes(p, slice, a))
    ensures v.tl + len <= v.pos[|v.chain|] + total <==> Safe(p, slice, size, v, len)
    ensures total > 0
  {
    hide OwnServes, Supplied, AllocSize, MinAlloc;
  }

  /** With room for a refill, every growth by more than the largest chunk is too short: one
      chunk of that size is all that is handed out. */
  lemma TooLargeIsShort(p: Supply, slice: nat, size: nat, v: View, len: int)
    requires |v.pos| == |v.chain| + 1 && v.tl + len > v.pos[|v.chain|] + MAX_SIZE
    requires Supplied(p, slice) && p.byteIndex + MAX_REFILL <= p.maxByteIndex
    ensures !Safe(p, slice, size, v, len)
  {
    hide OwnServes, Supplied, MinAlloc, Served;
    RoomServes(p, slice, Growth(size, v, len));
  }

  /** How much of len bytes a growing write takes: all, or what the chain has room for when
      it cannot grow. */
  ghost predicate Takes(v: View, len: int, n: nat, p: Supply, slice: nat, size: nat)
    requires |v.pos| == |v.chain| + 1
  {
    n == if v.tl + len <= v.pos[|v.chain|] || !Starved(p, slice, size, v, len) then len else v.pos[|v.chain|] - v.tl
  }

  lemma TakesIs(v: View, len: nat, n: nat, p: Supply, slice: nat, size: nat)
    requires |v.pos| == |v.chain| + 1
    requires n == if v.tl + len <= v.pos[|v.chain|] || !Starved(p, slice, size, v, len) then len else v.pos[|v.chain|] - v.tl
    ensures Takes(v, len, n, p, slice, size)
  {
  }

  lemma TakesHas(v: View, len: nat, n: nat, p: Supply, slice: nat, size: nat)
    requires |v.pos| == |v.chain| + 1 && Takes(v, len, n, p, slice, size)
    ensures n == if v.tl + len <= v.pos[|v.chain|] || !Starved(p, slice, size, v, len) then len else v.pos[|v.chain|] - v.tl
  {
  }

  const EFULL: int := -2
  const EEMPTY: int := -3
  const EGROW: int := -4

  /** A fifo and what its segment can supply. */
  datatype Moment = Moment(v: View, left: Supply)

  /** How many of len bytes the fifo takes at its tail: as many as it has room for, or as the chain
      holds when it cannot grow, and none when it would not grow enough. */
  ghost function Taken(m: Moment, slice: nat, size: nat, len: nat): int
    requires |m.v.pos| == |m.v.chain| + 1
  {
    var v, n := m.v, Least(len, size - (m.v.tl - m.v.hd));
    if !Safe(m.left, slice, size, v, n) then 0
    else if v.tl + n <= v.pos[|v.chain|] || !Starved(m.left, slice, size, v, n) then n
    else v.pos[|v.chain|] - v.tl
  }

  lemma TakenIs(v: View, left: Supply, slice: nat, size: nat, len: nat, n: nat)
    requires |v.pos| == |v.chain| + 1
    ensures !Safe(left, slice, size, v, Least(len, size - (v.tl - v.hd))) ==> Taken(Moment(v, left), slice, size, len) == 0
    ensures Safe(left, slice, size, v, Least(len, size - (v.tl - v.hd))) && Takes(v, Least(len, size - (v.tl - v.hd)), n, left, slice, size) ==>
              Taken(Moment(v, left), slice, size, len) == n
  {
    hide Safe, Starved;
  }

  lemma FullTakes(v: View, len: nat, n: nat, p: Supply, slice: nat, size: nat, room: nat)
    requires |v.pos| == |v.chain| + 1 && Takes(v, len, n, p, slice, size) && v.tl <= v.pos[|v.chain|] && len <= room
    ensures room == 0 ==> n == 0
  {
    hide Starved;
  }

  /** Why m bytes after the tail are not taken: they reach beyond the fifo's size, or the chain
      would have to grow for them and cannot, or would not grow enough. */
  ghost predicate Refused(p: Supply, slice: nat, size: nat, v: View, m: nat) {
    || v.tl + m > v.hd + size
    || (|v.pos| == |v.chain| + 1 && v.tl + m > v.pos[|v.chain|] && (Starved(p, slice, size, v, m) || !Safe(p, slice, size, v, m)))
  }

  lemma RefusedIs(p: Supply, slice: nat, size: nat, v: View, m: nat)
    requires |v.pos| == |v.chain| + 1
    ensures Refused(p, slice, size, v, m) <==>
              || v.tl + m > v.hd + size || !Safe(p, slice, size, v, m)
              || (v.tl + m > v.pos[|v.chain|] && Starved(p, slice, size, v, m))
  {
    if v.tl + m <= v.pos[|v.chain|] {
      SafeFits(p, slice, size, v, m);
    }
  }

  /** An enqueue takes all m bytes exactly when there is no reason to refuse them. */
  lemma RefusedPart(p: Supply, slice: nat, size: nat, v: View, m: nat, n: nat)
    requires |v.pos| == |v.chain| + 1 && v.tl - v.hd <= size && v.tl <= v.pos[|v.chain|]
    requires Safe(p, slice, size, v, Least(m, size - (v.tl - v.hd))) && Takes(v, Least(m, size - (v.tl - v.hd)), n, p, slice, size)
    ensures n < m <==> Refused(p, slice, size, v, m)
    ensures n < m ==> v.tl + m > v.hd + size || (v.tl + m > v.pos[|v.chain|] && n < Least(m, size - (v.tl - v.hd)))
    ensures v.tl - v.hd == size && m > 0 ==> n < m
  {
    hide Starved, Safe;
  }

  /** What is not safe is refused. */
  lemma RefusedUnsafe(p: Supply, slice: nat, size: nat, v: View, m: nat)
    requires |v.pos| == |v.chain| + 1 && !Safe(p, slice, size, v, Least(m, size - (v.tl - v.hd)))
    ensures Refused(p, slice, size, v, m)
  {
    hide Safe;
    RefusedIs(p, slice, size, v, m);
  }

  lemma TailOpen(mem: Memory, v: View, shr: Shared, enq: Lookup, size: nat, segs: seq<Interval>)
    requires FifoInv(mem, v, shr, enq, size, segs) && v.hd <= v.tl
    ensures v.tl !in v.log && Recorded(v.log, v.hd, v.tl - v.hd)
  {
    hide Stream, Pointers, EnqSide, Recorded;
    TailUnwritten(mem, v.chain, v.pos, v.log, v.hd, v.tl, size, segs);
  }

  lemma RecordedFrom(log: Log, p: int, q: int, e: int)
    requires Recorded(log, p, e - p) && p <= q
    ensures Recorded(log, q, e - q)
  {
  }

  lemma OverlayNone(log: Log, p: int)
    ensures Overlay(log, p, []) == log
  {
  }

  /** src is written at the tail, and the tail is at the first position that is not written. */
  ghost predicate Extended(v: View, src: seq<u8>, v': View) {
    && v'.hd == v.hd && v'.log == Overlay(v.log, v.tl, src)
    && v.tl + |src| <= v'.tl && Recorded(v'.log, v.tl, v'.tl - v.tl) && v'.tl !in v'.log
  }

  /** What an enqueue of src at the tail does to a fifo, from view v0 and segments segs0 to v and
      segs, with result r: it is full, or not even a byte fits and it cannot grow, or n bytes
      are written and the tail is at the first position not written. */
  ghost predicate Outcome(v0: View, segs0: seq<Interval>, p: Supply, slice: nat, size: nat, src: seq<u8>,
                          r: int, n: nat, v: View, segs: seq<Interval>)
    requires |v0.pos| == |v0.chain| + 1
  {
    var room := size - (v0.tl - v0.hd);
    && n <= |src| && Takes(v0, Least(|src|, room), n, p, slice, size)
    && (r == EFULL <==> room == 0) && (r == EGROW <==> room > 0 && src != [] && n == 0)
    && (r < 0 ==> (r == EFULL || r == EGROW) && v == v0 && segs == segs0)
    && (r >= 0 ==> EnqueuedAs(v0, segs0, src[..n], r, v, segs))
    && ChainGrows(v0, v, Least(|src|, room), n)
  }

  /** An enqueue has written what the fifo takes. */
  lemma OutcomeExtends(mem0: Memory, shr0: Shared, enq0: Lookup, mem: Memory, shr: Shared, enq: Lookup, v0: View, segs0: seq<Interval>, p: Supply, slice: nat, size: nat,
                       src: seq<u8>, r: int, n: nat, v: View, segs: seq<Interval>)
    requires FifoInv(mem0, v0, shr0, enq0, size, segs0) && FifoInv(mem, v, shr, enq, size, segs) && |v0.pos| == |v0.chain| + 1 && v0.tl - v0.hd <= size
    requires Outcome(v0, segs0, p, slice, size, src, r, n, v, segs)
    ensures n <= |src| && Extended(v0, src[..n], v)
  {
    hide *;
    OutcomeHas(v0, segs0, p, slice, size, src, r, n, v, segs);
    Facts(mem0, v0, shr0, enq0, size, segs0);
    Facts(mem, v, shr, enq, size, segs);
    TailOpen(mem0, v0, shr0, enq0, size, segs0);
    TailOpen(mem, v, shr, enq, size, segs);
    LeastIs(|src|, size - (v0.tl - v0.hd));
    if r >= 0 {
      RecordedFrom(v.log, v.hd, v0.tl, v.tl);
      ExtendedIs(v0, src[..n], v);
    } else {
      Errors();
      if v0.tl - v0.hd == size { FullTakes(v0, Least(|src|, 0), n, p, slice, size, 0); }
      assert src[..n] == [];
      ExtendedNone(v0);
    }
  }

  lemma ExtendedNone(v: View)
    requires v.tl !in v.log
    ensures Extended(v, [], v)
  {
    OverlayNone(v.log, v.tl);
  }

  lemma ExtendedIs(v: View, src: seq<u8>, v': View)
    requires v'.hd == v.hd && v'.log == Overlay(v.log, v.tl, src)
    requires v.tl + |src| <= v'.tl && Recorded(v'.log, v.tl, v'.tl - v.tl) && v'.tl !in v'.log
    ensures Extended(v, src, v')
  {
  }

  /** The bytes of src are written at the tail, and the tail has moved by r to the first
      position that is not written. */
  ghost predicate EnqueuedAs(v0: View, segs0: seq<Interval>, src: seq<u8>, r: int, v: View, segs: seq<Interval>) {
    && |src| <= r && v.log == Overlay(v0.log, v0.tl, src) && v.hd == v0.hd && v.tl == v0.tl + r && v.tl !in v.log
    && Collected(segs0, segs, v0.tl + |src|, v.tl)
  }

  /** The chain keeps its chunks, and gains none when it has room for all len bytes or for only
      n of them in the end. */
  ghost predicate ChainGrows(v0: View, v: View, len: int, n: nat)
    requires |v0.pos| == |v0.chain| + 1
  {
    v0.chain <= v.chain && v0.pos <= v.pos && (v0.tl + len <= v0.pos[|v0.chain|] || n < len ==> v.chain == v0.chain && v.pos == v0.pos)
  }

  lemma ChainGrowsIs(v0: View, v: View, len: int, n: nat)
    requires |v0.pos| == |v0.chain| + 1 && v0.chain <= v.chain && v0.pos <= v.pos
    requires v0.tl + len <= v0.pos[|v0.chain|] || n < len ==> v.chain == v0.chain && v.pos == v0.pos
    ensures ChainGrows(v0, v, len, n)
  {
  }

  lemma ChainStays(v: View, len: int, n: nat)
    requires |v.pos| == |v.chain| + 1
    ensures ChainGrows(v, v, len, n)
  {
  }

  lemma EnqueuedIs(v0: View, segs0: seq<Interval>, src: seq<u8>, r: int, v: View, segs: seq<Interval>)
    requires |src| <= r && v.log == Overlay(v0.log, v0.tl, src) && v.hd == v0.hd && v.tl == v0.tl + r && v.tl !in v.log
    requires Collected(segs0, segs, v0.tl + |src|, v.tl)
    ensures EnqueuedAs(v0, segs0, src, r, v, segs)
  {
  }

  lemma OutcomeIs(v0: View, segs0: seq<Interval>, p: Supply, slice: nat, size: nat, src: seq<u8>,
                  r: int, n: nat, v: View, segs: seq<Interval>)
    requires |v0.pos| == |v0.chain| + 1 && n <= |src| && Takes(v0, Least(|src|, size - (v0.tl - v0.hd)), n, p, slice, size)
    requires r == EFULL <==> v0.tl - v0.hd == size
    requires r == EGROW <==> v0.tl - v0.hd < size && src != [] && n == 0
    requires r < 0 ==> (r == EFULL || r == EGROW) && v == v0 && segs == segs0
    requires r >= 0 ==> EnqueuedAs(v0, segs0, src[..n], r, v, segs)
    requires v0.tl - v0.hd <= size && ChainGrows(v0, v, Least(|src|, size - (v0.tl - v0.hd)), n)
    ensures Outcome(v0, segs0, p, slice, size, src, r, n, v, segs)
  {
    hide Takes, EnqueuedAs, ChainGrows;
  }

  lemma OutcomeHas(v0: View, segs0: seq<Interval>, p: Supply, slice: nat, size: nat, src: seq<u8>,
                   r: int, n: nat, v: View, segs: seq<Interval>)
    requires |v0.pos| == |v0.chain| + 1 && Outcome(v0, segs0, p, slice, size, src, r, n, v, segs) && v0.tl - v0.hd <= size
    ensures n <= |src| && Takes(v0, Least(|src|, size - (v0.tl - v0.hd)), n, p, slice, size)
    ensures r == EFULL <==> v0.tl - v0.hd == size
    ensures r == EGROW <==> v0.tl - v0.hd < size && src != [] && n == 0
    ensures r < 0 ==> (r == EFULL || r == EGROW) && v == v0 && segs == segs0
    ensures r >= 0 ==> n <= r && v.log == Overlay(v0.log, v0.tl, src[..n]) && v.hd == v0.hd && v.tl == v0.tl + r && v.tl !in v.log
    ensures r >= 0 ==> Collected(segs0, segs, v0.tl + n, v.tl)
    ensures v0.chain <= v.chain && v0.pos <= v.pos
    ensures v0.tl + Least(|src|, size - (v0.tl - v0.hd)) <= v0.pos[|v0.chain|] || n < Least(|src|, size - (v0.tl - v0.hd)) ==>
              v.chain == v0.chain && v.pos == v0.pos
  {
    hide Takes, Collected, Overlay;
  }

  /** An enqueue has only one outcome: from the same fifo and the same supply, the same bytes
      give the same result, the same log, head and tail and the same segments, however they
      come into the chunks. */
  lemma OutcomeUnique(v0: View, segs0: seq<Interval>, p: Supply, slice: nat, size: nat, src: seq<u8>,
                      r1: int, n1: nat, v1: View, segs1: seq<Interval>, r2: int, n2: nat, v2: View, segs2: seq<Interval>)
    requires |v0.pos| == |v0.chain| + 1 && v0.tl - v0.hd <= size && Canonical(segs1) && Canonical(segs2)
    requires Outcome(v0, segs0, p, slice, size, src, r1, n1, v1, segs1) && Outcome(v0, segs0, p, slice, size, src, r2, n2, v2, segs2)
    ensures r1 == r2 && n1 == n2 && segs1 == segs2
    ensures v1.log == v2.log && v1.hd == v2.hd && v1.tl == v2.tl
    ensures var len := Least(|src|, size - (v0.tl - v0.hd));
            v0.tl + len <= v0.pos[|v0.chain|] || n1 < len ==> v1.chain == v2.chain && v1.pos == v2.pos
  {
    hide Collected, Overlay, Starved, Canonical;
    if r1 >= 0 && r2 >= 0 {
      CollectedUnique(segs0, v0.tl + n1, v1.tl, segs1, v2.tl, segs2);
    }
  }

  /** The comparison that decides whether the chain must grow. */
  lemma NeedsRoom(tl: int, n: nat, end: int, hd: int, size: nat)
    requires hd <= tl <= end && tl + n <= hd + size && size <= MAX_FIFO && end - hd <= Reach(size)
    ensures n < TWO_32 && (PosGt(Add(Wrap(tl), n), Wrap(end)) <==> tl + n > end)
  {
    AddWraps(tl, n);
    Compare(tl + n, end);
  }

  lemma LeastIs(a: int, b: int)
    ensures Least(a, b) <= a && Least(a, b) <= b && (Least(a, b) == a || Least(a, b) == b)
  {
  }

  lemma Errors()
    ensures EFULL == -2 && EEMPTY == -3 && EGROW == -4
  {
  }

  lemma CopiedIs(mem: Memory, m: Memory, v: View, p: int, src: seq<u8>)
    requires |v.pos| == |v.chain| + 1
    requires Chain(m, v.chain, v.pos) && Holds(m, v.chain, v.pos, Overlay(v.log, p, src)) && OnlyData(mem, m, v.chain)
    ensures Copied(mem, m, v, p, src)
  {
  }

  /** A run of the enqueue tree that starts at the tail's chunk and is the old one or ends by e. */
  ghost predicate Anchored(v: View, init: bool, a: nat, b: nat, e: int) {
    a < b ==> && init && b <= |v.chain| < |v.pos| && v.pos[a] <= v.tl < v.pos[a + 1]
              && (v.pos[b - 1] <= e || (v.enqFrom < v.enqTo && b == v.enqTo))
  }

  lemma AnchoredOld(mem: Memory, v: View, shr: Shared, enq: Lookup, size: nat, segs: seq<Interval>, e: int)
    requires FifoInv(mem, v, shr, enq, size, segs)
    ensures Anchored(v, enq.init, v.enqFrom, v.enqTo, e)
  {
    hide Stream, Pointers, TreeIs, Flags;
  }

  /** The cached chunk is the chunk of position p exactly when it includes it. */
  lemma CachedIs(mem: Memory, v: View, shr: Shared, enq: Lookup, size: nat, segs: seq<Interval>, p: int)
    requires FifoInv(mem, v, shr, enq, size, segs) && |v.pos| == |v.chain| + 1 && v.tl < p < v.pos[|v.chain|] && enq.cached != NULL
    ensures enq.cached in mem && v.pos[0] <= p && v.chain != []
    ensures IncludesPos(mem[enq.cached], Wrap(p)) ==> enq.cached == ChunkFor(v.chain, v.pos, p)
  {
    hide Stream, Chain, Index, Ascending, IncludesPos, Within, Reach, ChunkFor, Pointers;
    Facts(mem, v, shr, enq, size, segs);
    var j: nat :| j < |v.chain| && j + 1 < |v.pos| && v.chain[j] == enq.cached && v.tl < v.pos[j + 1];
    ChainAt(mem, v.chain, v.pos, j);
    Includes(mem, v.chain, v.pos, j, p);
    if IncludesPos(mem[enq.cached], Wrap(p)) {
      ChunkForIs(mem, v.chain, v.pos, j, p);
    }
  }

  lemma AnchoredRun(v: View, init: bool, i: nat, b: nat, e: int)
    requires init && i < b <= |v.chain| < |v.pos| && v.pos[i] <= v.tl < v.pos[i + 1]
    requires v.enqFrom == v.enqTo || v.enqTo < b ==> v.pos[b - 1] <= e
    requires v.enqFrom <= v.enqTo && (v.enqFrom < v.enqTo ==> v.enqTo <= b)
    ensures Anchored(v, init, i, b, e)
  {
  }

  /** The lookup of svm_fifo_enqueue_with_offset and f_update_ooo_enq: the cached chunk, a
      scan from the tail's chunk or the lookup tree, all of which find the chunk of position p. */
  method LookupEnq(mem0: Memory, shr: Shared, enq: Lookup, startPos: u32, endPos: u32,
                   ghost v: View, ghost size: nat, ghost segs: seq<Interval>, ghost p: int, ghost e: int)
    returns (mem: Memory, t: Tree, c: Sptr, ghost a: nat, ghost b: nat)
    requires FifoInv(mem0, v, shr, enq, size, segs) && |v.pos| == |v.chain| + 1
    requires v.tl < p <= e <= v.pos[|v.chain|] && p < v.pos[|v.chain|] && startPos == Wrap(p) && endPos == Wrap(e)
    ensures Chain(mem, v.chain, v.pos) && OnlyFlags(mem0, mem, v.chain, true) && v.pos[0] <= p && c == ChunkFor(v.chain, v.pos, p)
    ensures Index(mem, t, v.chain, v.pos, true, a, b) && Anchored(v, enq.init, a, b, e)
  {
    hide *;
    Facts(mem0, v, shr, enq, size, segs);
    ghost var i := TailAnchor(mem0, v, shr, enq, size, segs);
    AnchoredOld(mem0, v, shr, enq, size, segs, e);
    OnlyFlagsRefl(mem0, v.chain, true);
    mem, t, c, a, b := mem0, enq.tree, enq.cached, v.enqFrom, v.enqTo;
    if c != NULL {
      CachedIs(mem0, v, shr, enq, size, segs, p);
    }
    if c == NULL || !IncludesPos(mem[c], startPos) {
      if !enq.init {
        c := FindNextChunk(mem, shr.tailChunk, startPos, v.chain, v.pos, i, p);
      } else {
        mem, t, c, a, b := UpdateLookup(mem, t, true, shr.tailChunk, startPos, endPos, v.chain, v.pos, a, b, i, p, e);
        IndexBounds(mem, t, v.chain, v.pos, true, a, b);
        AnchoredRun(v, enq.init, i, b, e);
      }
    }
  }

  lemma OffsetState(mem: Memory, m1: Memory, m2: Memory, v: View, shr: Shared, enq: Lookup, deq: Lookup, size: nat, segs: seq<Interval>,
                    p: int, src: seq<u8>, segs': seq<Interval>, tree: Tree, a: nat, b: nat, cached: Sptr)
    requires FifoInv(mem, v, shr, enq, size, segs) && DeqInv(mem, v, deq) && |v.pos| == |v.chain| + 1
    requires v.tl < p && src != [] && p + |src| <= v.hd + size && p + |src| <= v.pos[|v.chain|]
    requires Chain(m1, v.chain, v.pos) && OnlyFlags(mem, m1, v.chain, true) && Copied(m1, m2, v, p, src)
    requires Canonical(segs') && Added(segs, segs', p, p + |src|)
    requires Index(m1, tree, v.chain, v.pos, true, a, b) && Anchored(v, enq.init, a, b, p + |src|)
    requires v.pos[0] <= p && cached == ChunkFor(v.chain, v.pos, p + |src|)
    ensures var v' := v.(log := Overlay(v.log, p, src), enqFrom := a, enqTo := b);
            && FifoInv(m2, v', shr, enq.(tree := tree, cached := cached), size, segs')
            && DeqInv(m2, v', deq) && OwnWrite(mem, m2, v.chain)
  {
    hide Stream, Pointers, Chain, Holds, Overlay, OnlyData, OnlyFlags, Canonical, Added, Index, ChunkFor, OwnWrite, NotPast;
    Facts(mem, v, shr, enq, size, segs);
    OffsetStream(mem, m2, v.chain, v.pos, v.log, v.hd, v.tl, size, segs, p, src, segs');
    DataIndex(m1, m2, tree, v.chain, v.pos, true, a, b);
    OtherIndex(mem, m1, deq.tree, v.chain, v.pos, true, 0, v.deqTo);
    DataIndex(m1, m2, deq.tree, v.chain, v.pos, false, 0, v.deqTo);
    FlagsOwn(mem, m1, v.chain, true);
    DataOwn(m1, m2, v.chain, v.pos);
    OwnWriteTrans(mem, m1, m2, v.chain);
    LastAdded(segs, segs', p, p + |src|);
    IndexBounds(m2, tree, v.chain, v.pos, true, a, b);
    if cached != NULL {
      ChunkForNotPast(m2, v.chain, v.pos, p + |src|, v.tl);
    }
  }

  lemma ChunkForNotPast(mem: Memory, chain: seq<Sptr>, pos: seq<int>, p: int, tl: int)
    requires Chain(mem, chain, pos) && pos[0] <= p && ChunkFor(chain, pos, p) != NULL && tl <= p
    ensures NotPast(chain, pos, ChunkFor(chain, pos, p), tl)
  {
    hide Chain;
    ChainAscending(mem, chain, pos);
    var i := Find(pos, p);
    assert chain[i] == ChunkFor(chain, pos, p);
  }

  lemma FlagsHold(mem: Memory, m: Memory, v: View, shr: Shared, enq: Lookup, size: nat, segs: seq<Interval>)
    requires FifoInv(mem, v, shr, enq, size, segs) && OnlyFlags(mem, m, v.chain, true)
    ensures |v.chain| <= |v.pos| && Holds(m, v.chain, v.pos, v.log)
  {
    hide OnlyFlags, Holds, EnqSide, Pointers;
    Facts(mem, v, shr, enq, size, segs);
    OnlyFlagsHolds(mem, m, v.chain, v.pos, v.log, true);
  }

  lemma Located(mem: Memory, v: View, p: int) returns (i: nat)
    requires Chain(mem, v.chain, v.pos) && |v.pos| == |v.chain| + 1 && v.pos[0] <= p < v.pos[|v.chain|]
    ensures i < |v.chain| && ChunkFor(v.chain, v.pos, p) == v.chain[i] && v.pos[i] <= p < v.pos[i + 1]
  {
    hide Chain;
    i := Find(v.pos, p);
  }

  /** The bytes of a list of buffers, one after the other. */
  function Concat(bufs: seq<seq<u8>>): seq<u8> {
    if bufs == [] then [] else Concat(bufs[..|bufs| - 1]) + bufs[|bufs| - 1]
  }

  /** The buffers before the j-th and a part of the j-th are a prefix of them all. */
  lemma {:induction false} ConcatPart(bufs: seq<seq<u8>>, j: nat, k: nat)
    requires j < |bufs| && k <= |bufs[j]|
    ensures |Concat(bufs[..j])| + k <= |Concat(bufs)|
    ensures Concat(bufs)[..|Concat(bufs[..j])| + k] == Concat(bufs[..j]) + bufs[j][..k]
    ensures k == |bufs[j]| ==> Concat(bufs[..j]) + bufs[j][..k] == Concat(bufs[..j + 1])
    decreases |bufs|
  {
    assert bufs[..j + 1][..j] == bufs[..j];
    assert bufs[j][..|bufs[j]|] == bufs[j];
    if j < |bufs| - 1 {
      var front := bufs[..|bufs| - 1];
      ConcatPart(front, j, k);
      assert front[..j] == bufs[..j];
    }
  }

  lemma CopiedNothing(mem: Memory, v: View, shr: Shared, enq: Lookup, size: nat, segs: seq<Interval>)
    requires FifoInv(mem, v, shr, enq, size, segs)
    ensures Copied(mem, mem, v, v.tl, []) && v.chain != [] && |v.pos| == |v.chain| + 1 && v.pos[0] <= v.tl
    ensures shr.tailChunk == ChunkFor(v.chain, v.pos, v.tl)
  {
    hide EnqSide, Chain, ChunkFor;
    Facts(mem, v, shr, enq, size, segs);
    assert Overlay(v.log, v.tl, []) == v.log;
  }

  lemma CopiedMore(mem: Memory, m: Memory, m': Memory, v: View, p: int, src: seq<u8>, more: seq<u8>)
    requires Copied(mem, m, v, p, src) && |v.pos| == |v.chain| + 1
    requires Chain(m', v.chain, v.pos) && Holds(m', v.chain, v.pos, Overlay(Overlay(v.log, p, src), p + |src|, more)) && OnlyData(m, m', v.chain)
    ensures Copied(mem, m', v, p, src + more)
  {
    hide Chain, Holds, OnlyData, Overlay;
    OverlayAppend(v.log, p, src, more);
    OnlyDataTransitive(mem, m, m', v.chain);
  }

  /** The copy loops of svm_fifo_enqueue_segments: n bytes of the buffers, from the tail on. */
  method CopyBuffers(mem: Memory, tailC0: Sptr, tail0: u32, bufs: seq<seq<u8>>, n: nat, ghost v: View, ghost p: int)
    returns (m: Memory, tailC: Sptr)
    requires |v.pos| == |v.chain| + 1 && v.chain != [] && v.pos[0] <= p && p + n <= v.pos[|v.chain|] && tail0 == Wrap(p)
    requires Copied(mem, mem, v, p, []) && tailC0 == ChunkFor(v.chain, v.pos, p)
    requires n <= |Concat(bufs)| && (forall i :: 0 <= i < |bufs| ==> bufs[i] != [])
    ensures Copied(mem, m, v, p, Concat(bufs)[..n]) && tailC == ChunkFor(v.chain, v.pos, p + n)
  {
    hide Copied, ChunkFor, Chain, Holds, OnlyData, Overlay, Concat;
    m, tailC := mem, tailC0;
    var tail, left, i := tail0, n, 0;
    ghost var done: seq<u8> := [];
    ConcatNone(bufs);
    while left > 0
      invariant 0 <= left <= n && i <= |bufs| && tail == Wrap(p + n - left) && |done| == n - left
      invariant Copied(mem, m, v, p, done) && tailC == ChunkFor(v.chain, v.pos, p + n - left)
      invariant done == Concat(bufs)[..n - left] && (left > 0 ==> done == Concat(bufs[..i]))
    {
      ConcatLeft(bufs, i);
      var k := if |bufs[i]| < left then |bufs[i]| else left;
      ConcatPart(bufs, i, k);
      CopiedOpen(mem, m, v, p, done);
      ghost var j := Located(m, v, p + |done|);
      var m', moved, last := CopyToChunk(m, tailC, tail, bufs[i][..k], v.chain, v.pos, Overlay(v.log, p, done), j, p + |done|);
      CopiedMore(mem, m, m', v, p, done, bufs[i][..k]);
      AddWraps(p + |done|, k);
      done := done + bufs[i][..k];
      m, tailC, tail := m', if moved then last else tailC, Add(tail, k);
      left, i := left - k, i + 1;
    }
  }

  lemma ConcatNone(bufs: seq<seq<u8>>)
    ensures Concat(bufs[..0]) == []
  {
  }

  lemma ConcatLeft(bufs: seq<seq<u8>>, i: nat)
    requires i <= |bufs| && |Concat(bufs[..i])| < |Concat(bufs)|
    ensures i < |bufs|
  {
    assert bufs[..|bufs|] == bufs;
  }

  lemma CopiedOpen(mem: Memory, m: Memory, v: View, p: int, src: seq<u8>)
    requires Copied(mem, m, v, p, src)
    ensures Chain(m, v.chain, v.pos) && |v.pos| == |v.chain| + 1 && Holds(m, v.chain, v.pos, Overlay(v.log, p, src))
  {
  }

  /** The loop that adds up the buffers. */
  method TotalBytes(bufs: seq<seq<u8>>) returns (n: nat)
    ensures n == |Concat(bufs)|
  {
    n := 0;
    var i := 0;
    while i < |bufs|
      invariant i <= |bufs| && n == |Concat(bufs[..i])|
    {
      assert bufs[..i + 1][..i] == bufs[..i];
      n := n + |bufs[i]|;
      i := i + 1;
    }
    assert bufs[..i] == bufs;
  }

  lemma ConcatEmpty(bufs: seq<seq<u8>>)
    requires forall i :: 0 <= i < |bufs| ==> bufs[i] != []
    ensures |Concat(bufs)| == 0 <==> bufs == []
  {
  }

  /** With segments beyond the tail, the tail is inside the chain. */
  lemma SegmentsTail(mem: Memory, v: View, shr: Shared, enq: Lookup, size: nat, segs: seq<Interval>)
    requires FifoInv(mem, v, shr, enq, size, segs)
    ensures segs != [] ==> shr.tailChunk != NULL
  {
    hide EnqSide, Chain, Find;
    Facts(mem, v, shr, enq, size, segs);
    ChunkForNull(mem, v.chain, v.pos, v.tl);
    if segs != [] {
      assert segs[0].lo < segs[0].hi;
    }
  }

  /** The memory after the first k chunks have been cut off. */
  ghost function CutOff(mem: Memory, chain: seq<Sptr>, k: nat): Memory
    requires k < |chain| && (k > 0 ==> chain[k - 1] in mem)
  {
    if k == 0 then mem else Cut(mem, chain, k)
  }

  /** The view after the head has advanced to e and the first k chunks are gone. */
  ghost function Dropped(v: View, k: nat, e: int, d: nat): View
    requires k <= |v.chain| && k <= |v.pos|
  {
    v.(chain := v.chain[k..], pos := v.pos[k..], hd := e, deqTo := d,
       enqFrom := if v.enqFrom < v.enqTo && k <= v.enqFrom then v.enqFrom - k else 0,
       enqTo := if v.enqFrom < v.enqTo && k <= v.enqTo then v.enqTo - k else 0)
  }

  /** The k-th chunk is the one that f_unlink_chunks keeps as the first for head position e. */
  ghost predicate KeptFrom(v: View, k: nat, e: int) {
    k < |v.chain| && |v.pos| == |v.chain| + 1 && v.pos[k] <= e <= v.pos[k + 1] && (e == v.pos[k + 1] ==> k == |v.chain| - 1)
  }

  lemma CutOffChain(mem: Memory, v: View, k: nat)
    requires Chain(mem, v.chain, v.pos) && k < |v.chain|
    ensures k > 0 ==> v.chain[k - 1] in mem
    ensures var m := CutOff(mem, v.chain, k);
            && Chain(m, v.chain[k..], v.pos[k..]) && OwnWrite(mem, m, v.chain) && m.Keys == mem.Keys
            && (forall x :: x in mem ==> m[x].enq == mem[x].enq && m[x].deq == mem[x].deq)
            && (k > 0 ==> ListOk(m, v.chain[0], v.chain[..k]))
    ensures v.chain == v.chain[..k] + v.chain[k..]
  {
    hide Chain, ListOk;
    assert v.chain[0..] == v.chain && v.pos[0..] == v.pos;
    if k > 0 {
      ChainAt(mem, v.chain, v.pos, k - 1);
      Unlinked(mem, v.chain, v.pos, k);
      CutList(mem, v.chain, v.pos, k);
    }
  }

  lemma CutOffHolds(mem: Memory, v: View, k: nat)
    requires Chain(mem, v.chain, v.pos) && Holds(mem, v.chain, v.pos, v.log) && k < |v.chain|
    ensures k > 0 ==> v.chain[k - 1] in mem
    ensures Holds(CutOff(mem, v.chain, k), v.chain[k..], v.pos[k..], v.log)
  {
    hide Chain, Holds;
    ChainAscending(mem, v.chain, v.pos);
    assert v.chain[0..] == v.chain && v.pos[0..] == v.pos;
    if k > 0 {
      UnlinkedHolds(mem, v.chain, v.pos, v.log, k);
    }
  }

  lemma DroppedStream(mem: Memory, m1: Memory, v: View, shr: Shared, enq: Lookup, size: nat, segs: seq<Interval>, k: nat, e: int)
    requires FifoInv(mem, v, shr, enq, size, segs) && OnlyFlags(mem, m1, v.chain, false) && Chain(m1, v.chain, v.pos)
    requires KeptFrom(v, k, e) && v.hd <= e <= v.tl
    ensures k > 0 ==> v.chain[k - 1] in m1
    ensures Stream(CutOff(m1, v.chain, k), v.chain[k..], v.pos[k..], v.log, e, v.tl, size, segs)
  {
    hide EnqSide, Pointers, Chain, Holds, OnlyFlags, CutOff;
    Facts(mem, v, shr, enq, size, segs);
    OnlyFlagsHolds(mem, m1, v.chain, v.pos, v.log, false);
    CutOffChain(m1, v, k);
    CutOffHolds(m1, v, k);
    DroppedBounds(mem, CutOff(m1, v.chain, k), v, size, segs, k, e);
  }

  lemma DroppedBounds(mem: Memory, m: Memory, v: View, size: nat, segs: seq<Interval>, k: nat, e: int)
    requires Stream(mem, v.chain, v.pos, v.log, v.hd, v.tl, size, segs) && KeptFrom(v, k, e) && v.hd <= e <= v.tl
    requires Chain(m, v.chain[k..], v.pos[k..]) && Holds(m, v.chain[k..], v.pos[k..], v.log)
    ensures Stream(m, v.chain[k..], v.pos[k..], v.log, e, v.tl, size, segs)
  {
    if k > 0 {
      UnlinkedStream(mem, m, v.chain, v.pos, v.log, v.hd, v.tl, size, segs, k, e);
    } else {
      assert v.chain[0..] == v.chain && v.pos[0..] == v.pos;
    }
  }

  /** The fifo after the head has advanced past k chunks and they have been collected. */
  lemma DroppedState(mem: Memory, m1: Memory, m: Memory, v: View, shr: Shared, enq: Lookup, size: nat, segs: seq<Interval>,
                     k: nat, e: int, d: nat, headC: Sptr)
    requires FifoInv(mem, v, shr, enq, size, segs) && OnlyFlags(mem, m1, v.chain, false) && Chain(m1, v.chain, v.pos)
    requires KeptFrom(v, k, e) && v.hd <= e <= v.tl && (k > 0 ==> v.chain[k - 1] in m1)
    requires SameOn(CutOff(m1, v.chain, k), m, v.chain[k..])
    requires headC == NULL || (v.pos[0] <= e && headC == ChunkFor(v.chain, v.pos, e))
    ensures FifoInv(m, Dropped(v, k, e, d), shr.(startChunk := v.chain[k], headChunk := headC, head := Wrap(e)), enq, size, segs)
  {
    hide Stream, EnqSide, Pointers, Chain, OnlyFlags, CutOff, ChunkFor, SameOn;
    Facts(mem, v, shr, enq, size, segs);
    var mc := CutOff(m1, v.chain, k);
    CutOffChain(m1, v, k);
    DroppedStream(mem, m1, v, shr, enq, size, segs, k, e);
    SameStream(mc, m, v.chain[k..], v.pos[k..], v.log, e, v.tl, size, segs);
    UnlinkedPointers(m1, mc, v.chain, v.pos, v.hd, v.tl, shr.startChunk, shr.endChunk, shr.headChunk, shr.tailChunk, shr.head, shr.tail, k, e, headC);
    DroppedEnq(mem, m1, mc, v, enq, segs, k, e);
    SameSides(mc, m, enq.tree, enq.init, enq.tree, enq.init, v.chain[k..], v.pos[k..], Dropped(v, k, e, d).enqFrom, Dropped(v, k, e, d).enqTo, 0,
              v.tl, segs, enq.cached, NULL);
  }

  lemma DroppedEnq(mem: Memory, m1: Memory, mc: Memory, v: View, enq: Lookup, segs: seq<Interval>, k: nat, e: int)
    requires EnqSide(mem, enq.tree, enq.init, v.chain, v.pos, v.enqFrom, v.enqTo, v.tl, segs, enq.cached)
    requires Chain(mem, v.chain, v.pos) && OnlyFlags(mem, m1, v.chain, false) && KeptFrom(v, k, e) && e <= v.tl
    requires m1.Keys == mc.Keys && (forall x :: x in m1 ==> mc[x].enq == m1[x].enq)
    ensures EnqSide(mc, enq.tree, enq.init, v.chain[k..], v.pos[k..], Dropped(v, k, e, 0).enqFrom, Dropped(v, k, e, 0).enqTo, v.tl, segs, enq.cached)
  {
    hide EnqSide, Chain;
    forall x | x in mem ensures x in mc && mc[x].enq == mem[x].enq {
      assert SetFlag(m1[x], false, false) == SetFlag(mem[x], false, false);
    }
    UnlinkedEnq(mem, mc, enq.tree, enq.init, v.chain, v.pos, v.enqFrom, v.enqTo, v.tl, segs, enq.cached, k);
  }

  /** The consumer's lookup after the first k chunks are gone. */
  lemma DroppedDeq(m1: Memory, m: Memory, v: View, deq: Lookup, a: nat, k: nat, e: int)
    requires Chain(m1, v.chain, v.pos) && DeqReady(m1, v, deq, a, k) && k < |v.chain|
    requires k > 0 ==> v.chain[k - 1] in m1
    requires SameOn(CutOff(m1, v.chain, k), m, v.chain[k..])
    ensures k <= |v.pos| && DeqInv(m, Dropped(v, k, e, if a < v.deqTo && k <= v.deqTo then v.deqTo - k else 0), deq)
  {
    hide Chain, Index, SameOn, CutOff, Ascending, NoRepeats, OwnWrite, ListOk;
    var b := v.deqTo;
    ChainAscending(m1, v.chain, v.pos);
    IndexBounds(m1, deq.tree, v.chain, v.pos, false, a, b);
    CutOffFlags(m1, v, k);
    UnlinkedIndex(m1, CutOff(m1, v.chain, k), deq.tree, v.chain, v.pos, false, a, b, k);
    SameIndex(CutOff(m1, v.chain, k), m, deq.tree, v.chain[k..], v.pos[k..], false, 0, if a < b then b - k else 0);
  }

  lemma CutOffFlags(mem: Memory, v: View, k: nat)
    requires k < |v.chain| && (k > 0 ==> v.chain[k - 1] in mem)
    ensures forall x :: x in mem ==> x in CutOff(mem, v.chain, k) && Flag(CutOff(mem, v.chain, k)[x], false) == Flag(mem[x], false)
  {
  }

  /** The check whether f_unlink_chunks may keep the cached chunk. */
  lemma CachedKept(mem: Memory, v: View, cached: Sptr, k: nat)
    requires Chain(mem, v.chain, v.pos) && k < |v.chain| && cached in v.chain
    ensures cached in mem && v.chain[k] in mem
    ensures !PosLt(mem[cached].start, ChunkEnd(mem[v.chain[k]])) ==> cached in v.chain[k..]
  {
    hide Chain, PosLt, ChunkEnd;
    ChainAscending(mem, v.chain, v.pos);
    var j :| 0 <= j < |v.chain| && v.chain[j] == cached;
    ChainAt(mem, v.chain, v.pos, j);
    ChainAt(mem, v.chain, v.pos, k);
    Includes(mem, v.chain, v.pos, k, v.pos[0]);
    StartBefore(v.pos[j], v.pos[k + 1]);
    if j >= k {
      assert v.chain[k..][j - k] == cached;
    }
  }

  lemma StartBefore(a: int, b: int)
    requires -TWO_31 < a - b < TWO_31
    ensures PosLt(Wrap(a), Wrap(b)) <==> a < b
  {
    Compare(a, b);
  }

  lemma CutOffIs(mem: Memory, v: View, k: nat)
    requires k < |v.chain| && (k > 0 ==> v.chain[k - 1] in mem)
    ensures CutOff(mem, v.chain, k) == if k == 0 then mem else mem[v.chain[k - 1] := mem[v.chain[k - 1]].(next := NULL)]
    ensures k == 0 ==> v.chain[k..] == v.chain && v.chain[..k] == [] && forall place :: Freed(place, v.chain[..k])
  {
  }

  lemma SameOnRefl(mem: Memory, chain: seq<Sptr>, pos: seq<int>)
    requires Chain(mem, chain, pos)
    ensures SameOn(mem, mem, chain)
  {
    forall x | x in chain ensures x in mem {
      var i :| 0 <= i < |chain| && chain[i] == x;
      ChainAt(mem, chain, pos, i);
    }
  }

  /** The dequeue tree indexes a run that starts at the chunk of position e, if any. */
  ghost predicate InitRun(mem: Memory, deq: Lookup, v: View, a: nat, e: int) {
    && Index(mem, deq.tree, v.chain, v.pos, false, a, v.deqTo)
    && (a < v.deqTo ==> deq.init && |v.pos| > a + 1 && v.pos[a] <= e && (e < v.pos[a + 1] || a == |v.chain| - 1))
  }

  lemma DeqParts(mem: Memory, v: View, deq: Lookup)
    requires DeqInv(mem, v, deq)
    ensures Index(mem, deq.tree, v.chain, v.pos, false, 0, v.deqTo) && (v.deqTo > 0 ==> deq.init) && (deq.cached == NULL || deq.cached in v.chain)
  {
  }

  lemma KeptIs(mem: Memory, v: View, k: nat, e: int)
    requires Chain(mem, v.chain, v.pos) && k < |v.chain| && v.pos[k] <= e <= v.pos[k + 1] && (e == v.pos[k + 1] ==> k == |v.chain| - 1)
    ensures KeptFrom(v, k, e) && k <= |v.pos|
  {
  }

  lemma RunStart(mem: Memory, v: View, deq: Lookup, a: nat, k: nat, e: int)
    requires Chain(mem, v.chain, v.pos) && KeptFrom(v, k, e) && InitRun(mem, deq, v, a, e)
    ensures Index(mem, deq.tree, v.chain, v.pos, false, a, v.deqTo) && (a < v.deqTo ==> a == k && deq.init)
  {
    hide Index, Chain, Ascending;
    IndexBounds(mem, deq.tree, v.chain, v.pos, false, a, v.deqTo);
    if a < v.deqTo {
      ChainAscending(mem, v.chain, v.pos);
      if e < v.pos[a + 1] {
        NotBefore(mem, v.chain, v.pos, a, k, e);
      }
      if e < v.pos[k + 1] {
        NotBefore(mem, v.chain, v.pos, k, a, e);
      }
    }
  }

  /** What remains of the consumer's lookup starts at the k-th chunk. */
  ghost predicate DeqReady(mem: Memory, v: View, deq: Lookup, a: nat, k: nat) {
    && Index(mem, deq.tree, v.chain, v.pos, false, a, v.deqTo) && (a < v.deqTo ==> a == k && deq.init)
    && k <= |v.chain| && (deq.cached == NULL || deq.cached in v.chain[k..])
  }

  /** The walk of f_unlink_chunks and what it does to the consumer's lookup. */
  method UnlinkLookup(mem0: Memory, deq0: Lookup, start: Sptr, end: u32, maybeOoo: bool, ghost v: View, ghost e: int, ghost a0: nat)
    returns (mem: Memory, deq: Lookup, prev: Sptr, c: Sptr, ghost a: nat, ghost k: nat)
    requires Chain(mem0, v.chain, v.pos) && start == v.chain[0] && v.pos[1] <= e <= v.pos[|v.chain|] && end == Wrap(e)
    requires maybeOoo ==> DeqInv(mem0, v, deq0)
    ensures Chain(mem, v.chain, v.pos) && OnlyFlags(mem0, mem, v.chain, false) && OwnWrite(mem0, mem, v.chain)
    ensures KeptFrom(v, k, e) && k < |v.chain| && c == v.chain[k] && prev == if k == 0 then NULL else v.chain[k - 1]
    ensures k > 0 ==> prev in mem && prev != NULL
    ensures maybeOoo || InitRun(mem0, deq0, v, a0, e) ==> DeqReady(mem, v, deq, a, k)
    ensures !maybeOoo ==> deq == deq0.(cached := NULL)
    ensures Forgets(deq0, deq)
  {
    hide Chain, OnlyFlags, OwnWrite, Index, DeqInv, InitRun, IncludesPos, ChunkEnd, PosLt, KeptFrom, Ascending;
    var t;
    if maybeOoo {
      DeqParts(mem0, v, deq0);
    }
    mem, t, prev, c, a, k := UnlinkWalk(mem0, deq0.tree, start, end, maybeOoo, v.chain, v.pos, v.deqTo, e);
    deq := Lookup(t, deq0.init, NULL);
    KeptIs(mem, v, k, e);
    FlagsOwn(mem0, mem, v.chain, false);
    if k > 0 {
      ChainAt(mem, v.chain, v.pos, k - 1);
    }
    if maybeOoo {
      IndexBounds(mem, t, v.chain, v.pos, false, a, v.deqTo);
      if deq0.cached != NULL {
        CachedKept(mem, v, deq0.cached, k);
        if !PosLt(mem[deq0.cached].start, ChunkEnd(mem[c])) {
          deq := deq.(cached := deq0.cached);
        }
      }
    } else {
      a := a0;
      if InitRun(mem0, deq0, v, a0, e) {
        RunStart(mem, v, deq0, a0, k, e);
      }
    }
  }

  /** The lookup stays enabled as it was, an unused tree stays unused, and the cached chunk is
      kept or forgotten. */
  ghost predicate Forgets(deq0: Lookup, deq: Lookup) {
    deq.init == deq0.init && (deq0.tree == Nil ==> deq.tree == Nil) && (deq.cached == NULL || deq.cached == deq0.cached)
  }

  lemma ForgetsIs(deq0: Lookup, deq: Lookup)
    ensures Forgets(deq0, deq0) && Forgets(deq0, deq0.(cached := NULL))
    ensures Forgets(deq0, deq) ==> deq.init == deq0.init && (deq0.tree == Nil && deq0.cached == NULL ==> deq == deq0)
  {
  }

  lemma DroppedIs(v: View, k: nat, e: int, d: nat)
    requires k <= |v.chain| && k <= |v.pos|
    ensures var w := Dropped(v, k, e, d);
            w.chain == v.chain[k..] && w.pos == v.pos[k..] && w.deqTo == d && w == Dropped(v, k, e, w.deqTo) && w.tl == v.tl && w.log == v.log && w.hd == e
  {
  }

  /** The comparison that decides whether the head has left the start chunk. */
  lemma HeadPast(mem: Memory, v: View, shr: Shared, enq: Lookup, size: nat, segs: seq<Interval>, e: int)
    requires FifoInv(mem, v, shr, enq, size, segs) && v.hd <= e <= v.tl
    ensures shr.startChunk in mem && |v.pos| > 1 && (PosGeq(Wrap(e), ChunkEnd(mem[shr.startChunk])) <==> v.pos[1] <= e)
  {
    hide FifoInv, PosGeq, ChunkEnd;
    Facts(mem, v, shr, enq, size, segs);
    Compare(e, v.pos[1]);
  }

  /** The head advances within the start chunk. */
  lemma AdvancedState(mem: Memory, v: View, shr: Shared, enq: Lookup, deq: Lookup, size: nat, segs: seq<Interval>, e: int, headC: Sptr)
    requires FifoInv(mem, v, shr, enq, size, segs) && v.hd <= e <= v.tl && |v.pos| > 1 && e < v.pos[1]
    requires headC == NULL || (|v.pos| == |v.chain| + 1 && v.chain != [] && v.pos[0] <= e && headC == ChunkFor(v.chain, v.pos, e))
    ensures FifoInv(mem, v.(hd := e), shr.(headChunk := headC, head := Wrap(e)), enq, size, segs)
    ensures DeqInv(mem, v, deq) ==> DeqInv(mem, v.(hd := e), deq)
    ensures KeptFrom(v, 0, e) && v.chain[0..] == v.chain && v.pos[0..] == v.pos && v.chain[..0] == []
  {
    hide Stream, EnqSide, DeqSide, ChunkFor;
    Facts(mem, v, shr, enq, size, segs);
    AdvancedStream(mem, v.chain, v.pos, v.log, v.hd, v.tl, size, segs, e);
  }

  lemma FreedNone(place: Places)
    ensures Freed(place, [])
  {
  }

  /** The head's chunk. */
  lemma HeadChunk(mem: Memory, v: View, shr: Shared, enq: Lookup, size: nat, segs: seq<Interval>) returns (i: nat)
    requires FifoInv(mem, v, shr, enq, size, segs)
    ensures |v.pos| == |v.chain| + 1 && v.chain != [] && v.pos[0] <= v.hd && (shr.headChunk == NULL || shr.headChunk == ChunkFor(v.chain, v.pos, v.hd))
    ensures v.hd < v.pos[|v.chain|] ==> i < |v.chain| && ChunkFor(v.chain, v.pos, v.hd) == v.chain[i] && v.pos[i] <= v.hd < v.pos[i + 1]
  {
    hide Stream, EnqSide, Find;
    Facts(mem, v, shr, enq, size, segs);
    i := if v.hd < v.pos[|v.chain|] then Find(v.pos, v.hd) else 0;
  }

  lemma ReadReady(mem: Memory, v: View, shr: Shared, enq: Lookup, size: nat, segs: seq<Interval>, p: int, n: nat)
    requires FifoInv(mem, v, shr, enq, size, segs) && v.hd <= p && p + n <= v.tl
    ensures Recorded(v.log, p, n)
  {
    hide EnqSide, Pointers;
    Readable(mem, v.chain, v.pos, v.log, v.hd, v.tl, size, segs, p, n);
  }

  /** An empty dequeue tree. */
  lemma NoRun(mem: Memory, v: View, deq: Lookup, e: int)
    requires DeqInv(mem, v, deq) && deq.tree == Nil
    ensures InitRun(mem, deq, v, 0, e) && v.deqTo == 0
  {
    hide Index;
    IndexBounds(mem, deq.tree, v.chain, v.pos, false, 0, v.deqTo);
  }

  lemma DroppedRest(v: View, k: nat, e: int)
    requires KeptFrom(v, k, e)
    ensures k < |v.chain| <= |v.pos|
  {
  }

  /** The chunk that svm_fifo_dequeue_drop caches for the head. */
  lemma HeadAgain(mem: Memory, v: View, shr: Shared, enq: Lookup, size: nat, segs: seq<Interval>, c: Sptr)
    requires FifoInv(mem, v, shr, enq, size, segs)
    requires shr.startChunk in mem && c == if IncludesPos(mem[shr.startChunk], shr.head) then shr.startChunk else NULL
    ensures FifoInv(mem, v, shr.(headChunk := c), enq, size, segs)
  {
    hide Stream, EnqSide, Chain, ChunkFor, IncludesPos;
    Facts(mem, v, shr, enq, size, segs);
    Includes(mem, v.chain, v.pos, 0, v.hd);
    if IncludesPos(mem[shr.startChunk], shr.head) {
      ChunkForIs(mem, v.chain, v.pos, 0, v.hd);
    }
  }

  lemma HeadKept(mem: Memory, v: View, shr: Shared, enq: Lookup, size: nat, segs: seq<Interval>, e: int)
    requires FifoInv(mem, v, shr, enq, size, segs) && |v.pos| > 1 && v.hd <= e < v.pos[1]
    ensures |v.pos| == |v.chain| + 1 && v.chain != [] && v.pos[0] <= e && (shr.headChunk == NULL || shr.headChunk == ChunkFor(v.chain, v.pos, e))
  {
    hide Stream, EnqSide, Chain, ChunkFor;
    Facts(mem, v, shr, enq, size, segs);
    ChunkForIs(mem, v.chain, v.pos, 0, v.hd);
    ChunkForIs(mem, v.chain, v.pos, 0, e);
  }

  /** The consumer's cached chunk is the chunk of position p exactly when it includes it. */
  lemma DeqCachedIs(mem: Memory, v: View, deq: Lookup, p: int)
    requires Chain(mem, v.chain, v.pos) && DeqInv(mem, v, deq) && deq.cached != NULL && v.pos[0] <= p < v.pos[|v.chain|]
    ensures deq.cached in mem
    ensures IncludesPos(mem[deq.cached], Wrap(p)) ==> deq.cached == ChunkFor(v.chain, v.pos, p)
  {
    hide Chain, Index, IncludesPos, ChunkFor, Ascending;
    ChainAscending(mem, v.chain, v.pos);
    var j :| 0 <= j < |v.chain| && v.chain[j] == deq.cached;
    ChainAt(mem, v.chain, v.pos, j);
    Includes(mem, v.chain, v.pos, j, p);
    if IncludesPos(mem[deq.cached], Wrap(p)) {
      ChunkForIs(mem, v.chain, v.pos, j, p);
    }
  }

  /** The lookup of svm_fifo_peek and f_update_ooo_deq: the cached chunk, a scan from the start
      chunk or the lookup tree, all of which find the chunk of position p. */
  method LookupDeq(mem0: Memory, start: Sptr, deq: Lookup, startPos: u32, endPos: u32, ghost v: View, ghost p: int, ghost e: int)
    returns (mem: Memory, t: Tree, c: Sptr, ghost b: nat)
    requires Chain(mem0, v.chain, v.pos) && DeqInv(mem0, v, deq) && start == v.chain[0]
    requires v.pos[0] <= p <= e <= v.pos[|v.chain|] && p < v.pos[|v.chain|] && startPos == Wrap(p) && endPos == Wrap(e)
    ensures Chain(mem, v.chain, v.pos) && OnlyFlags(mem0, mem, v.chain, false) && c == ChunkFor(v.chain, v.pos, p)
    ensures Index(mem, t, v.chain, v.pos, false, 0, b) && (b > 0 ==> deq.init)
    ensures deq.init && deq.cached == NULL ==> b > 0
  {
    hide Chain, DeqInv, OnlyFlags, Index, ChunkFor, IncludesPos, Ascending;
    ChainAscending(mem0, v.chain, v.pos);
    DeqParts(mem0, v, deq);
    OnlyFlagsRefl(mem0, v.chain, false);
    mem, t, c, b := mem0, deq.tree, deq.cached, v.deqTo;
    if c != NULL {
      DeqCachedIs(mem0, v, deq, p);
    }
    if c == NULL || !IncludesPos(mem[c], startPos) {
      if !deq.init {
        c := FindNextChunk(mem, start, startPos, v.chain, v.pos, 0, p);
      } else {
        ghost var a;
        mem, t, c, a, b := UpdateLookup(mem, t, false, start, startPos, endPos, v.chain, v.pos, 0, b, 0, p, e);
      }
    }
  }

  /** Flags of the dequeue tree leave the rest of the fifo alone. */
  lemma FlaggedState(mem: Memory, m: Memory, v: View, shr: Shared, enq: Lookup, size: nat, segs: seq<Interval>, d: nat)
    requires FifoInv(mem, v, shr, enq, size, segs) && OnlyFlags(mem, m, v.chain, false) && Chain(m, v.chain, v.pos)
    ensures FifoInv(m, v, shr, enq, size, segs) && FifoInv(m, v.(deqTo := d), shr, enq, size, segs) && OwnWrite(mem, m, v.chain)
    ensures Holds(m, v.chain, v.pos, v.log)
  {
    hide Chain, Holds, OnlyFlags, Index, OwnWrite, Pointers;
    FlagsOwn(mem, m, v.chain, false);
    StreamFacts(mem, v.chain, v.pos, v.log, v.hd, v.tl, size, segs);
    OnlyFlagsHolds(mem, m, v.chain, v.pos, v.log, false);
    OtherIndex(mem, m, enq.tree, v.chain, v.pos, false, v.enqFrom, v.enqTo);
  }

  lemma PeekedDeq(mem: Memory, v: View, t: Tree, init: bool, b: nat, p: int)
    requires Chain(mem, v.chain, v.pos) && Index(mem, t, v.chain, v.pos, false, 0, b) && (b > 0 ==> init) && v.pos[0] <= p
    ensures DeqInv(mem, v.(deqTo := b), Lookup(t, init, ChunkFor(v.chain, v.pos, p)))
  {
    hide Chain, Index;
    ChainAscending(mem, v.chain, v.pos);
  }

  /** svm_fifo_dequeue_drop_all leaves a node for a chunk that it gives back exactly when the
      head is at the end of the start chunk, another chunk follows, and the tree has the start chunk. */
  ghost predicate LeavesNode(v: View) {
    v.deqTo > 0 && |v.chain| > 1 && |v.pos| > 1 && v.hd == v.pos[1]
  }

  /** The case read off the start chunk and the head. */
  lemma LeavesNodeIs(mem: Memory, v: View, shr: Shared, enq: Lookup, deq: Lookup, size: nat, segs: seq<Interval>)
    requires FifoInv(mem, v, shr, enq, size, segs) && DeqInv(mem, v, deq)
    ensures shr.startChunk in mem
    ensures var c := mem[shr.startChunk]; LeavesNode(v) <==> c.deq && c.next != NULL && shr.head == ChunkEnd(c)
  {
    hide FifoInv, DeqInv, Index, Chain, ChunkEnd, Sub, Holds, Canonical, Within, Reach;
    Facts(mem, v, shr, enq, size, segs);
    DeqParts(mem, v, deq);
    FlagAt(mem, deq.tree, v.chain, v.pos, false, 0, v.deqTo, 0);
    ChainAt(mem, v.chain, v.pos, 0);
    if |v.chain| > 1 {
      ChainAt(mem, v.chain, v.pos, 1);
    }
    SameWrap(v.hd, v.pos[1]);
  }

  lemma SameWrap(a: int, b: int)
    requires 0 <= b - a < TWO_31
    ensures Wrap(a) == Wrap(b) <==> a == b
  {
    SubWraps(a, b);
    SubWraps(a, a);
  }

  /** The first chunk that f_lookup_clear_deq_chunks looks at. */
  lemma ClearFrom(mem: Memory, v: View, shr: Shared, enq: Lookup, size: nat, segs: seq<Interval>) returns (i: nat)
    requires FifoInv(mem, v, shr, enq, size, segs)
    ensures |v.pos| == |v.chain| + 1 && v.chain != [] && v.pos[0] <= v.hd && i <= 1
    ensures ChunkFor(v.chain, v.pos, v.hd) == Nth(v.chain, i) && v.pos[i] <= v.tl && (i == 1 <==> v.hd == v.pos[1])
    ensures i == 1 && |v.chain| == 1 ==> v.tl == v.pos[1]
  {
    hide EnqSide, Pointers, ChunkFor, Holds;
    Facts(mem, v, shr, enq, size, segs);
    i := if v.hd == v.pos[1] then 1 else 0;
    if i == 1 && |v.chain| > 1 {
      assert v.pos[1] < v.pos[2];
    }
    ChunkForIs(mem, v.chain, v.pos, i, v.hd);
  }

  /** svm_fifo_dequeue_drop_all up to the unlinking: takes the chunks from the head's to the
      tail's out of the dequeue tree. */
  method ClearAll(mem0: Memory, shr: Shared, deq: Lookup, ghost v: View, ghost enq: Lookup, ghost size: nat, ghost segs: seq<Interval>)
    returns (mem: Memory, t: Tree, c: Sptr, ghost a: nat)
    requires FifoInv(mem0, v, shr, enq, size, segs) && DeqInv(mem0, v, deq)
    ensures Chain(mem, v.chain, v.pos) && OnlyFlags(mem0, mem, v.chain, false)
    ensures |v.pos| == |v.chain| + 1 && v.chain != [] && v.pos[0] <= v.tl && c == ChunkFor(v.chain, v.pos, v.tl)
    ensures !LeavesNode(v) ==> InitRun(mem, deq.(tree := t), v, a, v.tl) && (v.tl < v.pos[1] ==> DeqInv(mem, v, deq.(tree := t)))
    ensures LeavesNode(v) ==> Has(t, Wrap(v.pos[0]), v.chain[0])
  {
    hide FifoInv, Chain, OnlyFlags, Index, ChunkFor, IncludesPos, Ascending, Pruned, Has, Within, Reach, Sub, ChunkEnd;
    Facts(mem0, v, shr, enq, size, segs);
    ghost var at := HeadChunk(mem0, v, shr, enq, size, segs);
    ghost var i0 := ClearFrom(mem0, v, shr, enq, size, segs);
    ChunkForNull(mem0, v.chain, v.pos, v.hd);
    if shr.headChunk != NULL {
      ChainAt(mem0, v.chain, v.pos, at);
    }
    var c0 := shr.headChunk;
    if c0 == NULL || !IncludesPos(mem0[c0], shr.head) {
      c0 := FindNextChunk(mem0, shr.startChunk, shr.head, v.chain, v.pos, 0, v.hd);
    }
    ghost var n := |v.chain|;
    if v.deqTo == 0 {
      EmptyIndexMoves(mem0, deq.tree, v.chain, v.pos, false, 0, 0, n);
    }
    IndexBounds(mem0, deq.tree, v.chain, v.pos, false, 0, v.deqTo);
    ghost var i;
    mem, t, c, a, i := ClearChunks(mem0, deq.tree, false, c0, shr.tail, v.chain, v.pos,
                                   if v.deqTo == 0 then n else 0, if v.deqTo == 0 then n else v.deqTo, i0, v.tl);
    if v.deqTo == 0 {
      EmptyIndexMoves(mem, t, v.chain, v.pos, false, n, n, 0);
      a := 0;
    } else if i0 == 1 && n > 1 {
      NodeLeft(mem0, v, deq.tree, t);
    } else if i0 == 1 {
      a := 0;
    } else if v.tl < v.pos[1] {
      NotBefore(mem, v.chain, v.pos, 0, i, v.tl);
    }
  }

  lemma NodeLeft(mem: Memory, v: View, t0: Tree, t: Tree)
    requires Chain(mem, v.chain, v.pos) && Index(mem, t0, v.chain, v.pos, false, 0, v.deqTo) && v.deqTo > 0 && Pruned(t0, t, v.chain, v.pos, 1)
    ensures Has(t, Wrap(v.pos[0]), v.chain[0])
  {
    hide Chain, Ordered, Has, Flags;
    ChainAscending(mem, v.chain, v.pos);
    assert InRun(v.chain, v.pos, 0, v.deqTo, Wrap(v.pos[0]), v.chain[0]);
    assert Has(t0, Wrap(v.pos[0]), v.chain[0]);
  }

  /** A tree with a node for a chunk that has left the chain is not an index of the chain. */
  lemma NodeOutside(mem: Memory, v: View, mem': Memory, w: View, deq: Lookup, k: nat)
    requires Chain(mem, v.chain, v.pos) && 0 < k < |v.chain| && w.chain == v.chain[k..] && Has(deq.tree, Wrap(v.pos[0]), v.chain[0])
    ensures !DeqInv(mem', w, deq)
  {
    hide Has, Ordered, Flags;
    forall i | 0 <= i < |w.chain| ensures w.chain[i] != v.chain[0] {
      assert w.chain[i] == v.chain[i + k];
    }
    if w.deqTo <= |w.chain| <= |w.pos| {
      NotInRun(w.chain, w.pos, w.deqTo, Wrap(v.pos[0]), v.chain[0]);
    }
  }

  lemma NotInRun(chain: seq<Sptr>, pos: seq<int>, b: nat, key: u32, c: Sptr)
    requires b <= |chain| <= |pos| && c !in chain
    ensures !InRun(chain, pos, 0, b, key, c)
  {
  }

  lemma LeavesChunk(v: View, k: nat)
    requires LeavesNode(v) && KeptFrom(v, k, v.tl) && v.hd <= v.tl
    ensures k > 0
  {
  }

  lemma FreedFirst(place: Places, chain: seq<Sptr>, k: nat)
    requires 0 < k <= |chain| && Freed(place, chain[..k])
    ensures chain[0] in place && place[chain[0]].free
  {
    assert chain[0] == chain[..k][0];
  }

  /** svm_fifo_seg_t: a stretch of bytes in a chunk. */
  datatype Piece = Piece(chunk: Sptr, offset: nat, len: nat)

  /** The bytes that the pieces point to, one after the other. */
  ghost predicate PiecesAre(mem: Memory, pieces: seq<Piece>, bytes: seq<u8>)
    decreases |pieces|
  {
    if pieces == [] then
      bytes == []
    else
      var q, n := pieces[|pieces| - 1], |bytes| - pieces[|pieces| - 1].len;
      && n >= 0 && q.chunk in mem && q.offset + q.len <= |mem[q.chunk].data|
      && bytes[n..] == mem[q.chunk].data[q.offset..q.offset + q.len]
      && PiecesAre(mem, pieces[..|pieces| - 1], bytes[..n])
  }

  lemma PiecesMore(mem: Memory, pieces: seq<Piece>, bytes: seq<u8>, q: Piece, more: seq<u8>)
    requires PiecesAre(mem, pieces, bytes) && q.chunk in mem && q.offset + q.len <= |mem[q.chunk].data|
    requires more == mem[q.chunk].data[q.offset..q.offset + q.len]
    ensures PiecesAre(mem, pieces + [q], bytes + more)
  {
    assert (pieces + [q])[..|pieces|] == pieces;
    assert (bytes + more)[..|bytes|] == bytes && (bytes + more)[|bytes|..] == more;
  }

  function Latest(a: int, b: int): int {
    if a < b then b else a
  }

  /** The piece is what the positions p..e have in common with the i-th chunk. */
  ghost predicate SharedWith(v: View, q: Piece, p: int, e: int, i: nat) {
    && i < |v.chain| && i + 1 < |v.pos| && q.chunk == v.chain[i]
    && v.pos[i] + q.offset == Latest(p, v.pos[i]) && v.pos[i] + q.offset + q.len == Least(e, v.pos[i + 1])
  }

  /** The k-th piece is in the k-th chunk from the i-th on, which holds position p. So every piece
      but the first starts at its chunk's start, and every one but the last ends at its chunk's end.
      The number of bytes is what was asked for or as much as is in the chunks allowed. */
  ghost predicate PiecesFrom(v: View, pieces: seq<Piece>, p: int, n: nat, len: nat, maxPieces: nat, i: nat) {
    && i + |pieces| <= |v.chain| && |v.pos| == |v.chain| + 1 && v.pos[i] <= p
    && 0 < |pieces| && (forall k: nat :: k < |pieces| ==> SharedWith(v, pieces[k], p, p + n, i + k))
    && p < v.pos[i + 1] && (|pieces| > 1 ==> v.pos[i + |pieces| - 1] < p + n) && |pieces| <= Latest(1, maxPieces)
    && n == Least(len, v.pos[Least(|v.chain|, i + Latest(1, maxPieces))] - p)
  }

  ghost predicate PiecesFor(v: View, pieces: seq<Piece>, p: int, n: nat, len: nat, maxPieces: nat) {
    exists i: nat :: PiecesFrom(v, pieces, p, n, len, maxPieces, i)
  }

  /** The loop has gone through whole chunks from the i-th to the j-th: what that says of the pieces. */
  ghost predicate Gathered(v: View, pieces: seq<Piece>, p: int, n: nat, len: nat, i: nat) {
    && 0 < |pieces| && i + |pieces| <= |v.chain| && |v.pos| == |v.chain| + 1 && v.pos[i] <= p < v.pos[i + 1]
    && (forall k: nat :: k < |pieces| ==> SharedWith(v, pieces[k], p, p + n, i + k))
    && (|pieces| > 1 ==> v.pos[i + |pieces| - 1] < p + n) && n <= len
    && p + n <= v.pos[i + |pieces|] && (n < len ==> p + n == v.pos[i + |pieces|])
  }

  lemma GatheredOne(mem: Memory, v: View, q: Piece, p: int, n: nat, len: nat, i: nat)
    requires Chain(mem, v.chain, v.pos) && i < |v.chain| && |v.pos| == |v.chain| + 1 && v.pos[i] <= p < v.pos[i + 1]
    requires q == Piece(v.chain[i], p - v.pos[i], n) && n == Least(v.pos[i + 1] - p, len)
    ensures Gathered(v, [q], p, n, len, i)
  {
    hide Chain;
  }

  lemma GatheredMore(mem: Memory, v: View, pieces: seq<Piece>, p: int, n: nat, len: nat, i: nat, m: nat)
    requires Chain(mem, v.chain, v.pos) && Gathered(v, pieces, p, n, len, i) && n < len && i + |pieces| < |v.chain|
    requires m == Least(v.pos[i + |pieces| + 1] - v.pos[i + |pieces|], len - n) && m > 0
    ensures Gathered(v, pieces + [Piece(v.chain[i + |pieces|], 0, m)], p, n + m, len, i)
  {
    ChainAscending(mem, v.chain, v.pos);
    hide Chain;
    var more := pieces + [Piece(v.chain[i + |pieces|], 0, m)];
    forall k: nat | k < |more| ensures SharedWith(v, more[k], p, p + n + m, i + k) {
      if k < |pieces| {
        assert SharedWith(v, pieces[k], p, p + n, i + k);
        assert v.pos[i + k + 1] <= v.pos[i + |pieces|];
      }
    }
  }

  lemma GatheredAll(mem: Memory, v: View, pieces: seq<Piece>, p: int, n: nat, len: nat, maxPieces: nat, i: nat)
    requires Chain(mem, v.chain, v.pos) && Gathered(v, pieces, p, n, len, i) && p + len <= v.pos[|v.chain|]
    requires |pieces| <= Latest(1, maxPieces) && (n < len ==> |pieces| == Latest(1, maxPieces))
    ensures PiecesFor(v, pieces, p, n, len, maxPieces)
  {
    ChainAscending(mem, v.chain, v.pos);
    hide Chain;
    var last := Least(|v.chain|, i + Latest(1, maxPieces));
    assert v.pos[i + |pieces|] <= v.pos[last];
    assert PiecesFrom(v, pieces, p, n, len, maxPieces, i);
  }

  /** The loop of svm_fifo_segments: pieces for up to len bytes from position p on. */
  method GatherPieces(mem: Memory, c0: Sptr, start: u32, len: nat, maxPieces: nat, ghost v: View, ghost i0: nat, ghost p: int)
    returns (pieces: seq<Piece>, n: nat)
    requires Chain(mem, v.chain, v.pos) && Holds(mem, v.chain, v.pos, v.log) && Recorded(v.log, p, len)
    requires i0 < |v.chain| && c0 == v.chain[i0] && v.pos[i0] <= p < v.pos[i0 + 1] && p + len <= v.pos[|v.chain|] && start == Wrap(p)
    ensures PiecesFor(v, pieces, p, n, len, maxPieces) && PiecesAre(mem, pieces, Bytes(v.log, p, n))
    ensures 0 < |pieces| && (maxPieces > 0 ==> |pieces| <= maxPieces) && n <= len && (n < len ==> |pieces| >= maxPieces)
  {
    hide Chain, Holds, Recorded, Bytes, PiecesAre, Wrap, Sub, Ascending, Gathered, PiecesFor;
    ChainAt(mem, v.chain, v.pos, i0);
    SubWraps(v.pos[i0], p);
    var c, o := c0, Sub(start, mem[c0].start);
    n := if mem[c].length - o < len then mem[c].length - o else len;
    RecordedPart(v.log, p, len, 0, n);
    LoadHolds(mem, v.chain, v.pos, v.log, i0, o, n);
    PiecesNone(mem);
    PiecesMore(mem, [], [], Piece(c, o, n), Bytes(v.log, p, n));
    pieces := [Piece(c, o, n)];
    assert [] + [Piece(c, o, n)] == pieces && [] + Bytes(v.log, p, n) == Bytes(v.log, p, n);
    GatheredOne(mem, v, pieces[0], p, n, len, i0);
    while n < len && |pieces| < maxPieces
      invariant 0 < |pieces| <= Latest(1, maxPieces) && i0 + |pieces| <= |v.chain| && c == v.chain[i0 + |pieces| - 1] && n <= len
      invariant Gathered(v, pieces, p, n, len, i0) && PiecesAre(mem, pieces, Bytes(v.log, p, n))
    {
      ghost var i := i0 + |pieces|;
      GatheredEnd(mem, v, pieces, p, n, len, i0);
      ChainAt(mem, v.chain, v.pos, i - 1);
      ChainAt(mem, v.chain, v.pos, i);
      c := mem[c].next;
      var m := if mem[c].length < len - n then mem[c].length else len - n;
      RecordedPart(v.log, p, len, n, m);
      LoadHolds(mem, v.chain, v.pos, v.log, i, 0, m);
      BytesAppend(v.log, p, n, m);
      PiecesMore(mem, pieces, Bytes(v.log, p, n), Piece(c, 0, m), Bytes(v.log, p + n, m));
      GatheredMore(mem, v, pieces, p, n, len, i0, m);
      pieces := pieces + [Piece(c, 0, m)];
      n := n + m;
    }
    GatheredAll(mem, v, pieces, p, n, len, maxPieces, i0);
  }

  /** Where bytes are missing, the next chunk is there. */
  lemma GatheredEnd(mem: Memory, v: View, pieces: seq<Piece>, p: int, n: nat, len: nat, i: nat)
    requires Chain(mem, v.chain, v.pos) && Gathered(v, pieces, p, n, len, i) && n < len && p + len <= v.pos[|v.chain|]
    ensures i + |pieces| < |v.chain| && p + n == v.pos[i + |pieces|]
  {
    hide Chain;
  }

  lemma PiecesNone(mem: Memory)
    ensures PiecesAre(mem, [], [])
  {
  }

  lemma SetHead(mem: Memory, v: View, shr: Shared, enq: Lookup, size: nat, segs: seq<Interval>, c: Sptr)
    requires FifoInv(mem, v, shr, enq, size, segs)
    requires |v.pos| == |v.chain| + 1 && v.chain != [] && v.pos[0] <= v.hd && c == ChunkFor(v.chain, v.pos, v.hd)
    ensures FifoInv(mem, v, shr.(headChunk := c), enq, size, segs)
  {
    hide Stream, EnqSide, ChunkFor;
  }

  lemma HeadIndex(mem: Memory, v: View, c: Sptr, i: nat, p: int)
    requires Chain(mem, v.chain, v.pos) && i < |v.chain| && c == v.chain[i] && v.pos[i] <= p < v.pos[|v.chain|]
    ensures |v.pos| == |v.chain| + 1 && v.pos[0] <= v.pos[i] && p < v.pos[0] + TWO_31
  {
  }

  /** The first allocation of a fifo: a percentage of its size, in 32-bit arithmetic. */
  function FirstAlloc(pct: nat, size: nat): nat {
    var a := Wrap(pct * size) / 100;
    if a < 4096 then 4096 else a
  }

  /** The first allocation is the percentage, rounded down, of the size, or 4096 bytes if that is less,
      where the product has lost its multiples of 2^32. */
  lemma FirstAllocIs(pct: nat, size: nat, q: nat)
    requires 0 <= pct * size - q * 0x1_0000_0000 < 0x1_0000_0000
    ensures var a, r := FirstAlloc(pct, size), pct * size - q * 0x1_0000_0000;
            a >= 4096 && (a > 4096 ==> 100 * a <= r) && r < 100 * a + 100
  {
    var r := pct * size - q * 0x1_0000_0000;
    WrapIs(pct * size, q, r);
  }

  lemma FirstBounds(pct: nat, size: nat)
    requires 0 < size <= MAX_FIFO && (pct <= 100 || FirstAlloc(pct, size) <= MAX_SIZE)
    ensures 0 < FirstAlloc(pct, size) < TWO_32 && Cap(FirstAlloc(pct, size)) <= Reach(size)
  {
    if pct <= 100 {
      assert 0 <= pct * size <= 100 * size;
      assert Wrap(pct * size) <= pct * size;
    }
  }

  /** A chain is also a list. */
  lemma ChainList(mem: Memory, chain: seq<Sptr>, pos: seq<int>)
    requires Chain(mem, chain, pos)
    ensures ListOk(mem, chain[0], chain)
  {
    forall i: nat | i < |chain| ensures LinkAt(mem, chain, i) {
      ChainAt(mem, chain, pos, i);
    }
  }

  lemma HandedOutNone(place: Places, chain: seq<Sptr>, s: nat)
    ensures HandedOut(place, [], s) && chain + [] == chain && [] + chain == chain
  {
  }

  lemma LeavesIs(v: View, w: View)
    requires |v.pos| == |v.chain| + 1 == 2 && v.pos <= w.pos && v.chain <= w.chain && |w.pos| == |w.chain| + 1 && w.pos[|w.chain|] > v.pos[1]
    requires w.deqTo > 0 && w.hd == v.pos[1]
    ensures LeavesNode(w)
  {
  }

  lemma OneByte(v: View, size: nat, p: Supply, slice: nat, n: nat)
    requires 0 < size && |v.pos| == |v.chain| + 1 && Takes(v, Least(1, size), n, p, slice, size) && !Starved(p, slice, size, v, 1)
    ensures n == 1
  {
  }

  /** A segment with room for two of the largest refills. */
  const ROOMY: nat := 0x2000_0000

  /** The size of a fifo that can ask for more than the largest chunk. */
  const LARGE: nat := 0x100_0000

  lemma RoomyLimits()
    ensures 0 < 4096 < ROOMY <= SEGMENT_LIMIT && 4096 <= MAX_FIFO && 0 < FirstAlloc(100, 4096) <= MAX_SIZE
    ensures 4096 + 2 * MAX_REFILL <= ROOMY && MAX_REFILL >= 0
    ensures 0 < FirstAlloc(0, LARGE) && Cap(FirstAlloc(0, LARGE)) + MAX_SIZE < LARGE <= MAX_FIFO
  {
  }

  /** With room for a refill the chain can grow. */
  lemma NotStarved(p: Supply, slice: nat, size: nat, v: View, len: nat)
    requires |v.pos| == |v.chain| + 1 && p.byteIndex + MAX_REFILL <= p.maxByteIndex
    ensures !Starved(p, slice, size, v, len)
  {
    hide Served, Supplied, Growth;
    if Supplied(p, slice) && Growth(size, v, len) > 0 {
      RoomServes(p, slice, Growth(size, v, len));
    }
  }

  /** When the head is at the end of the chain, one chunk is left. */
  lemma OneLeft(mem: Memory, v: View)
    requires Chain(mem, v.chain, v.pos) && v.chain != [] && |v.pos| == |v.chain| + 1
    requires v.hd <= v.pos[1] && v.hd == v.pos[|v.chain|]
    ensures |v.chain| == 1
  {
    hide Chain;
    ChainAscending(mem, v.chain, v.pos);
  }

  lemma SmallSizes()
    ensures 0 < MAX_SIZE < TWO_32 && MAX_FIFO < TWO_31 < TWO_32
  {
  }

  lemma RoomForOne(size: nat)
    requires 0 < size
    ensures 0 < Least(1, size) <= MAX_SIZE && 0 < TWO_32
  {
  }
}
