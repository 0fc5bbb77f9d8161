/** Every step of the producer keeps the invariant, whatever the consumer is doing. */
module SpscProducer {
  import opened Position
  import opened OooSegments
  import opened Chunks
  import opened SizeClasses
  import opened FreeLists
  import opened SegmentState
  import opened ChunkTree
  import opened ChunkIndex
  import opened Chains
  import opened FifoState
  import opened FifoViews
  import opened SpscState

  /** A step of the producer that changes only what it knows. */
  lemma ProdStep(s: State, p: Prod)
    requires Sound(s) && Private(p) == Private(s.prod) == [] && ProdOk(s.(prod := p))
    ensures Sound(s.(prod := p))
  {
    hide ProdOk, Stream, Pointers, EnqSide, DeqInv, Index, Bytes, Around, StartsBy, ChunkFor, KeptFrom, WellSized;
  }

  lemma PLoadKeeps(s: State, src: seq<u8>)
    requires Sound(s) && EnabledProd(s, PLoad(src))
    ensures Sound(ApplyProd(s, PLoad(src)))
  {
    hide Sound, Sub, ChunkEnd, Wrap, Chain, Holds, Reach;
    Numbers(s);
    Parts(s);
    hide Base, Pool, ConsOk, Books;
    ProdStep(s, ApplyProd(s, PLoad(src)).prod);
  }

  lemma PLoadAheadKeeps(s: State, o: nat, src: seq<u8>)
    requires Sound(s) && EnabledProd(s, PLoadAhead(o, src))
    ensures Sound(ApplyProd(s, PLoadAhead(o, src)))
  {
    hide Sound, Sub, ChunkEnd, Wrap, Chain, Holds, Reach;
    Numbers(s);
    Parts(s);
    hide Base, Pool, ConsOk, Books;
    ProdStep(s, ApplyProd(s, PLoadAhead(o, src)).prod);
  }

  /** The tail's chunk is null exactly when the tail is at the end of the chain. */
  lemma TailChunkIs(s: State)
    requires Sound(s)
    ensures s.v.pos[0] <= s.v.tl && s.v.chain != [] && s.shr.tailChunk == ChunkFor(s.v.chain, s.v.pos, s.v.tl)
    ensures s.shr.tailChunk == NULL <==> s.v.tl == End(s.v)
    ensures s.shr.tailChunk != NULL ==> Around(s.v, s.shr.tailChunk, s.v.tl)
  {
    hide Stream, EnqSide, Books, Pool, ProdOk, ConsOk, Chain, Find, Holds, Around, ChunkEnd, Sub, Wrap, Reach;
    Numbers(s);
    ChunkForAround(s.mem, s.v, s.v.tl);
  }

  lemma OverlayNothing(log: Log, p: int, src: seq<u8>)
    ensures Overlay(log, p, src[..0]) == log
  {
  }

  /** The producer starts to write n bytes at the tail. */
  lemma StartsWriting(s: State, src: seq<u8>, n: nat)
    requires Sound(s) && !s.prod.PAlloced? && s.list == s.segs && RoomFor(src, n, 0, s.hd + s.size - s.v.tl)
    requires s.size <= MAX_SIZE ==> s.v.tl + n <= End(s.v)
    ensures Sound(s.(prod := PWriting(src, n, 0, 0, s.shr.tailChunk)))
  {
    hide Sound, Chain, Holds, Around, ChunkFor, Overlay, ChunkEnd, Sub, Wrap, Reach;
    Numbers(s);
    TailChunkIs(s);
    OverlayNothing(s.v.log, s.v.tl, src);
    ProdStep(s, PWriting(src, n, 0, 0, s.shr.tailChunk));
  }

  lemma Room(s: State)
    requires Sound(s) && s.prod.PLoaded?
    ensures s.list == s.segs && RoomFor(s.prod.src, s.prod.n, s.prod.o, s.hd + s.size - s.v.tl) && s.v.tl + s.prod.o + s.prod.n <= s.hd + s.size
  {
    hide Base, Books, Pool, ConsOk;
  }

  lemma PFitKeeps(s: State)
    requires Sound(s) && EnabledProd(s, PFit)
    ensures Sound(ApplyProd(s, PFit))
  {
    hide Sound, NeedsMore;
    Room(s);
    NeedsMoreIs(s, s.prod.o + s.prod.n);
    Parts(s);
    if s.prod.o == 0 {
      StartsWriting(s, s.prod.src, s.prod.n);
    } else {
      hide Base, Pool, ConsOk, Books;
      ProdStep(s, PSeeking(s.prod.src, s.prod.n, s.prod.o));
    }
  }

  lemma PFailKeeps(s: State)
    requires Sound(s) && EnabledProd(s, PFail)
    ensures Sound(ApplyProd(s, PFail))
  {
    hide Sound, NeedsMore, ChunkEnd, Sub, Wrap, Chain, Holds, Reach;
    Numbers(s);
    Room(s);
    NeedsMoreIs(s, s.prod.o + s.prod.n);
    Parts(s);
    hide Base, Pool, ConsOk, Books;
    var n := End(s.v) - s.v.tl;
    if n == 0 || s.prod.o > 0 {
      ProdStep(s, PIdle);
    } else {
      StartsWriting(s, s.prod.src, n);
    }
  }

  /** A change of memory that leaves the chain's chunks and all sizes alone. */
  lemma BaseSame(s: State, m: Memory)
    requires Sound(s) && SameOn(s.mem, m, s.v.chain) && m.Keys == s.mem.Keys
    requires forall x :: x in m ==> m[x].length == s.mem[x].length && |m[x].data| == |s.mem[x].data|
    ensures Base(s.(mem := m)) && ConsOk(s.(mem := m)) && Books(s.(mem := m))
  {
    hide Pool, ProdOk, Stream, Pointers, EnqSide, DeqSide, Index, Bytes, Around, StartsBy, ChunkFor, KeptFrom, SameOn;
    var v := s.v;
    SameStream(s.mem, m, v.chain, v.pos, v.log, v.hd, v.tl, s.size, s.segs);
    SameSides(s.mem, m, s.enq.tree, s.enq.init, s.deq.tree, s.deq.init, v.chain, v.pos, v.enqFrom, v.enqTo, v.deqTo, v.tl, s.list, s.enq.cached, s.deq.cached);
    if s.cons.CWalking? || s.cons.CCutting? {
      SameIndex(s.mem, m, s.deq.tree, v.chain, v.pos, false, s.cons.a, v.deqTo);
    }
  }

  lemma ScribbleKeeps(s: State, x: Sptr, c: Chunk)
    requires Sound(s) && Enabled(s, Scribble(x, c))
    ensures Sound(Apply(s, Scribble(x, c)))
  {
    var m := s.mem[x := c];
    hide Base, Books, ProdOk, ConsOk, EnabledProd, EnabledCons;
    assert SameOn(s.mem, m, s.v.chain) && SameOn(s.mem, m, Private(s.prod));
    BaseSame(s, m);
    ProdSame(s, m);
  }

  /** What the producer has prepared can be linked. */
  lemma PreparedLinkable(mem: Memory, m: Memory, first: Sptr, got: seq<Sptr>, p: int)
    requires WellSized(mem) && Prepared(mem, m, first, got, p)
    ensures WellSized(m) && Linkable(m, first, got, Layout(m, got, p), p) && Layout(m, got, p)[|got|] == p + TotalLength(m, got)
  {
    hide Layout, TotalLength, ListOk;
    var q := Layout(m, got, p);
    LayoutTotal(m, got, p);
    forall i: nat | i < |got| ensures ExtentAt(m, got, q, i) {
      assert got[i] in got;
      LayoutStep(m, got, p, i);
    }
  }

  lemma PGrowPool(s: State, m: Memory, first: Sptr, got: seq<Sptr>)
    requires Sound(s) && EnabledProd(s, PGrow(m, first, got))
    ensures Pool(ApplyProd(s, PGrow(m, first, got))) && SameOn(s.mem, m, s.v.chain) && m.Keys == s.mem.Keys
  {
    hide Base, Books, ProdOk, ConsOk, Layout, TotalLength, NeedsMore, ListOk, LaidOutAt;
  }

  lemma PGrowProd(s: State, m: Memory, first: Sptr, got: seq<Sptr>)
    requires Sound(s) && EnabledProd(s, PGrow(m, first, got))
    ensures ProdOk(ApplyProd(s, PGrow(m, first, got)))
  {
    hide *;
    Numbers(s);
    PGrowIs(s, m, first, got);
    Room(s);
    NeedsMoreIs(s, s.prod.o + s.prod.n);
    PreparedLinkable(s.mem, m, first, got, End(s.v));
    AllocedOk(ApplyProd(s, PGrow(m, first, got)), TotalLength(m, got));
  }

  lemma AllocedOk(s: State, total: nat)
    requires s.prod.PAlloced? && s.list == s.segs && |s.v.pos| == |s.v.chain| + 1 && RoomFor(s.prod.src, s.prod.n, s.prod.o, s.hd + s.size - s.v.tl)
    requires Linkable(s.mem, s.prod.first, s.prod.got, s.prod.q, End(s.v)) && |s.prod.q| == |s.prod.got| + 1
    requires s.prod.q[|s.prod.got|] == End(s.v) + total && s.hd <= s.v.tl <= End(s.v) < s.v.tl + s.prod.o + s.prod.n
    requires Granted(s.v.tl + s.prod.o + s.prod.n - End(s.v), total)
    ensures ProdOk(s)
  {
    hide Linkable, End;
  }

  lemma PGrowKeeps(s: State, m: Memory, first: Sptr, got: seq<Sptr>)
    requires Sound(s) && EnabledProd(s, PGrow(m, first, got))
    ensures Sound(ApplyProd(s, PGrow(m, first, got)))
  {
    hide *;
    PGrowPool(s, m, first, got);
    PGrowProd(s, m, first, got);
    PGrowIs(s, m, first, got);
    BaseSame(s, m);
    var s' := ApplyProd(s, PGrow(m, first, got));
    PartsFor(s.(mem := m), s'.prod, s'.free);
    SoundIs(s');
  }

  lemma PGrowIs(s: State, m: Memory, first: Sptr, got: seq<Sptr>)
    requires Sound(s) && EnabledProd(s, PGrow(m, first, got))
    ensures var s' := ApplyProd(s, PGrow(m, first, got)); s' == s.(mem := m, prod := s'.prod, free := s'.free)
    ensures |s.v.pos| == |s.v.chain| + 1 && forall x :: x in m ==> x in s.mem && m[x].length == s.mem[x].length && |m[x].data| == |s.mem[x].data|
    ensures s.prod.PLoaded? && Prepared(s.mem, m, first, got, End(s.v)) && NeedsMore(s, s.prod.o + s.prod.n) && (forall x :: x in got ==> x in m)
    ensures ApplyProd(s, PGrow(m, first, got)).prod == PAlloced(s.prod.src, s.prod.n, s.prod.o, first, got, Layout(m, got, End(s.v)))
    ensures Granted(s.v.tl + s.prod.o + s.prod.n - End(s.v), TotalLength(m, got))
  {
    hide NeedsMore, Layout, TotalLength, Granted, Base, Books, Pool, ProdOk, ConsOk;
  }

  /** What is known while the producer writes. */
  lemma WritePhase(s: State)
    requires Sound(s) && s.prod.PWriting?
    ensures var p := s.prod;
            && |s.v.pos| == |s.v.chain| + 1 && RoomFor(p.src, p.n, p.o, s.hd + s.size - s.v.tl) && p.w <= p.n && s.v.tl + p.o + p.w <= End(s.v)
            && Holds(s.mem, s.v.chain, s.v.pos, Overlay(s.v.log, s.v.tl + p.o, p.src[..p.w]))
            && (if p.wc == NULL then s.v.tl + p.o + p.w == End(s.v) else Around(s.v, p.wc, s.v.tl + p.o + p.w))
            && (p.o == 0 && p.w == 0 ==> p.wc == s.shr.tailChunk)
            && (p.o == 0 ==> s.list == s.segs)
            && (p.o > 0 ==> Canonical(s.list) && Added(s.segs, s.list, s.v.tl + p.o, s.v.tl + p.o + p.n) && s.v.tl + p.o + p.n <= End(s.v))
            && (s.size <= MAX_SIZE ==> s.v.tl + p.o + p.n <= End(s.v))
    ensures s.prod.o + s.prod.n < TWO_32
  {
    hide Base, Pool, ConsOk, Books, Holds, Overlay, Around, Canonical, Added;
    Numbers(s);
  }

  /** Where the producer's current chunk is in the chain. */
  lemma WritingAt(s: State) returns (i: nat)
    requires Sound(s) && s.prod.PWriting? && s.prod.wc != NULL
    ensures |s.v.pos| == |s.v.chain| + 1 && i < |s.v.chain| && s.prod.wc == s.v.chain[i]
    ensures s.v.pos[i] <= s.v.tl + s.prod.o + s.prod.w <= s.v.pos[i + 1] <= End(s.v)
    ensures s.prod.o + s.prod.w < TWO_32 && Add(s.shr.tail, s.prod.o + s.prod.w) == Wrap(s.v.tl + s.prod.o + s.prod.w)
    ensures Here(s, s.prod.wc, s.shr.tail, s.prod.o + s.prod.w) <==> s.v.tl + s.prod.o + s.prod.w < s.v.pos[i + 1]
  {
    hide *;
    Numbers(s);
    WritePhase(s);
    i := AroundIndex(s.v, s.prod.wc, s.v.tl + s.prod.o + s.prod.w);
    NextInChain(s, i);
    HereIs(s, i, s.shr.tail, s.v.tl, s.prod.o + s.prod.w);
  }

  lemma AroundIndex(v: View, c: Sptr, p: int) returns (i: nat)
    requires Around(v, c, p)
    ensures i < |v.chain| && i + 1 < |v.pos| && c == v.chain[i] && v.pos[i] <= p <= v.pos[i + 1]
  {
    i :| i < |v.chain| && i + 1 < |v.pos| && AroundAt(v, c, p, i);
  }

  lemma AroundIs(v: View, c: Sptr, p: int, i: nat)
    requires i < |v.chain| && i + 1 < |v.pos| && c == v.chain[i] && v.pos[i] <= p <= v.pos[i + 1]
    ensures Around(v, c, p)
  {
    assert AroundAt(v, c, p, i);
  }

  /** Before its first byte the producer is in the tail's chunk. */
  lemma MovesLater(s: State)
    requires Sound(s) && EnabledProd(s, PMove)
    ensures s.prod.o > 0 || s.prod.w > 0
  {
    hide *;
    MoveIs(s);
    if s.prod.o == 0 && s.prod.w == 0 {
      Numbers(s);
      WritePhase(s);
      TailChunkIs(s);
      TailNear(s);
    }
  }

  lemma MoveIs(s: State)
    requires EnabledProd(s, PMove)
    ensures s.prod.PWriting? && s.prod.wc in s.mem && !Here(s, s.prod.wc, s.shr.tail, s.prod.o + s.prod.w)
    ensures ApplyProd(s, PMove) == s.(prod := s.prod.(wc := s.mem[s.prod.wc].next))
  {
  }

  lemma TailNear(s: State)
    requires Sound(s) && s.shr.tailChunk != NULL
    ensures Here(s, s.shr.tailChunk, s.shr.tail, 0)
  {
    hide *;
    Numbers(s);
    TailChunkIs(s);
    EndIs(s.v);
    var i := Located(s.mem, s.v, s.v.tl);
    NextInChain(s, i);
    HereIs(s, i, s.shr.tail, s.v.tl, 0);
  }

  lemma PMoveKeeps(s: State)
    requires Sound(s) && EnabledProd(s, PMove)
    ensures Sound(ApplyProd(s, PMove))
  {
    hide *;
    MoveIs(s);
    Numbers(s);
    WritePhase(s);
    MovesLater(s);
    var i := WritingAt(s);
    NextInChain(s, i);
    EndIs(s.v);
    NthIs(s.v.chain, i + 1);
    if i + 1 < |s.v.chain| {
      NextInChain(s, i + 1);
      AroundIs(s.v, s.v.chain[i + 1], s.v.tl + s.prod.o + s.prod.w, i + 1);
    }
    MovedProd(s, s.mem[s.prod.wc].next);
  }

  lemma NthIs(chain: seq<Sptr>, i: nat)
    ensures Nth(chain, i) == if i < |chain| then chain[i] else NULL
  {
  }

  lemma MovedProd(s: State, c: Sptr)
    requires Sound(s) && s.prod.PWriting? && (s.prod.o > 0 || s.prod.w > 0)
    requires |s.v.pos| == |s.v.chain| + 1
    requires if c == NULL then s.v.tl + s.prod.o + s.prod.w == End(s.v) else Around(s.v, c, s.v.tl + s.prod.o + s.prod.w)
    ensures Sound(s.(prod := s.prod.(wc := c)))
  {
    hide Base, Pool, ConsOk, Books, Holds, Overlay, Around, Canonical, Added;
    ProdStep(s, s.prod.(wc := c));
  }

  /** Bytes that are not recorded yet need not be looked for. */
  lemma HoldsFewer(mem: Memory, chain: seq<Sptr>, pos: seq<int>, log: Log, log': Log)
    requires |chain| <= |pos| && Holds(mem, chain, pos, log) && (forall p :: p in log' ==> p in log && log[p] == log'[p])
    ensures Holds(mem, chain, pos, log')
  {
    forall i: nat | i < |chain| ensures HoldsAt(mem, chain, pos, log', i) {
      assert HoldsAt(mem, chain, pos, log, i);
    }
  }

  lemma RewriteIs(log: Log, p: int, src: seq<u8>, w: nat)
    requires w < |src|
    ensures var log' := Rewrite(log, p + w, src[w]);
            && Overlay(Overlay(log, p, src[..w]), p + w, [src[w]]) == Overlay(log', p, src[..w + 1])
            && (forall q :: q in log' ==> q in Overlay(log, p + w, [src[w]]) && Overlay(log, p + w, [src[w]])[q] == log'[q])
            && log'.Keys == log.Keys && Agree(log, log', p)
  {
    assert src[..w + 1] == src[..w] + [src[w]];
    OverlayAppend(log, p, src[..w], [src[w]]);
  }

  lemma WrittenIs(s: State)
    requires EnabledProd(s, PWrite)
    ensures s.prod.PWriting? && s.prod.w < s.prod.n <= |s.prod.src| && s.prod.wc in s.mem && Here(s, s.prod.wc, s.shr.tail, s.prod.o + s.prod.w)
    ensures s.prod.o + s.prod.w < TWO_32 && Sub(Add(s.shr.tail, s.prod.o + s.prod.w), s.mem[s.prod.wc].start) < |s.mem[s.prod.wc].data|
    ensures var p, m := s.prod, Store(s.mem, s.prod.wc, Sub(Add(s.shr.tail, s.prod.o + s.prod.w), s.mem[s.prod.wc].start), [s.prod.src[s.prod.w]]);
            ApplyProd(s, PWrite) == s.(mem := m, v := s.v.(log := Rewrite(s.v.log, s.v.tl + p.o + p.w, p.src[p.w])), prod := p.(w := p.w + 1))
  {
  }

  lemma StoreSized(mem: Memory, c: Sptr, o: nat, piece: seq<u8>)
    requires WellSized(mem) && c in mem && o + |piece| <= |mem[c].data|
    ensures var m := Store(mem, c, o, piece);
            WellSized(m) && m.Keys == mem.Keys && (forall x :: x in m ==> m[x].enq == mem[x].enq && m[x].deq == mem[x].deq && (x != c ==> m[x] == mem[x]))
  {
  }

  /** The memory and log after the producer's next byte. */
  lemma WriteByte(s: State) returns (i: nat)
    requires Sound(s) && EnabledProd(s, PWrite)
    ensures |s.v.pos| == |s.v.chain| + 1 && i < |s.v.chain| && s.prod.wc == s.v.chain[i] && s.v.pos[i] <= s.v.tl + s.prod.o + s.prod.w < s.v.pos[i + 1] <= End(s.v)
    ensures var s' := ApplyProd(s, PWrite);
            && Chain(s'.mem, s.v.chain, s.v.pos) && Holds(s'.mem, s.v.chain, s.v.pos, s'.v.log) && WellSized(s'.mem)
            && Holds(s'.mem, s.v.chain, s.v.pos, Overlay(s'.v.log, s.v.tl + s.prod.o, s.prod.src[..s.prod.w + 1]))
            && s'.mem.Keys == s.mem.Keys && (forall x :: x in s'.mem ==> s'.mem[x].enq == s.mem[x].enq && s'.mem[x].deq == s.mem[x].deq && (x != s.prod.wc ==> s'.mem[x] == s.mem[x]))
            && s'.v.log.Keys == s.v.log.Keys && Agree(s.v.log, s'.v.log, s.v.tl + s.prod.o)
  {
    hide *;
    Numbers(s);
    WrittenIs(s);
    WritePhase(s);
    i := WritingAt(s);
    NextInChain(s, i);
    var p, chain, pos, log := s.prod, s.v.chain, s.v.pos, s.v.log;
    var at := s.v.tl + p.o + p.w;
    SubWraps(pos[i], at);
    var s' := ApplyProd(s, PWrite);
    StoreHolds(s.mem, chain, pos, log, i, at - pos[i], [p.src[p.w]]);
    StoreHolds(s.mem, chain, pos, Overlay(log, s.v.tl + p.o, p.src[..p.w]), i, at - pos[i], [p.src[p.w]]);
    StoreSized(s.mem, p.wc, at - pos[i], [p.src[p.w]]);
    RewriteIs(log, s.v.tl + p.o, p.src, p.w);
    HoldsFewer(s'.mem, chain, pos, Overlay(log, at, [p.src[p.w]]), s'.v.log);
  }

  lemma PWriteProd(s: State)
    requires Sound(s) && EnabledProd(s, PWrite)
    ensures |s.v.pos| == |s.v.chain| + 1 && ProdOk(ApplyProd(s, PWrite))
  {
    hide *;
    var i := WriteByte(s);
    WrittenIs(s);
    WritePhase(s);
    var s' := ApplyProd(s, PWrite);
    AroundIs(s'.v, s'.prod.wc, s.v.tl + s.prod.o + s.prod.w + 1, i);
    assert s'.v.pos == s.v.pos && s'.v.chain == s.v.chain;
    EndSame(s.v, s'.v);
    Parts(s);
    Numbers(s);
    WritingOk(s', s);
  }

  lemma EndSame(v: View, v': View)
    requires |v.pos| == |v.chain| + 1 && v'.pos == v.pos && v'.chain == v.chain
    ensures End(v') == End(v)
  {
  }

  /** The next state of a write. */
  lemma WritingOk(s': State, s: State)
    requires s.prod.PWriting? && |s.v.pos| == |s.v.chain| + 1 && ProdOk(s) && s.prod.wc != NULL
    requires s' == s.(mem := s'.mem, v := s.v.(log := s'.v.log), prod := s.prod.(w := s.prod.w + 1))
    requires s.prod.w < s.prod.n && s.v.tl + s.prod.o + s.prod.w < End(s.v) == End(s'.v) && Around(s'.v, s.prod.wc, s.v.tl + s.prod.o + s.prod.w + 1)
    requires s.prod.w + 1 <= |s.prod.src| && Holds(s'.mem, s.v.chain, s.v.pos, Overlay(s'.v.log, s.v.tl + s.prod.o, s.prod.src[..s.prod.w + 1]))
    ensures ProdOk(s')
  {
    hide Holds, Overlay, Around, Canonical, Added;
  }

  lemma PWriteKeeps(s: State)
    requires Sound(s) && EnabledProd(s, PWrite)
    ensures Sound(ApplyProd(s, PWrite))
  {
    hide *;
    var i := WriteByte(s);
    WrittenIs(s);
    Parts(s);
    Numbers(s);
    PWriteProd(s);
    PrivateNone(s.prod);
    var s' := ApplyProd(s, PWrite);
    ChainIn(s.mem, s.v.chain, s.v.pos);
    AgreeLess(s.v.log, s'.v.log, s.v.tl, s.v.tl + s.prod.o);
    ConsFrame(s, s');
    BooksFrame(s, s');
    EnqFrame(s, s');
    WrittenBase(s, s');
    PrivateNone(s'.prod);
    PoolKept(s, s');
    SoundIs(s');
  }

  lemma ChainIn(mem: Memory, chain: seq<Sptr>, pos: seq<int>)
    requires Chain(mem, chain, pos)
    ensures forall x :: x in chain ==> x in mem
  {
    hide Chain;
    forall x | x in chain ensures x in mem {
      var i: nat :| i < |chain| && chain[i] == x;
      ChainAt(mem, chain, pos, i);
    }
  }

  lemma AgreeLess(log: Log, log': Log, p: int, q: int)
    requires Agree(log, log', q) && p <= q
    ensures Agree(log, log', p)
  {
  }

  lemma PrivateNone(p: Prod)
    requires !p.PAlloced?
    ensures Private(p) == []
  {
  }

  lemma PoolKept(s: State, s': State)
    requires Pool(s) && s'.mem.Keys == s.mem.Keys && s'.free == s.free && s'.v.chain == s.v.chain && Private(s'.prod) == Private(s.prod)
    ensures Pool(s')
  {
    assert forall x :: x in s'.mem <==> x in s.mem;
  }

  lemma WrittenBase(s: State, s': State)
    requires Base(s) && EnqOk(s') && s'.mem.Keys == s.mem.Keys && WellSized(s'.mem) && s'.v.log.Keys == s.v.log.Keys
    requires s' == s.(mem := s'.mem, v := s.v.(log := s'.v.log), prod := s'.prod)
    requires |s.v.pos| == |s.v.chain| + 1 && Chain(s'.mem, s.v.chain, s.v.pos) && Holds(s'.mem, s.v.chain, s.v.pos, s'.v.log)
    ensures Base(s')
  {
    hide Stream, Pointers, EnqSide, Chain, Holds, WellSized;
    StreamMem(s.mem, s'.mem, s.v.chain, s.v.pos, s.v.log, s'.v.log, s.v.hd, s.v.tl, s.size, s.segs);
  }

  lemma FlagsSized(mem: Memory, m: Memory, chain: seq<Sptr>, enq: bool)
    requires OnlyFlags(mem, m, chain, enq) && WellSized(mem) && (forall x :: x in chain ==> x in mem)
    ensures WellSized(m) && m.Keys == mem.Keys && (forall x :: x in mem ==> x in m)
    ensures forall x :: x in chain ==> x in m && Flag(m[x], !enq) == Flag(mem[x], !enq)
  {
    forall x | x in m ensures m[x].length == mem[x].length && m[x].data == mem[x].data && Flag(m[x], !enq) == Flag(mem[x], !enq) {
      assert SetFlag(m[x], enq, false) == SetFlag(mem[x], enq, false);
    }
  }

  lemma SeekIs(s: State, m: Memory, t: Tree, c: Sptr, a: nat, b: nat, l: seq<Interval>)
    requires EnabledProd(s, PSeek(m, t, c, a, b, l))
    ensures s.prod.PSeeking?
    ensures var v, p, e := s.v, s.v.tl + s.prod.o, s.v.tl + s.prod.o + s.prod.n;
            && |v.pos| == |v.chain| + 1 && v.chain != [] && v.pos[0] <= p && e <= End(v)
            && Chain(m, v.chain, v.pos) && OnlyFlags(s.mem, m, v.chain, true) && c == ChunkFor(v.chain, v.pos, p)
            && Index(m, t, v.chain, v.pos, true, a, b) && Anchored(v, s.enq.init, a, b, e)
            && Canonical(l) && Added(s.list, l, p, e)
    ensures ApplyProd(s, PSeek(m, t, c, a, b, l)) ==
            s.(mem := m, enq := s.enq.(tree := t, cached := c), list := l, v := s.v.(enqFrom := a, enqTo := b),
               prod := PWriting(s.prod.src, s.prod.n, s.prod.o, 0, c))
  {
    hide Chain, OnlyFlags, ChunkFor, Index, Anchored, Canonical, Added;
  }

  lemma SeekPhase(s: State)
    requires Sound(s) && s.prod.PSeeking?
    ensures s.list == s.segs && RoomFor(s.prod.src, s.prod.n, s.prod.o, s.hd + s.size - s.v.tl) && s.prod.o > 0
    ensures 0 < s.prod.n <= |s.prod.src| && s.v.tl + s.prod.o + s.prod.n <= s.hd + s.size && Canonical(s.list)
  {
    Numbers(s);
    CanonicalList(s);
    hide Base, Pool, ConsOk, Books, Canonical;
  }

  lemma CanonicalList(s: State)
    requires Sound(s)
    ensures Canonical(s.segs) && Beyond(s.segs, s.v.tl, s.hd + s.size)
  {
    hide PointersOk, EnqOk, Pool, ConsOk, Books, ProdOk, Canonical, Chain, Holds, Logged, Beyond;
  }

  /** The list ends no sooner than it did, and the run of indexed chunks ends by it. */
  lemma SoughtEnq(m: Memory, v: View, init: bool, t: Tree, c: Sptr, a: nat, b: nat, list: seq<Interval>, l: seq<Interval>, p: int, e: int, mem: Memory, enq: Lookup)
    requires EnqSide(mem, enq.tree, enq.init, v.chain, v.pos, v.enqFrom, v.enqTo, v.tl, list, enq.cached) && Canonical(list) && init == enq.init
    requires Chain(m, v.chain, v.pos) && |v.pos| == |v.chain| + 1 && v.chain != [] && v.pos[0] <= p && c == ChunkFor(v.chain, v.pos, p)
    requires Index(m, t, v.chain, v.pos, true, a, b) && Anchored(v, init, a, b, e) && Canonical(l) && Added(list, l, p, e) && v.tl <= p < e
    ensures EnqSide(m, t, init, v.chain, v.pos, a, b, v.tl, l, c)
  {
    hide Chain, Index, Canonical, Added, ChunkFor, NotPast;
    IndexBounds(m, t, v.chain, v.pos, true, a, b);
    LastAdded(list, l, p, e);
    if c != NULL {
      ChunkForNotPast(m, v.chain, v.pos, p, v.tl);
    }
  }

  lemma PSeekBase(s: State, m: Memory, t: Tree, c: Sptr, a: nat, b: nat, l: seq<Interval>)
    requires Sound(s) && EnabledProd(s, PSeek(m, t, c, a, b, l))
    ensures Base(ApplyProd(s, PSeek(m, t, c, a, b, l)))
  {
    hide *;
    Numbers(s);
    Parts(s);
    SeekIs(s, m, t, c, a, b, l);
    SeekPhase(s);
    ChainIn(s.mem, s.v.chain, s.v.pos);
    FlagsSized(s.mem, m, s.v.chain, true);
    OnlyFlagsHolds(s.mem, m, s.v.chain, s.v.pos, s.v.log, true);
    SeekBaseIs(s, ApplyProd(s, PSeek(m, t, c, a, b, l)));
  }

  lemma SeekBaseIs(s: State, s': State)
    requires Base(s) && |s.v.pos| == |s.v.chain| + 1 && s.v.chain != [] && s.prod.PSeeking? && s.prod.n > 0
    requires s'.mem.Keys == s.mem.Keys && WellSized(s'.mem) && s'.enq.init == s.enq.init && Canonical(s.list)
    requires s' == s.(mem := s'.mem, enq := s'.enq, list := s'.list, v := s.v.(enqFrom := s'.v.enqFrom, enqTo := s'.v.enqTo), prod := s'.prod)
    requires var p := s.v.tl + s.prod.o;
             && s.v.pos[0] <= p && Chain(s'.mem, s.v.chain, s.v.pos) && Holds(s'.mem, s.v.chain, s.v.pos, s.v.log)
             && s'.enq.cached == ChunkFor(s.v.chain, s.v.pos, p) && Canonical(s'.list) && Added(s.list, s'.list, p, p + s.prod.n)
             && Index(s'.mem, s'.enq.tree, s.v.chain, s.v.pos, true, s'.v.enqFrom, s'.v.enqTo)
             && Anchored(s.v, s.enq.init, s'.v.enqFrom, s'.v.enqTo, p + s.prod.n)
    ensures Base(s')
  {
    hide Stream, Pointers, EnqSide, Chain, Holds, WellSized, Canonical, Added, Index, Anchored, ChunkFor, Wrap;
    var p := s.v.tl + s.prod.o;
    StreamMem(s.mem, s'.mem, s.v.chain, s.v.pos, s.v.log, s.v.log, s.v.hd, s.v.tl, s.size, s.segs);
    SoughtEnq(s'.mem, s.v, s.enq.init, s'.enq.tree, s'.enq.cached, s'.v.enqFrom, s'.v.enqTo, s.list, s'.list, p, p + s.prod.n, s.mem, s.enq);
  }

  lemma PSeekProd(s: State, m: Memory, t: Tree, c: Sptr, a: nat, b: nat, l: seq<Interval>)
    requires Sound(s) && EnabledProd(s, PSeek(m, t, c, a, b, l))
    ensures |s.v.pos| == |s.v.chain| + 1 && ProdOk(ApplyProd(s, PSeek(m, t, c, a, b, l)))
  {
    hide *;
    Numbers(s);
    SeekIs(s, m, t, c, a, b, l);
    SeekPhase(s);
    var s' := ApplyProd(s, PSeek(m, t, c, a, b, l));
    OnlyFlagsHolds(s.mem, m, s.v.chain, s.v.pos, s.v.log, true);
    OverlayNothing(s.v.log, s.v.tl + s.prod.o, s.prod.src);
    EndSame(s.v, s'.v);
    ChunkForAround(m, s'.v, s.v.tl + s.prod.o);
    SoughtOk(s');
  }

  lemma SoughtOk(s: State)
    requires s.prod.PWriting? && s.prod.w == 0 && s.prod.o > 0 && |s.v.pos| == |s.v.chain| + 1
    requires RoomFor(s.prod.src, s.prod.n, s.prod.o, s.hd + s.size - s.v.tl) && Holds(s.mem, s.v.chain, s.v.pos, Overlay(s.v.log, s.v.tl + s.prod.o, s.prod.src[..0]))
    requires s.prod.wc != NULL && Around(s.v, s.prod.wc, s.v.tl + s.prod.o) && s.v.tl + s.prod.o + s.prod.n <= End(s.v)
    requires Canonical(s.list) && Added(s.segs, s.list, s.v.tl + s.prod.o, s.v.tl + s.prod.o + s.prod.n)
    ensures ProdOk(s)
  {
    hide Holds, Overlay, Around, Canonical, Added;
  }

  lemma PSeekKeeps(s: State, m: Memory, t: Tree, c: Sptr, a: nat, b: nat, l: seq<Interval>)
    requires Sound(s) && EnabledProd(s, PSeek(m, t, c, a, b, l))
    ensures Sound(ApplyProd(s, PSeek(m, t, c, a, b, l)))
  {
    hide *;
    Numbers(s);
    Parts(s);
    SeekIs(s, m, t, c, a, b, l);
    var s' := ApplyProd(s, PSeek(m, t, c, a, b, l));
    PSeekBase(s, m, t, c, a, b, l);
    PSeekProd(s, m, t, c, a, b, l);
    ChainIn(s.mem, s.v.chain, s.v.pos);
    FlagsSized(s.mem, m, s.v.chain, true);
    DeqFlags(s.mem, m, s.v.chain);
    AgreeSelf(s.v.log, s.v.tl);
    ConsFrame(s, s');
    BooksFrame(s, s');
    PrivateNone(s.prod);
    PrivateNone(s'.prod);
    PoolKept(s, s');
    SoundIs(s');
  }

  lemma AgreeSelf(log: Log, p: int)
    ensures Agree(log, log, p)
  {
  }

  lemma DeqFlags(mem: Memory, m: Memory, chain: seq<Sptr>)
    requires forall x :: x in chain ==> x in mem && x in m && Flag(m[x], false) == Flag(mem[x], false)
    ensures forall x :: x in chain ==> m[x].deq == mem[x].deq
  {
  }

  lemma RecordIs(s: State)
    requires EnabledProd(s, PRecord)
    ensures Finished(s) && s.prod.PWriting? && s.prod.o > 0 && s.prod.w == s.prod.n <= |s.prod.src|
    ensures ApplyProd(s, PRecord) ==
            s.(enq := s.enq.(cached := s.prod.wc), segs := s.list, prod := PIdle,
               v := s.v.(log := Overlay(s.v.log, s.v.tl + s.prod.o, s.prod.src[..s.prod.n])))
  {
    hide Overlay;
  }

  lemma OverlayAgrees(log: Log, p: int, src: seq<u8>)
    ensures Agree(log, Overlay(log, p, src), p)
  {
  }

  lemma RoomIs(src: seq<u8>, n: nat, o: nat, room: int)
    requires RoomFor(src, n, o, room)
    ensures 0 < n <= |src| && (o > 0 ==> n == |src|) && o + n <= room
  {
  }

  lemma PRecordKeeps(s: State)
    requires Sound(s) && EnabledProd(s, PRecord)
    ensures Sound(ApplyProd(s, PRecord))
  {
    hide *;
    Numbers(s);
    Parts(s);
    RecordIs(s);
    WritePhase(s);
    var s', p := ApplyProd(s, PRecord), s.prod;
    RoomIs(p.src, p.n, p.o, s.hd + s.size - s.v.tl);
    OverlayAgrees(s.v.log, s.v.tl + p.o, p.src[..p.n]);
    AgreeLess(s.v.log, s'.v.log, s.v.tl, s.v.tl + p.o);
    ChainIn(s.mem, s.v.chain, s.v.pos);
    ConsFrame(s, s');
    BooksFrame(s, s');
    PrivateNone(s.prod);
    PrivateNone(s'.prod);
    PoolKept(s, s');
    PRecordBase(s, s');
    IdleOk(s');
    SoundIs(s');
  }

  lemma IdleOk(s: State)
    requires |s.v.pos| == |s.v.chain| + 1 && s.prod.PIdle? && s.list == s.segs
    ensures ProdOk(s)
  {
  }

  lemma PRecordBase(s: State, s': State)
    requires Base(s) && |s.v.pos| == |s.v.chain| + 1 && s.prod.PWriting? && s.prod.o > 0 && 0 < s.prod.n <= |s.prod.src|
    requires s.v.tl + s.prod.o + s.prod.n <= s.hd + s.size && s.v.tl + s.prod.o + s.prod.n <= End(s.v)
    requires Canonical(s.list) && Added(s.segs, s.list, s.v.tl + s.prod.o, s.v.tl + s.prod.o + s.prod.n)
    requires Holds(s.mem, s.v.chain, s.v.pos, Overlay(s.v.log, s.v.tl + s.prod.o, s.prod.src[..s.prod.n]))
    requires s.prod.wc != NULL ==> Around(s.v, s.prod.wc, s.v.tl + s.prod.o + s.prod.n)
    requires s' == s.(enq := s.enq.(cached := s.prod.wc), segs := s.list, prod := PIdle,
                      v := s.v.(log := Overlay(s.v.log, s.v.tl + s.prod.o, s.prod.src[..s.prod.n])))
    ensures Base(s')
  {
    hide Stream, Pointers, Chain, Holds, WellSized, Canonical, Added, Index, ChunkFor, Wrap, Overlay, NotPast, Around, Beyond;
    var p, v := s.v.tl + s.prod.o, s.v;
    StreamFacts(s.mem, v.chain, v.pos, v.log, v.hd, v.tl, s.size, s.segs);
    OffsetStream(s.mem, s.mem, v.chain, v.pos, v.log, v.hd, v.tl, s.size, s.segs, p, s.prod.src[..s.prod.n], s.list);
    LastAdded(s.segs, s.list, p, p + s.prod.n);
    AddedBeyond(s.segs, s.list, p, p + s.prod.n, v.tl, s.hd + s.size);
    if s.prod.wc != NULL {
      AroundNotPast(v, s.prod.wc, p + s.prod.n);
    }
  }

  lemma AddedBeyond(segs: seq<Interval>, l: seq<Interval>, lo: int, hi: int, tl: int, limit: int)
    requires Canonical(segs) && Canonical(l) && Added(segs, l, lo, hi) && Beyond(segs, tl, limit) && tl < lo < hi <= limit
    ensures Beyond(l, tl, limit)
  {
    CoverBounds(l, tl + 1, limit);
  }

  lemma AroundNotPast(v: View, c: Sptr, p: int)
    requires Around(v, c, p) && v.tl < p
    ensures NotPast(v.chain, v.pos, c, v.tl)
  {
    var i := AroundIndex(v, c, p);
    assert v.chain[i] == c;
  }

  ghost function Published(s: State, m: Memory, t: Tree, c: Sptr, a: nat, tl: int, l: seq<Interval>): State
    requires s.prod.PWriting? && s.prod.n <= |s.prod.src| && tl >= s.v.tl
  {
    var log := Overlay(s.v.log, s.v.tl, s.prod.src[..s.prod.n]);
    s.(mem := m, enq := s.enq.(tree := t, cached := if s.list == [] then s.enq.cached else NULL), list := l, segs := l, prod := PIdle,
       shr := s.shr.(tail := Wrap(tl), tailChunk := c), v := s.v.(log := log, tl := tl, enqFrom := a),
       sent := s.sent + Bytes(log, s.v.tl, tl - s.v.tl))
  }

  lemma PublishIs(s: State, m: Memory, t: Tree, c: Sptr, a: nat, tl: int, l: seq<Interval>)
    requires EnabledProd(s, PPublish(m, t, c, a, tl, l))
    ensures Finished(s) && s.prod.PWriting? && s.prod.o == 0 && s.prod.w == s.prod.n <= |s.prod.src| && Cleared(s, m, t, c, a, tl, l)
    ensures s.prod.wc == NULL || Here(s, s.prod.wc, s.shr.tail, s.prod.n)
    ensures |s.v.pos| == |s.v.chain| + 1 && s.v.chain != [] && s.v.pos[0] <= tl && Canonical(l) && Collected(s.list, l, s.v.tl + s.prod.n, tl)
    ensures s.list == [] ==> m == s.mem && t == s.enq.tree && a == s.v.enqFrom && c == s.prod.wc
    ensures s.list != [] ==>
              && Chain(m, s.v.chain, s.v.pos) && OnlyFlags(s.mem, m, s.v.chain, true) && Index(m, t, s.v.chain, s.v.pos, true, a, s.v.enqTo)
              && c == ChunkFor(s.v.chain, s.v.pos, tl)
              && (a < s.v.enqTo ==> s.v.enqFrom < s.v.enqTo && a < |s.v.chain| && s.v.pos[a] <= tl < s.v.pos[a + 1])
              && (l == [] ==> a == s.v.enqTo)
    ensures tl >= s.v.tl ==> ApplyProd(s, PPublish(m, t, c, a, tl, l)) == Published(s, m, t, c, a, tl, l)
  {
    hide Chain, OnlyFlags, ChunkFor, Index, Canonical, Collected, Overlay, Bytes, Here, Wrap;
  }

  lemma CollectsOn(segs: seq<Interval>, segs': seq<Interval>, t: int, t': int)
    requires Collected(segs, segs', t, t') && Canonical(segs')
    ensures t <= t' && (segs == [] ==> t' == t && segs' == [])
  {
    if segs == [] {
      NothingCollected(t);
      CollectedUnique([], t, t', segs', t, []);
    }
  }

  lemma FifoIs(s: State)
    requires Base(s) && s.list == s.segs
    ensures FifoInv(s.mem, s.v, s.shr, s.enq, s.size, s.segs)
  {
    hide Stream, Pointers, EnqSide;
  }

  lemma BaseIs(s: State)
    requires FifoInv(s.mem, s.v, s.shr, s.enq, s.size, s.segs) && s.list == s.segs && WellSized(s.mem) && NULL !in s.mem
    requires s.head == Wrap(s.hd) && 0 <= s.hd <= s.v.hd && s.v.tl <= s.hd + s.size && Beyond(s.segs, s.v.tl, s.hd + s.size)
    ensures Base(s)
  {
    hide Stream, Pointers, EnqSide, WellSized, Beyond;
  }

  /** Where the write ended, the chunk it ended in is the one for the next position. */
  lemma EndedIn(s: State)
    requires Sound(s) && Finished(s)
    ensures |s.v.pos| == |s.v.chain| + 1 && s.v.chain != [] && s.v.pos[0] <= s.v.tl + s.prod.o + s.prod.n
    ensures s.prod.wc == ChunkFor(s.v.chain, s.v.pos, s.v.tl + s.prod.o + s.prod.n)
  {
    hide *;
    FinishedIs(s);
    Numbers(s);
    WritePhase(s);
    EndIs(s.v);
    NthIs(s.v.chain, |s.v.chain|);
    if s.prod.wc == NULL {
      ChunkForIs(s.mem, s.v.chain, s.v.pos, |s.v.chain|, s.v.tl + s.prod.o + s.prod.n);
    } else {
      var i := WritingAt(s);
      NthIs(s.v.chain, i);
      ChunkForIs(s.mem, s.v.chain, s.v.pos, i, s.v.tl + s.prod.o + s.prod.n);
    }
  }

  lemma FinishedIs(s: State)
    requires Finished(s)
    ensures s.prod.PWriting? && s.prod.w == s.prod.n <= |s.prod.src| && s.prod.o + s.prod.n < TWO_32
    ensures s.prod.wc == NULL || Here(s, s.prod.wc, s.shr.tail, s.prod.o + s.prod.n)
  {
  }

  lemma PPublishInv(s: State, m: Memory, t: Tree, c: Sptr, a: nat, tl: int, l: seq<Interval>)
    requires Sound(s) && EnabledProd(s, PPublish(m, t, c, a, tl, l))
    ensures s.prod.PWriting? && s.prod.n <= |s.prod.src| && s.v.tl < tl && m.Keys == s.mem.Keys && WellSized(m) && NULL !in m
    ensures forall x :: x in s.v.chain ==> x in s.mem && x in m && m[x].deq == s.mem[x].deq
    ensures var s' := Published(s, m, t, c, a, tl, l);
            FifoInv(m, s'.v, s'.shr, s'.enq, s'.size, l) && tl <= s.hd + s.size && Beyond(l, tl, s.hd + s.size)
  {
    hide *;
    PublishIs(s, m, t, c, a, tl, l);
    Numbers(s);
    Parts(s);
    WritePhase(s);
    RoomIs(s.prod.src, s.prod.n, s.prod.o, s.hd + s.size - s.v.tl);
    FifoIs(s);
    EndedIn(s);
    CollectsOn(s.list, l, s.v.tl + s.prod.n, tl);
    ChainIn(s.mem, s.v.chain, s.v.pos);
    OnlyFlagsRefl(s.mem, s.v.chain, true);
    FlagsSized(s.mem, m, s.v.chain, true);
    DeqFlags(s.mem, m, s.v.chain);
    if s.list == [] {
      NoSegments(s.mem, s.v, s.shr, s.enq, s.size);
    }
    var src := s.prod.src[..s.prod.n];
    OnlyFlagsHolds(s.mem, m, s.v.chain, s.v.pos, Overlay(s.v.log, s.v.tl, src), true);
    EndIs(s.v);
    CanonicalList(s);
    CollectBounds(s.segs, l, s.v.tl, s.v.tl + s.prod.n, tl, s.hd + s.size);
    EnqueuedInv(s.mem, m, s.v, s.shr, s.enq, s.size, s.segs, src, tl, l, t, a, s.v.enqTo, c);
    PublishedIs(s, m, t, c, a, tl, l);
  }

  lemma PublishedIs(s: State, m: Memory, t: Tree, c: Sptr, a: nat, tl: int, l: seq<Interval>)
    requires s.prod.PWriting? && s.prod.n <= |s.prod.src| && tl >= s.v.tl
    ensures var s' := Published(s, m, t, c, a, tl, l);
            && s' == s.(mem := m, enq := s.enq.(tree := t, cached := s'.enq.cached), list := l, segs := l, prod := PIdle,
                        shr := s.shr.(tail := Wrap(tl), tailChunk := c), v := s'.v, sent := s'.sent)
            && s'.enq.cached == (if s.list == [] then s.enq.cached else NULL)
            && s'.v == s.v.(log := Overlay(s.v.log, s.v.tl, s.prod.src[..s.prod.n]), tl := tl, enqFrom := a, enqTo := s.v.enqTo)
            && s'.sent == s.sent + Bytes(s'.v.log, s.v.tl, tl - s.v.tl)
  {
    hide Overlay, Bytes, Wrap;
  }

  lemma PublishedBooks(s: State, s': State)
    requires Books(s) && s.v.tl <= s'.v.tl && Agree(s.v.log, s'.v.log, s.v.tl) && Recorded(s'.v.log, s.v.tl, s'.v.tl - s.v.tl)
    requires s'.hd == s.hd && s'.taken == s.taken && s'.sent == s.sent + Bytes(s'.v.log, s.v.tl, s'.v.tl - s.v.tl)
    ensures Books(s')
  {
    hide Bytes;
    BytesAgree(s.v.log, s'.v.log, s.v.tl, 0, s.v.tl);
    BytesAgree(s.v.log, s'.v.log, s.v.tl, 0, s.hd);
    BytesAppend(s'.v.log, 0, s.v.tl, s'.v.tl - s.v.tl);
  }

  lemma PPublishKeeps(s: State, m: Memory, t: Tree, c: Sptr, a: nat, tl: int, l: seq<Interval>)
    requires Sound(s) && EnabledProd(s, PPublish(m, t, c, a, tl, l))
    ensures Sound(ApplyProd(s, PPublish(m, t, c, a, tl, l)))
  {
    hide *;
    Numbers(s);
    Parts(s);
    PublishIs(s, m, t, c, a, tl, l);
    PPublishInv(s, m, t, c, a, tl, l);
    PublishedIs(s, m, t, c, a, tl, l);
    var s' := ApplyProd(s, PPublish(m, t, c, a, tl, l));
    OverlayAgrees(s.v.log, s.v.tl, s.prod.src[..s.prod.n]);
    ConsFrame(s, s');
    ReadReady(m, s'.v, s'.shr, s'.enq, s'.size, l, s.v.tl, tl - s.v.tl);
    PublishedBooks(s, s');
    PrivateNone(s.prod);
    PrivateNone(s'.prod);
    PoolKept(s, s');
    BaseIs(s');
    IdleOk(s');
    SoundIs(s');
  }

  lemma LinkIsLinked(s: State)
    requires EnabledProd(s, PLink)
    ensures s.prod.PAlloced? && s.shr.endChunk in s.mem && s.prod.got != [] && |s.prod.q| == |s.prod.got| + 1
    ensures var p, s' := s.prod, ApplyProd(s, PLink);
            && s' == s.(mem := s.mem[s.shr.endChunk := s.mem[s.shr.endChunk].(next := p.first)],
                        shr := GrownShared(s.shr, p.first, p.got[|p.got| - 1]), v := GrownView(s.v, p.got, p.q), prod := s'.prod)
            && s'.prod == if p.o == 0 then PWriting(p.src, p.n, 0, 0, s'.shr.tailChunk) else PSeeking(p.src, p.n, p.o)
  {
  }

  /** The view after got is linked to the end. */
  ghost function GrownView(v: View, got: seq<Sptr>, q: seq<int>): View
    requires |q| > 0
  {
    v.(chain := v.chain + got, pos := v.pos + q[1..])
  }

  lemma GrownViewIs(v: View, got: seq<Sptr>, q: seq<int>)
    requires |v.pos| == |v.chain| + 1 && |q| == |got| + 1 && got != []
    ensures var w := GrownView(v, got, q);
            && w == v.(chain := v.chain + got, pos := v.pos + q[1..]) && |w.pos| == |w.chain| + 1 && End(w) == q[|got|]
            && (forall i: nat :: i <= |v.chain| ==> w.pos[i] == v.pos[i]) && (forall i: nat :: i < |v.chain| ==> w.chain[i] == v.chain[i])
  {
    Prefix(v.chain, v.pos, got, q);
  }

  lemma AllocPhase(s: State)
    requires Sound(s) && s.prod.PAlloced?
    ensures var p := s.prod;
            && s.list == s.segs && RoomFor(p.src, p.n, p.o, s.hd + s.size - s.v.tl) && |s.v.pos| == |s.v.chain| + 1
            && Linkable(s.mem, p.first, p.got, p.q, End(s.v)) && |p.q| == |p.got| + 1
            && p.q[|p.got|] <= s.hd + Reach(s.size) && (s.size <= MAX_SIZE ==> s.v.tl + p.o + p.n <= p.q[|p.got|])
            && (forall x :: x in p.got ==> x !in s.v.chain)
  {
    hide Base, Books, ConsOk, ListOk, LaidOutAt, ExtentAt, Reach;
  }

  lemma LinkReady(s: State)
    requires Sound(s) && s.prod.PAlloced?
    ensures Appendable(s.mem, s.v.chain, s.v.pos, s.prod.first, s.prod.got, s.prod.q) && s.prod.got != [] && |s.prod.q| == |s.prod.got| + 1
    ensures s.prod.q[|s.prod.got|] - s.v.hd <= Reach(s.size) && End(s.v) < s.prod.q[|s.prod.got|]
  {
    Numbers(s);
    AllocPhase(s);
    hide Sound, Chain, Holds, ListOk, LaidOutAt, Sub, Wrap, ChunkEnd, Reach;
    ExtentsAscend(s.mem, s.prod.got, s.prod.q, 0, |s.prod.got|);
  }

  lemma PLinkBase(s: State)
    requires Sound(s) && EnabledProd(s, PLink)
    ensures Base(ApplyProd(s, PLink))
  {
    hide *;
    LinkIsLinked(s);
    Numbers(s);
    LinkReady(s);
    GrownViewIs(s.v, s.prod.got, s.prod.q);
    LinkedSized(s.mem, s.shr.endChunk, s.prod.first);
    Parts(s);
    EndIs(s.v);
    GrowBase(s, ApplyProd(s, PLink), s.prod.first, s.prod.got, s.prod.q);
  }

  lemma LinkedSized(mem: Memory, c: Sptr, next: Sptr)
    requires WellSized(mem) && c in mem && NULL !in mem
    ensures var m := mem[c := mem[c].(next := next)]; WellSized(m) && m.Keys == mem.Keys && NULL !in m
  {
  }

  lemma GrowBase(s: State, s': State, first: Sptr, got: seq<Sptr>, q: seq<int>)
    requires Base(s) && s.v.chain != [] && |s.v.pos| == |s.v.chain| + 1 && s.shr.endChunk == s.v.chain[|s.v.chain| - 1] && s.shr.endChunk in s.mem
    requires Appendable(s.mem, s.v.chain, s.v.pos, first, got, q) && got != [] && |q| == |got| + 1 && q[|got|] - s.v.hd <= Reach(s.size)
    requires s.v.hd <= s.v.tl <= s.v.pos[|s.v.chain|] && WellSized(s'.mem) && NULL !in s'.mem
    requires s' == s.(mem := s.mem[s.shr.endChunk := s.mem[s.shr.endChunk].(next := first)],
                      shr := GrownShared(s.shr, first, got[|got| - 1]), v := s.v.(chain := s.v.chain + got, pos := s.v.pos + q[1..]), prod := s'.prod)
    ensures Base(s')
  {
    hide Stream, Pointers, EnqSide, Appendable, Reach, WellSized, Wrap, Beyond;
    var v := s.v;
    OnlyStartRefl(s.mem, got);
    GrownStream(s.mem, s.mem, v.chain, v.pos, first, got, q, v.log, v.hd, v.tl, s.size, s.segs);
    GrownEnq(s.mem, s.mem, v.chain, v.pos, first, got, q, s.enq.tree, s.enq.init, v.enqFrom, v.enqTo, v.tl, s.list, s.enq.cached);
    GrownPointers(s.mem, v.chain, v.pos, first, got, q, v.hd, v.tl, s.shr.startChunk, s.shr.endChunk, s.shr.headChunk, s.shr.tailChunk, s.shr.head, s.shr.tail);
  }

  /** What is known of chunks of the chain survives its growth. */
  lemma GrowAround(v: View, got: seq<Sptr>, q: seq<int>, c: Sptr, p: int)
    requires |v.pos| == |v.chain| + 1 && |q| == |got| + 1
    ensures Around(v, c, p) ==> Around(GrownView(v, got, q), c, p)
    ensures StartsBy(v, c, p) ==> StartsBy(GrownView(v, got, q), c, p)
  {
    var w := GrownView(v, got, q);
    if Around(v, c, p) {
      var i: nat :| i < |v.chain| && i + 1 < |v.pos| && AroundAt(v, c, p, i);
      assert AroundAt(w, c, p, i);
    }
    if StartsBy(v, c, p) {
      var i: nat :| i < |v.chain| <= |v.pos| && StartsByAt(v, c, p, i);
      assert StartsByAt(w, c, p, i);
    }
  }

  lemma GrowCons(s: State, s': State, first: Sptr, got: seq<Sptr>, q: seq<int>)
    requires ConsOk(s) && |s.v.pos| == |s.v.chain| + 1 && s.v.chain != [] && s.v.tl <= End(s.v)
    requires Appendable(s.mem, s.v.chain, s.v.pos, first, got, q) && got != [] && |q| == |got| + 1 && NULL !in s.v.chain
    requires s.v.chain[|s.v.chain| - 1] in s.mem
    requires var end := s.v.chain[|s.v.chain| - 1]; s'.mem == s.mem[end := s.mem[end].(next := first)]
    requires s'.v == GrownView(s.v, got, q) && s'.cons == s.cons && s'.deq == s.deq && s'.hd == s.hd
    ensures ConsOk(s')
  {
    hide Index, Bytes, Around, StartsBy, ChunkFor, Appendable;
    var c, v := s.cons, s.v;
    GrownViewIs(v, got, q);
    if c.CWalking? || c.CCutting? {
      AppendedIndex(s.mem, v.chain, v.pos, first, got, q, s.deq.tree, false, c.a, v.deqTo);
      if c.headC != NULL {
        AppendableIs(s.mem, v.chain, v.pos, first, got, q);
        ChunkForNull(s.mem, v.chain, v.pos, s.hd + c.n);
        AppendedFor(s.mem, v.chain, v.pos, first, got, q, s.hd + c.n);
      }
    } else {
      AppendedIndex(s.mem, v.chain, v.pos, first, got, q, s.deq.tree, false, 0, v.deqTo);
      if c.CReading? {
        GrowAround(v, got, q, c.c, s.hd + c.o + c.r);
        GrowAround(v, got, q, c.c, s.hd + c.o);
      }
    }
  }

  lemma PLinkProd(s: State)
    requires Sound(s) && EnabledProd(s, PLink)
    ensures var s' := ApplyProd(s, PLink); |s'.v.pos| == |s'.v.chain| + 1 && ProdOk(s')
  {
    hide *;
    LinkIsLinked(s);
    Numbers(s);
    AllocPhase(s);
    LinkReady(s);
    PLinkBase(s);
    GrownViewIs(s.v, s.prod.got, s.prod.q);
    var s' := ApplyProd(s, PLink);
    BaseFacts(s');
    ChunkForAround(s'.mem, s'.v, s'.v.tl);
    OverlayNothing(s.v.log, s.v.tl, s.prod.src);
    RoomIs(s.prod.src, s.prod.n, s.prod.o, s.hd + s.size - s.v.tl);
    if s.prod.o == 0 {
      FirstByteOk(s');
    } else {
      SeekingOk(s');
    }
  }

  lemma BaseFacts(s: State)
    requires Base(s)
    ensures Chain(s.mem, s.v.chain, s.v.pos) && Holds(s.mem, s.v.chain, s.v.pos, s.v.log) && s.v.chain != [] && |s.v.pos| == |s.v.chain| + 1
    ensures s.v.pos[0] <= s.v.tl <= End(s.v) && s.shr.tailChunk == ChunkFor(s.v.chain, s.v.pos, s.v.tl)
  {
    hide Chain, Holds, EnqSide, ChunkFor, Wrap, Reach, Logged, Canonical, Beyond, WellSized;
  }

  lemma FirstByteOk(s: State)
    requires s.prod.PWriting? && s.prod.o == s.prod.w == 0 && s.prod.wc == s.shr.tailChunk && s.list == s.segs && |s.v.pos| == |s.v.chain| + 1
    requires RoomFor(s.prod.src, s.prod.n, 0, s.hd + s.size - s.v.tl) && Holds(s.mem, s.v.chain, s.v.pos, Overlay(s.v.log, s.v.tl, s.prod.src[..0]))
    requires s.v.tl <= End(s.v) && (if s.prod.wc == NULL then s.v.tl == End(s.v) else Around(s.v, s.prod.wc, s.v.tl))
    requires s.size <= MAX_SIZE ==> s.v.tl + s.prod.n <= End(s.v)
    ensures ProdOk(s)
  {
    hide Holds, Overlay, Around, Canonical, Added, End;
  }

  lemma SeekingOk(s: State)
    requires s.prod.PSeeking? && s.list == s.segs && |s.v.pos| == |s.v.chain| + 1 && s.prod.o > 0
    requires RoomFor(s.prod.src, s.prod.n, s.prod.o, s.hd + s.size - s.v.tl)
    requires s.size <= MAX_SIZE ==> s.v.tl + s.prod.o + s.prod.n <= End(s.v)
    ensures ProdOk(s)
  {
    hide End;
  }

  lemma PLinkPool(s: State, s': State)
    requires Pool(s) && s.prod.PAlloced? && !s'.prod.PAlloced? && s'.mem.Keys == s.mem.Keys && s'.free == s.free && s'.v.chain == s.v.chain + s.prod.got
    ensures Pool(s')
  {
    forall x ensures x in s'.v.chain <==> x in s.v.chain || x in s.prod.got {
    }
    assert forall x :: x in s'.mem <==> x in s.mem;
  }

  lemma BooksSame(s: State, s': State)
    requires Books(s) && s'.hd == s.hd && s'.v.tl == s.v.tl && s'.sent == s.sent && s'.taken == s.taken && s'.v.log == s.v.log
    ensures Books(s')
  {
    hide Bytes;
  }

  lemma PLinkKeeps(s: State)
    requires Sound(s) && EnabledProd(s, PLink)
    ensures Sound(ApplyProd(s, PLink))
  {
    hide *;
    LinkIsLinked(s);
    Numbers(s);
    Parts(s);
    LinkReady(s);
    PLinkBase(s);
    PLinkProd(s);
    GrownViewIs(s.v, s.prod.got, s.prod.q);
    var s' := ApplyProd(s, PLink);
    ChainIn(s.mem, s.v.chain, s.v.pos);
    LinkedSized(s.mem, s.shr.endChunk, s.prod.first);
    GrowCons(s, s', s.prod.first, s.prod.got, s.prod.q);
    BooksSame(s, s');
    PLinkPool(s, s');
    SoundIs(s');
  }

  lemma ProducersOwn(s: State, a: Action)
    requires EnabledProd(s, a)
    ensures a.PLoad? || a.PLoadAhead? || a.PFit? || a.PFail? || a.PGrow? || a.PLink? || a.PSeek? || a.PWrite? || a.PMove? || a.PRecord? || a.PPublish?
  {
    hide Finished, Cleared, Sought, Here, Granted, NeedsMore, Prepared, TotalLength, Sub, Add, End;
  }

  /** Every step of the producer keeps the invariant. */
  lemma ProducerKeeps(s: State, a: Action)
    requires Sound(s) && EnabledProd(s, a)
    ensures Sound(ApplyProd(s, a))
  {
    hide *;
    ProducersOwn(s, a);
    match a
    case PLoad(src) => PLoadKeeps(s, src);
    case PLoadAhead(o, src) => PLoadAheadKeeps(s, o, src);
    case PFit => PFitKeeps(s);
    case PFail => PFailKeeps(s);
    case PGrow(m, first, got) => PGrowKeeps(s, m, first, got);
    case PLink => PLinkKeeps(s);
    case PSeek(m, t, c, x, b, l) => PSeekKeeps(s, m, t, c, x, b, l);
    case PWrite => PWriteKeeps(s);
    case PMove => PMoveKeeps(s);
    case PRecord => PRecordKeeps(s);
    case PPublish(m, t, c, x, tl, l) => PPublishKeeps(s, m, t, c, x, tl, l);
    case _ =>
  }
}
