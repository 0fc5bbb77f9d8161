/** What holds in every interleaving of one producer and one consumer. */
module Spsc {
  import opened Position
  import opened OooSegments
  import opened Chunks
  import opened SizeClasses
  import opened FreeLists
  import opened SegmentState
  import opened ChunkTree
  import opened ChunkIndex
  import opened Chains
  import opened FifoState
  import opened FifoViews
  import opened SpscState
  import opened SpscProducer
  import opened SpscConsumer

  lemma StepKeeps(s: State, a: Action)
    requires Sound(s) && Enabled(s, a)
    ensures Sound(Apply(s, a))
  {
    hide *;
    StepIs(s, a);
    if a.Scribble? {
      ScribbleKeeps(s, a.x, a.chunk);
    } else if EnabledProd(s, a) {
      ProducerKeeps(s, a);
    } else {
      ConsumerKeeps(s, a);
    }
  }

  lemma StepIs(s: State, a: Action)
    requires Enabled(s, a)
    ensures !a.Scribble? ==> Apply(s, a) == (if EnabledProd(s, a) then ApplyProd(s, a) else ApplyCons(s, a)) && (EnabledProd(s, a) || EnabledCons(s, a))
  {
    hide EnabledProd, EnabledCons, ApplyProd, ApplyCons;
  }

  /** With both sides idle, the invariant is that of a fifo that is used by one side at a time. */
  lemma Quiescent(s: State)
    requires s.prod.PIdle? && s.cons.CIdle?
    ensures Sound(s) <==>
            && FifoInv(s.mem, s.v, s.shr, s.enq, s.size, s.segs) && DeqInv(s.mem, s.v, s.deq) && WellSized(s.mem) && NULL !in s.mem
            && s.list == s.segs && s.head == s.shr.head && s.hd == s.v.hd && 0 <= s.hd && Books(s) && Pool(s)
  {
    hide Pool, Books, EnqSide, DeqSide, Chain, Holds, Wrap, Canonical, Logged, WellSized, ChunkFor, Reach;
  }

  /** Both lookup trees and both cached chunks name only chunks of the chain. */
  ghost predicate NamesLive(s: State) {
    && (forall k, c :: Has(s.enq.tree, k, c) ==> c in s.v.chain && c !in s.free)
    && (forall k, c :: Has(s.deq.tree, k, c) ==> c in s.v.chain && c !in s.free)
    && (s.enq.cached != NULL ==> s.enq.cached in s.v.chain && s.enq.cached !in s.free)
    && (s.deq.cached != NULL ==> s.deq.cached in s.v.chain && s.deq.cached !in s.free)
  }

  lemma IndexNames(mem: Memory, t: Tree, chain: seq<Sptr>, pos: seq<int>, enq: bool, a: nat, b: nat)
    requires Index(mem, t, chain, pos, enq, a, b)
    ensures forall k, c :: Has(t, k, c) ==> c in chain
  {
    hide Has, Ordered;
    forall k, c | Has(t, k, c) ensures c in chain {
      assert InRun(chain, pos, a, b, k, c);
    }
  }

  lemma EnqNames(s: State)
    requires EnqOk(s)
    ensures Index(s.mem, s.enq.tree, s.v.chain, s.v.pos, true, s.v.enqFrom, s.v.enqTo) && (s.enq.cached != NULL ==> s.enq.cached in s.v.chain)
  {
    hide Index;
  }

  lemma DeqNames(s: State) returns (a: nat)
    requires ConsOk(s)
    ensures Index(s.mem, s.deq.tree, s.v.chain, s.v.pos, false, a, s.v.deqTo) && (s.deq.cached != NULL ==> s.deq.cached in s.v.chain)
  {
    hide Index, Bytes, Around, StartsBy, ChunkFor;
    a := if s.cons.CWalking? || s.cons.CCutting? then s.cons.a else 0;
  }

  lemma FreeApart(s: State)
    requires Pool(s)
    ensures forall x :: x in s.free ==> x !in s.v.chain
  {
  }

  lemma TreesLive(s: State)
    requires Sound(s)
    ensures NamesLive(s)
  {
    Parts(s);
    FreeApart(s);
    EnqNames(s);
    var a := DeqNames(s);
    hide Sound, ProdOk, Base, Pool, ConsOk, Books, StreamOk, PointersOk, EnqOk, Index, Has;
    IndexNames(s.mem, s.enq.tree, s.v.chain, s.v.pos, true, s.v.enqFrom, s.v.enqTo);
    IndexNames(s.mem, s.deq.tree, s.v.chain, s.v.pos, false, a, s.v.deqTo);
  }

  /** The consumer cuts only behind the producer: not the tail's chunk, not the chunk that is
      being written, not one that the producer's tree or cached chunk names, not the last one. */
  lemma CutBehind(s: State)
    requires Sound(s) && EnabledCons(s, CCut)
    ensures s.cons.CCutting? && s.cons.k < |s.v.chain|
    ensures var s', k := ApplyCons(s, CCut), s.cons.k;
            && s'.free == s.free + (set x | x in s.v.chain[..k]) && s'.v.chain == s.v.chain[k..]
            && (forall x :: x in s'.free ==> x !in s.v.chain[k..] && x != s.shr.endChunk && x != s.shr.tailChunk && x != s.enq.cached)
            && (s.prod.PWriting? ==> s.prod.wc !in s'.free) && (forall key, c :: Has(s.enq.tree, key, c) ==> c !in s'.free)
  {
    hide *;
    CutIs(s);
    CutFreeIs(s);
    DroppedIs(s.v, s.cons.k, s.hd + s.cons.n, CutRun(s));
    CCutKeeps(s);
    CutKeepsNames(s, ApplyCons(s, CCut));
  }

  lemma CutKeepsNames(s: State, s': State)
    requires Sound(s') && s'.enq == s.enq && s'.prod == s.prod && s'.shr.endChunk == s.shr.endChunk && s'.shr.tailChunk == s.shr.tailChunk
    ensures forall x :: x in s'.free ==> x !in s'.v.chain && x != s.shr.endChunk && x != s.shr.tailChunk && x != s.enq.cached
    ensures (s.prod.PWriting? ==> s.prod.wc !in s'.free) && (forall key, c :: Has(s.enq.tree, key, c) ==> c !in s'.free)
  {
    Numbers(s');
    Parts(s');
    TreesLive(s');
    TailChunkIs(s');
    NullApart(s');
    if s'.shr.tailChunk != NULL {
      var i := AroundIndex(s'.v, s'.shr.tailChunk, s'.v.tl);
    }
    if s'.prod.PWriting? && s'.prod.wc != NULL {
      var i := WritingAt(s');
    }
    FreeApart(s');
    hide Sound, ProdOk, Base, Pool, ConsOk, Books, StreamOk, PointersOk, EnqOk, Has, Chain, Holds, Around, ChunkFor;
  }

  lemma NullApart(s: State)
    requires Sound(s)
    ensures NULL !in s.free
  {
    hide StreamOk, PointersOk, EnqOk, WellSized, ProdOk, ConsOk, Books;
  }

  /** Bytes are read and dropped in the order in which they were published. */
  lemma ReadIsPrefix(s: State)
    requires Sound(s)
    ensures s.taken <= s.sent && |s.sent| - |s.taken| <= s.size && |s.taken| == s.hd && |s.sent| == s.v.tl
  {
    hide StreamOk, PointersOk, EnqOk, WellSized, Pool, ProdOk, ConsOk, Bytes;
    BytesAppend(s.v.log, 0, s.hd, s.v.tl - s.hd);
  }

  /** What a read or a peek at offset o has copied is what was published there. */
  lemma ReadIsSent(s: State)
    requires Sound(s) && s.cons.CReading?
    ensures |s.taken| + s.cons.o + s.cons.r <= |s.sent|
    ensures s.cons.dst == s.sent[|s.taken| + s.cons.o..|s.taken| + s.cons.o + s.cons.r]
  {
    hide *;
    ReadIsPrefix(s);
    ReadPhase(s);
    Parts(s);
    SentIs(s);
    BytesPart(s.v.log, s.v.tl, s.hd + s.cons.o, s.cons.r);
  }

  lemma SentIs(s: State)
    requires Books(s)
    ensures 0 <= s.hd <= s.v.tl && s.sent == Bytes(s.v.log, 0, s.v.tl)
  {
  }

  lemma BytesPart(log: Log, tl: nat, p: nat, n: nat)
    requires p + n <= tl
    ensures Bytes(log, p, n) == Bytes(log, 0, tl)[p..p + n]
  {
    hide Bytes;
    BytesAppend(log, 0, p, n);
    BytesAppend(log, 0, p + n, tl - p - n);
  }

  /** The chain ends before the write does, which only a growth by more than the largest chunk
      can leave behind: the chunk to look up or to write to next is not there. */
  ghost predicate Short(s: State) {
    || (s.prod.PSeeking? && |s.v.pos| == |s.v.chain| + 1 && End(s.v) < s.v.tl + s.prod.o + s.prod.n)
    || (s.prod.PWriting? && s.prod.wc == NULL && s.prod.w < s.prod.n)
  }

  /** The producer can take its next step: whatever phase it is in, the chunk it follows, looks
      up or writes to is there and the byte it writes is inside it. */
  ghost predicate ProducerGoesOn(s: State) {
    match s.prod
    case PIdle => (forall src :: EnabledProd(s, PLoad(src))) && (forall o, src :: o > 0 && src != [] ==> EnabledProd(s, PLoadAhead(o, src)))
    case PLoaded(_, _, _) => EnabledProd(s, PFit) || EnabledProd(s, PFail)
    case PAlloced(_, _, _, _, _, _) => EnabledProd(s, PLink)
    case PSeeking(_, _, _) => exists a: Action :: a.PSeek? && EnabledProd(s, a)
    case PWriting(_, _, _, _, _) => EnabledProd(s, PWrite) || EnabledProd(s, PMove) || Finished(s)
  }

  /** The same for the consumer. */
  ghost predicate ConsumerGoesOn(s: State) {
    match s.cons
    case CIdle =>
      && (forall len :: EnabledCons(s, CDrop(len))) && (s.deq.tree == Nil ==> forall len :: EnabledCons(s, CLoad(len)))
      && (forall o: nat, len :: o < |s.sent| - |s.taken| ==> EnabledCons(s, CPeek(o, len)))
    case CSeeking(_, _) => exists a: Action :: a.CSeek? && EnabledCons(s, a)
    case CReading(_, _, _, _, _, _) => EnabledCons(s, CRead) || EnabledCons(s, CMove) || EnabledCons(s, CDone) || EnabledCons(s, CPeeked)
    case CWalking(_, _, _, _, _, _, _, _) => EnabledCons(s, CWalk)
    case CCutting(_, _, _, _, _, _, _, _) => EnabledCons(s, CCut)
    case CStoring(_, _) => EnabledCons(s, CStore)
  }

  /** f_update_ooo_enq finds the chunk for a write ahead, without leaving the chain. */
  method SeekAhead(s: State, l: seq<Interval>) returns (m: Memory, t: Tree, c: Sptr, ghost a: nat, ghost b: nat)
    requires Sound(s) && s.prod.PSeeking? && !Short(s)
    requires Canonical(l) && Added(s.list, l, s.v.tl + s.prod.o, s.v.tl + s.prod.o + s.prod.n)
    ensures EnabledProd(s, PSeek(m, t, c, a, b, l))
  {
    hide *;
    Numbers(s);
    Parts(s);
    SeekPhase(s);
    FifoIs(s);
    EndIs(s.v);
    ShortIs(s);
    AddWraps(s.v.tl, s.prod.o);
    AddWraps(s.v.tl + s.prod.o, s.prod.n);
    SmallSizes();
    var p := Add(s.shr.tail, s.prod.o);
    m, t, c, a, b := LookupEnq(s.mem, s.shr, s.enq, p, Add(p, s.prod.n), s.v, s.size, s.segs, s.v.tl + s.prod.o, s.v.tl + s.prod.o + s.prod.n);
    SoughtIs(s, m, t, c, a, b, l);
  }

  lemma ShortIs(s: State)
    requires |s.v.pos| == |s.v.chain| + 1
    ensures s.prod.PSeeking? ==> (Short(s) <==> End(s.v) < s.v.tl + s.prod.o + s.prod.n)
    ensures s.prod.PWriting? ==> (Short(s) <==> s.prod.wc == NULL && s.prod.w < s.prod.n)
    ensures !s.prod.PSeeking? && !s.prod.PWriting? ==> !Short(s)
  {
  }

  lemma SoughtIs(s: State, m: Memory, t: Tree, c: Sptr, a: nat, b: nat, l: seq<Interval>)
    requires s.prod.PSeeking? && |s.v.pos| == |s.v.chain| + 1 && s.v.chain != []
    requires var v, p, e := s.v, s.v.tl + s.prod.o, s.v.tl + s.prod.o + s.prod.n;
             && v.pos[0] <= p && e <= End(v)
             && Chain(m, v.chain, v.pos) && OnlyFlags(s.mem, m, v.chain, true) && c == ChunkFor(v.chain, v.pos, p)
             && Index(m, t, v.chain, v.pos, true, a, b) && Anchored(v, s.enq.init, a, b, e)
             && Canonical(l) && Added(s.list, l, p, e)
    ensures EnabledProd(s, PSeek(m, t, c, a, b, l))
  {
    hide Chain, OnlyFlags, ChunkFor, Index, Anchored, Canonical, Added;
  }

  /** f_lookup_clear_enq_chunks finds the chunk of the new tail, without leaving the chain. */
  method ClearCollected(s: State, tl: int, l: seq<Interval>) returns (m: Memory, t: Tree, c: Sptr, ghost a: nat)
    requires Sound(s) && Finished(s) && s.prod.o == 0
    requires Canonical(l) && Collected(s.list, l, s.v.tl + s.prod.n, tl)
    ensures EnabledProd(s, PPublish(m, t, c, a, tl, l))
  {
    hide *;
    FinishedIs(s);
    Numbers(s);
    Parts(s);
    WritePhase(s);
    FifoIs(s);
    EndIs(s.v);
    EndedIn(s);
    CollectsOn(s.list, l, s.v.tl + s.prod.n, tl);
    if s.list == [] {
      m, t, c, a := s.mem, s.enq.tree, s.prod.wc, s.v.enqFrom;
    } else {
      ghost var src := s.prod.src[..s.prod.n];
      CopiedSelf(s.mem, s.v, src);
      ghost var i := TailIndex(s.mem, s.mem, s.v, s.shr, s.enq, s.size, s.segs, src, l, tl);
      m, t, c, a := ClearEnqChunks(s.mem, s.enq.tree, s.shr.tailChunk, Wrap(tl), l == [], s.v.chain, s.v.pos, s.v.enqFrom, s.v.enqTo, i, tl);
    }
    ClearedIs(s, m, t, c, a, tl, l);
  }

  lemma CopiedSelf(mem: Memory, v: View, src: seq<u8>)
    requires Chain(mem, v.chain, v.pos) && |v.pos| == |v.chain| + 1 && Holds(mem, v.chain, v.pos, Overlay(v.log, v.tl, src))
    ensures Copied(mem, mem, v, v.tl, src)
  {
    hide Chain, Holds, Overlay;
  }

  lemma ClearedIs(s: State, m: Memory, t: Tree, c: Sptr, a: nat, tl: int, l: seq<Interval>)
    requires Finished(s) && s.prod.PWriting? && s.prod.o == 0 && |s.v.pos| == |s.v.chain| + 1 && s.v.chain != [] && s.v.pos[0] <= tl
    requires Canonical(l) && Collected(s.list, l, s.v.tl + s.prod.n, tl)
    requires s.list == [] ==> m == s.mem && t == s.enq.tree && a == s.v.enqFrom && c == s.prod.wc
    requires s.list != [] ==>
               && Chain(m, s.v.chain, s.v.pos) && OnlyFlags(s.mem, m, s.v.chain, true) && Index(m, t, s.v.chain, s.v.pos, true, a, s.v.enqTo)
               && c == ChunkFor(s.v.chain, s.v.pos, tl)
               && (a < s.v.enqTo ==> s.v.enqFrom < s.v.enqTo && a < |s.v.chain| && s.v.pos[a] <= tl < s.v.pos[a + 1])
               && (l == [] ==> a == s.v.enqTo)
    ensures EnabledProd(s, PPublish(m, t, c, a, tl, l))
  {
    hide Chain, OnlyFlags, ChunkFor, Index, Canonical, Collected, Finished;
  }

  /** f_update_ooo_deq finds the chunk for a peek, without leaving the chain. */
  method SeekPeek(s: State) returns (m: Memory, t: Tree, c: Sptr, ghost b: nat)
    requires Sound(s) && s.cons.CSeeking?
    ensures EnabledCons(s, CSeek(m, t, c, b))
  {
    hide *;
    Numbers(s);
    SeekPhaseCons(s);
    EndIs(s.v);
    AddWraps(s.hd, s.cons.o);
    AddWraps(s.hd + s.cons.o, s.cons.n);
    SmallSizes();
    var p := Add(s.head, s.cons.o);
    m, t, c, b := LookupDeq(s.mem, s.shr.startChunk, s.deq, p, Add(p, s.cons.n), s.v, s.hd + s.cons.o, s.hd + s.cons.o + s.cons.n);
    FoundIs(s, m, t, c, b);
  }

  lemma FoundIs(s: State, m: Memory, t: Tree, c: Sptr, b: nat)
    requires s.cons.CSeeking? && |s.v.pos| == |s.v.chain| + 1 && s.v.chain != [] && s.v.pos[0] <= s.hd + s.cons.o
    requires Chain(m, s.v.chain, s.v.pos) && OnlyFlags(s.mem, m, s.v.chain, false) && c == ChunkFor(s.v.chain, s.v.pos, s.hd + s.cons.o)
    requires Index(m, t, s.v.chain, s.v.pos, false, 0, b) && (b > 0 ==> s.deq.init)
    ensures EnabledCons(s, CSeek(m, t, c, b))
  {
    hide Chain, OnlyFlags, ChunkFor, Index;
  }

  lemma PutFirst(x: Interval, r: seq<Interval>)
    requires Canonical(r) && x.lo < x.hi && (forall i :: 0 <= i < |r| ==> x.hi < r[i].lo)
    ensures Canonical([x] + r) && forall p :: Covers([x] + r, p) <==> Covers(r, p) || x.lo <= p < x.hi
  {
    var l := [x] + r;
    assert forall i :: 0 < i < |l| ==> l[i] == r[i - 1];
    forall p ensures Covers(l, p) <==> Covers(r, p) || x.lo <= p < x.hi {
      if x.lo <= p < x.hi {
        assert l[0].lo <= p < l[0].hi;
      } else if Covers(r, p) {
        var i :| 0 <= i < |r| && r[i].lo <= p < r[i].hi;
        assert l[i + 1].lo <= p < l[i + 1].hi;
      }
    }
  }

  lemma RestCanonical(segs: seq<Interval>)
    requires Canonical(segs) && segs != []
    ensures Canonical(segs[1..]) && segs[0].lo < segs[0].hi && forall i :: 0 <= i < |segs| - 1 ==> segs[0].hi < segs[1..][i].lo
  {
  }

  /** There is a list that covers the positions lo..hi in addition. */
  lemma {:induction false} AddedTo(segs: seq<Interval>, low: int, lo: int, hi: int) returns (l: seq<Interval>)
    requires Canonical(segs) && low < lo < hi && (forall i :: 0 <= i < |segs| ==> low < segs[i].lo)
    ensures Canonical(l) && Added(segs, l, lo, hi) && (forall i :: 0 <= i < |l| ==> low < l[i].lo)
    decreases |segs|
  {
    hide Covers, Canonical;
    if segs == [] {
      l := [Interval(lo, hi)];
      PutFirst(Interval(lo, hi), []);
      assert [Interval(lo, hi)] + [] == l;
    } else {
      var first, rest := segs[0], segs[1..];
      assert segs == [first] + rest;
      RestCanonical(segs);
      PutFirst(first, rest);
      if hi < first.lo {
        l := [Interval(lo, hi)] + segs;
        PutFirst(Interval(lo, hi), segs);
      } else if first.hi < lo {
        var r := AddedTo(rest, first.hi, lo, hi);
        l := [first] + r;
        PutFirst(first, r);
      } else {
        l := AddedTo(rest, low, if lo < first.lo then lo else first.lo, if hi < first.hi then first.hi else hi);
      }
    }
  }

  lemma SeekerGoesOn(s: State)
    requires Sound(s) && s.prod.PSeeking?
    ensures ProducerGoesOn(s) <==> !Short(s)
  {
    hide *;
    Numbers(s);
    Parts(s);
    SeekPhase(s);
    EndIs(s.v);
    ShortIs(s);
    if Short(s) {
      NoneSought(s);
    } else {
      FifoIs(s);
      CanonicalList(s);
      BeyondIs(s.segs, s.v.tl, s.hd + s.size);
      var l := AddedTo(s.segs, s.v.tl, s.v.tl + s.prod.o, s.v.tl + s.prod.o + s.prod.n);
      AnchoredOld(s.mem, s.v, s.shr, s.enq, s.size, s.segs, s.v.tl + s.prod.o + s.prod.n);
      OnlyFlagsRefl(s.mem, s.v.chain, true);
      EnqNames(s);
      var c := ChunkFor(s.v.chain, s.v.pos, s.v.tl + s.prod.o);
      SoughtIs(s, s.mem, s.enq.tree, c, s.v.enqFrom, s.v.enqTo, l);
      SeekerIs(s, PSeek(s.mem, s.enq.tree, c, s.v.enqFrom, s.v.enqTo, l));
    }
  }

  lemma BeyondIs(segs: seq<Interval>, tl: int, limit: int)
    requires Beyond(segs, tl, limit)
    ensures forall i :: 0 <= i < |segs| ==> tl < segs[i].lo
  {
  }

  lemma NoneSought(s: State)
    requires s.prod.PSeeking? && Short(s)
    ensures !ProducerGoesOn(s)
  {
    hide Chain, OnlyFlags, ChunkFor, Index, Anchored, Canonical, Added;
  }

  lemma SeekerIs(s: State, a: Action)
    requires s.prod.PSeeking? && a.PSeek? && EnabledProd(s, a)
    ensures ProducerGoesOn(s)
  {
    hide EnabledProd;
  }

  /** Where position p of chunk i is among the chunk's bytes. */
  lemma InsideChunk(s: State, i: nat, p: int)
    requires Sound(s) && i < |s.v.chain| && s.v.pos[i] <= p < s.v.pos[i + 1]
    ensures s.v.chain[i] in s.mem && Sub(Wrap(p), s.mem[s.v.chain[i]].start) == p - s.v.pos[i] < |s.mem[s.v.chain[i]].data|
  {
    Numbers(s);
    hide Sound, Wrap, Sub, Holds, ChunkEnd, Reach, WellSized;
    ChainAt(s.mem, s.v.chain, s.v.pos, i);
    SubWraps(s.v.pos[i], p);
  }

  lemma WriterSteps(s: State)
    requires s.prod.PWriting? && s.prod.n <= |s.prod.src| && NULL !in s.mem && s.prod.o + s.prod.n < TWO_32 && s.prod.w <= s.prod.n
    ensures s.prod.w < s.prod.n && Here(s, s.prod.wc, s.shr.tail, s.prod.o + s.prod.w) && s.prod.wc in s.mem ==>
              (Sub(Add(s.shr.tail, s.prod.o + s.prod.w), s.mem[s.prod.wc].start) < |s.mem[s.prod.wc].data| ==> EnabledProd(s, PWrite))
    ensures s.prod.wc in s.mem && !Here(s, s.prod.wc, s.shr.tail, s.prod.o + s.prod.w) ==> EnabledProd(s, PMove)
    ensures s.prod.w == s.prod.n && (s.prod.wc == NULL || Here(s, s.prod.wc, s.shr.tail, s.prod.o + s.prod.n)) ==> Finished(s)
    ensures s.prod.wc == NULL && s.prod.w < s.prod.n ==> !EnabledProd(s, PWrite) && !EnabledProd(s, PMove) && !Finished(s)
  {
    hide Sub, Add, IncludesPos;
  }

  lemma WriterGoesOn(s: State)
    requires Sound(s) && s.prod.PWriting?
    ensures EnabledProd(s, PWrite) || EnabledProd(s, PMove) || Finished(s) <==> !Short(s)
  {
    hide *;
    Numbers(s);
    WritePhase(s);
    RoomIs(s.prod.src, s.prod.n, s.prod.o, s.hd + s.size - s.v.tl);
    ShortIs(s);
    WriterSteps(s);
    if s.prod.wc != NULL {
      var i := WritingAt(s);
      NextInChain(s, i);
      if s.v.tl + s.prod.o + s.prod.w < s.v.pos[i + 1] {
        InsideChunk(s, i, s.v.tl + s.prod.o + s.prod.w);
      }
    }
  }

  /** The producer can go on exactly when the chain is not short of the write, and it is never
      short when the chain reaches to the end of the write, nor in a fifo of at most 4 MB. */
  lemma ProducerProgress(s: State)
    requires Sound(s)
    ensures ProducerGoesOn(s) <==> !Short(s)
    ensures Covered(s) ==> !Short(s)
    ensures s.size <= MAX_SIZE ==> !Short(s)
  {
    Numbers(s);
    Parts(s);
    ShortIs(s);
    if s.prod.PWriting? {
      WriterGoesOn(s);
      WritePhase(s);
    } else if s.prod.PSeeking? {
      SeekerGoesOn(s);
    } else if s.prod.PLoaded? {
      NeedsMoreIs(s, s.prod.o + s.prod.n);
    } else if s.prod.PAlloced? {
      AllocPhase(s);
    }
    hide Sound, Base, Pool, ConsOk, Books, Chain, ListOk, NeedsMore, Here, Sub, Wrap, ChunkEnd, Holds, Overlay, Around, Reach, WellSized, Sought, Cleared;
  }

  lemma ReaderSteps(s: State)
    requires s.cons.CReading? && s.shr.startChunk in s.mem && s.cons.o + s.cons.n < TWO_32 && s.cons.r <= s.cons.n
    ensures s.cons.r < s.cons.n && Here(s, s.cons.c, s.head, s.cons.o + s.cons.r) && s.cons.c in s.mem ==>
              (Sub(Add(s.head, s.cons.o + s.cons.r), s.mem[s.cons.c].start) < |s.mem[s.cons.c].data| ==> EnabledCons(s, CRead))
    ensures s.cons.c in s.mem && !Here(s, s.cons.c, s.head, s.cons.o + s.cons.r) ==> EnabledCons(s, CMove)
    ensures s.cons.r == s.cons.n && (s.cons.c == NULL || Here(s, s.cons.c, s.head, s.cons.o + s.cons.n)) ==> EnabledCons(s, CDone) || EnabledCons(s, CPeeked)
  {
    hide Sub, Add, IncludesPos;
  }

  lemma ReaderGoesOn(s: State)
    requires Sound(s) && s.cons.CReading?
    ensures EnabledCons(s, CRead) || EnabledCons(s, CMove) || EnabledCons(s, CDone) || EnabledCons(s, CPeeked)
  {
    hide *;
    Numbers(s);
    ReadPhase(s);
    ReaderSteps(s);
    if s.cons.c != NULL {
      var i := ReadingAt(s);
      NextInChain(s, i);
      if s.hd + s.cons.o + s.cons.r < s.v.pos[i + 1] {
        InsideChunk(s, i, s.hd + s.cons.o + s.cons.r);
      }
    }
  }

  lemma PeekerGoesOn(s: State)
    requires Sound(s) && s.cons.CSeeking?
    ensures ConsumerGoesOn(s)
  {
    hide *;
    Numbers(s);
    SeekPhaseCons(s);
    DeqParts(s.mem, s.v, s.deq);
    OnlyFlagsRefl(s.mem, s.v.chain, false);
    var c := ChunkFor(s.v.chain, s.v.pos, s.hd + s.cons.o);
    FoundIs(s, s.mem, s.deq.tree, c, s.v.deqTo);
    PeekerIs(s, CSeek(s.mem, s.deq.tree, c, s.v.deqTo));
  }

  lemma PeekerIs(s: State, a: Action)
    requires s.cons.CSeeking? && a.CSeek? && EnabledCons(s, a)
    ensures ConsumerGoesOn(s)
  {
    hide EnabledCons;
  }

  lemma UnlinkerSteps(s: State)
    requires s.cons.CWalking? || s.cons.CCutting?
    requires s.cons.c in s.mem && s.cons.n < TWO_32 && (s.cons.prev == NULL || s.cons.prev in s.mem) && s.cons.k < |s.v.chain| <= |s.v.pos|
    ensures ConsumerGoesOn(s)
  {
  }

  lemma IdlerSteps(s: State)
    requires s.cons.CIdle? && s.shr.startChunk in s.mem && Sub(s.shr.tail, s.head) == |s.sent| - |s.taken|
    ensures ConsumerGoesOn(s)
  {
    hide Sub;
  }

  lemma OtherSteps(s: State)
    ensures s.cons.CStoring? ==> ConsumerGoesOn(s)
    ensures s.cons.CReading? && (EnabledCons(s, CRead) || EnabledCons(s, CMove) || EnabledCons(s, CDone) || EnabledCons(s, CPeeked)) ==> ConsumerGoesOn(s)
  {
    hide ReadDone, Here, Sub, Add;
  }

  /** The consumer can always go on. */
  lemma ConsumerProgress(s: State)
    requires Sound(s)
    ensures ConsumerGoesOn(s)
  {
    hide *;
    Numbers(s);
    ReadIsPrefix(s);
    OtherSteps(s);
    if s.cons.CIdle? {
      IdlerSteps(s);
    } else if s.cons.CSeeking? {
      PeekerGoesOn(s);
    } else if s.cons.CReading? {
      ReaderGoesOn(s);
    } else if s.cons.CWalking? || s.cons.CCutting? {
      WalkPhase(s);
      NextInChain(s, s.cons.k);
      if s.cons.k > 0 {
        NextInChain(s, s.cons.k - 1);
      }
      HeadLeaves(s, s.cons.n);
      UnlinkerSteps(s);
    }
  }

  /** What f_try_chunk_alloc asks for and fsh_alloc_chunk hands out is a growth of the model. */
  lemma AllocGranted(size: nat, room: int, missing: nat, total: nat)
    requires missing > 0
    requires var a := AllocSize(MinAlloc(size), room, missing); 0 <= a && total <= Cap(a) && (a <= MAX_SIZE ==> a <= total)
    ensures Granted(missing, total)
  {
  }

  ghost predicate Run(s: State, acts: seq<Action>)
    decreases |acts|
  {
    acts != [] ==> Enabled(s, acts[0]) && Run(Apply(s, acts[0]), acts[1..])
  }

  ghost function Exec(s: State, acts: seq<Action>): State
    requires Run(s, acts)
    decreases |acts|
  {
    if acts == [] then s else Exec(Apply(s, acts[0]), acts[1..])
  }

  /** In every interleaving the bytes read or dropped so far are a prefix of the bytes published
      so far, the fifo never holds more than its size, no chunk is in two places or in none, the
      trees and cached chunks name no chunk that was given back, and both sides can go on:
      neither ever follows a null pointer or leaves a chunk's bytes, unless the producer's last
      growth was too short for its write, which needs a fifo of more than 4 MB. */
  lemma {:induction false} RunSafe(s: State, acts: seq<Action>)
    requires Sound(s) && Run(s, acts)
    ensures var s' := Exec(s, acts);
            && Sound(s') && s'.taken <= s'.sent && |s'.sent| - |s'.taken| <= s'.size == s.size
            && s.sent <= s'.sent && s.taken <= s'.taken
            && NamesLive(s') && Pool(s') && ConsumerGoesOn(s')
            && (ProducerGoesOn(s') <==> !Short(s')) && (s.size <= MAX_SIZE ==> ProducerGoesOn(s'))
    decreases |acts|
  {
    hide Sound, Enabled, Apply, ProducerGoesOn, ConsumerGoesOn, Pool, NamesLive, Short, Covered;
    if acts != [] {
      StepKeeps(s, acts[0]);
      OnlyAppends(s, acts[0]);
      RunSafe(Apply(s, acts[0]), acts[1..]);
    } else {
      ReadIsPrefix(s);
      ProducerProgress(s);
      ConsumerProgress(s);
      TreesLive(s);
      Parts(s);
    }
  }

  lemma OnlyAppends(s: State, a: Action)
    requires Enabled(s, a)
    ensures s.sent <= Apply(s, a).sent && s.taken <= Apply(s, a).taken && Apply(s, a).size == s.size
  {
    hide *;
    StepIs(s, a);
    if a.Scribble? {
      ScribbleAppends(s, a);
    } else if EnabledProd(s, a) {
      ProdAppends(s, a);
    } else {
      ConsAppends(s, a);
    }
  }

  lemma ScribbleAppends(s: State, a: Action)
    requires Enabled(s, a) && a.Scribble?
    ensures s.sent == Apply(s, a).sent && s.taken == Apply(s, a).taken && Apply(s, a).size == s.size
  {
    hide EnabledProd, EnabledCons, ApplyProd, ApplyCons;
  }

  lemma ProdAppends(s: State, a: Action)
    requires EnabledProd(s, a)
    ensures s.sent <= ApplyProd(s, a).sent && s.taken == ApplyProd(s, a).taken && ApplyProd(s, a).size == s.size
  {
    hide Overlay, Bytes, Sub, Add, Wrap, ChunkEnd, Layout, TotalLength, Prepared, Sought, Cleared, Finished, NeedsMore, Granted, Here, Rewrite, Store, End;
  }

  lemma ConsAppends(s: State, a: Action)
    requires EnabledCons(s, a)
    ensures s.sent == ApplyCons(s, a).sent && s.taken <= ApplyCons(s, a).taken && ApplyCons(s, a).size == s.size
  {
    hide Bytes, Sub, Add, Wrap, ChunkEnd, Found, ReadDone, Here, Leaves, Dropped, Delete, IncludesPos, PosLt;
  }

  /** An empty fifo over a chain that starts at position 0, with a pool of other chunks. */
  ghost function Init(mem: Memory, chain: seq<Sptr>, pos: seq<int>, free: set<Sptr>, size: nat, enqInit: bool, deqInit: bool): State
    requires chain != []
  {
    var last := chain[|chain| - 1];
    State(mem, Shared(chain[0], last, chain[0], chain[0], 0, 0), 0, Lookup(Nil, enqInit, NULL), Lookup(Nil, deqInit, NULL), [], free, size,
          PIdle, CIdle, [], [], View(chain, pos, map[], 0, 0, 0, 0, 0), [], 0)
  }

  lemma InitOk(mem: Memory, chain: seq<Sptr>, pos: seq<int>, free: set<Sptr>, size: nat, enqInit: bool, deqInit: bool)
    requires Chain(mem, chain, pos) && pos[0] == 0 && pos[|chain|] <= Reach(size) && 0 < size <= MAX_FIFO
    requires forall i: nat :: i < |chain| ==> LaidOutAt(mem, chain, pos, i)
    requires (forall x :: x in chain ==> x !in free) && mem.Keys == free + (set x | x in chain) && NULL !in mem && WellSized(mem)
    ensures Sound(Init(mem, chain, pos, free, size, enqInit, deqInit))
  {
    var s := Init(mem, chain, pos, free, size, enqInit, deqInit);
    InitialSides(mem, chain, pos, chain[0], size);
    hide Stream, Pointers, Index, Bytes, Reach, WellSized, LaidOutAt, NotPast;
    ZeroWraps();
    NoBytes(map[], 0);
    assert forall x :: x in s.mem <==> x in s.free || x in s.v.chain;
    assert Pool(s) && Books(s);
    assert FifoInv(s.mem, s.v, s.shr, s.enq, s.size, s.segs) && DeqInv(s.mem, s.v, s.deq);
    hide FifoInv, DeqInv, Pool, Books, Chain, Sound;
    Quiescent(s);
  }
}
