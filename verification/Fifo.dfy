/** A fifo over a segment (src/svm/svm_fifo.c): byte stream with out-of-order enqueues and
    peeks, in chunks that it takes from the segment as it grows and gives back as it drains.
    The ghost positions hd and tl and those of pos do not wrap. */
module Fifos {
  import opened Position
  import opened OooSegments
  import opened Chunks
  import opened SizeClasses
  import opened FreeLists
  import opened SegmentState
  import opened Segments
  import opened ChunkTree
  import opened ChunkIndex
  import opened Chains
  import opened Ownership
  import opened FifoState
  import opened FifoViews

  class Fifo {
    const seg: Segment
    const slice: nat
    const size: nat
    const minAlloc: nat
    const ooo: OooList
    var shr: Shared
    var enq: Lookup
    var deq: Lookup
    ghost var v: View

    /** Everything but the dequeue lookup. */
    ghost predicate Shaped()
      reads this, seg, ooo
    {
      && seg.Valid() && slice < seg.nSlices && HandedOut(seg.place, v.chain, slice)
      && ooo.Valid() && minAlloc == MinAlloc(size)
      && FifoInv(seg.mem, v, shr, enq, size, ooo.segs)
    }

    ghost predicate Valid()
      reads this, seg, ooo
    {
      Shaped() && DeqInv(seg.mem, v, deq)
    }

    lemma Open()
      requires Shaped() || Valid()
      ensures Shaped() && seg.Valid() && slice < seg.nSlices && HandedOut(seg.place, v.chain, slice) && ooo.Valid() && minAlloc == MinAlloc(size)
      ensures FifoInv(seg.mem, v, shr, enq, size, ooo.segs)
      ensures Valid() <==> DeqInv(seg.mem, v, deq)
    {
    }

    lemma Close()
      requires seg.Valid() && slice < seg.nSlices && HandedOut(seg.place, v.chain, slice) && ooo.Valid() && minAlloc == MinAlloc(size)
      requires FifoInv(seg.mem, v, shr, enq, size, ooo.segs)
      ensures Shaped()
      ensures DeqInv(seg.mem, v, deq) <==> Valid()
    {
    }

    /** svm_fifo_init: an empty fifo over the chunks that were allocated for it. */
    constructor (seg: Segment, slice: nat, size: nat, first: Sptr, ghost got: seq<Sptr>)
      requires seg.Valid() && slice < seg.nSlices && 0 < size <= MAX_FIFO
      requires NewChunks(seg.mem, first, got, []) && HandedOut(seg.place, got, slice) && TotalLength(seg.mem, got) <= Reach(size)
      modifies seg`mem
      ensures Valid() && this.seg == seg && this.slice == slice && this.size == size && fresh(ooo)
      ensures v.chain == got && v.log == map[] && v.hd == v.tl == 0 && ooo.segs == [] && enq == deq == Lookup(Nil, false, NULL)
      ensures OwnWrite(old(seg.mem), seg.mem, got)
      ensures |v.pos| == |v.chain| + 1 && v.pos[|v.chain|] == TotalLength(old(seg.mem), got)
    {
      hide *;
      this.seg, this.slice, this.size, minAlloc := seg, slice, size, MinAlloc(size);
      ooo := new OooList();
      ZeroWraps();
      NewChunksList(seg.mem, first, got, []);
      ghost var mem0 := seg.mem;
      var m, last := LayOut(seg.mem, first, 0, got, 0);
      InitialState(mem0, m, first, got, size, last);
      LayoutTotal(mem0, got, 0);
      shr := Shared(first, last, first, first, 0, 0);
      enq, deq := Lookup(Nil, false, NULL), Lookup(Nil, false, NULL);
      v := View(got, Layout(mem0, got, 0), map[], 0, 0, 0, 0, 0);
      new;
      seg.Write(m, got, slice);
      Close();
    }

    /** The second half of f_try_chunk_alloc: numbers the new chunks and links them to the end. */
    method LinkChunks(c: Sptr, ghost got: seq<Sptr>)
      requires Valid() && |v.pos| == |v.chain| + 1 && NewChunks(seg.mem, c, got, v.chain) && HandedOut(seg.place, v.chain + got, slice)
      requires v.pos[|v.chain|] + TotalLength(seg.mem, got) - v.hd <= Reach(size)
      requires v.pos[|v.chain|] + TotalLength(seg.mem, got) - v.pos[0] < TWO_31
      modifies this`shr, this`v, seg`mem
      ensures Valid() && OwnWrite(old(seg.mem), seg.mem, v.chain) && shr.tailChunk != NULL
      ensures v == old(Grown(v, seg.mem, got)) && v.chain == old(v.chain) + got && |v.pos| == |v.chain| + 1
      ensures v.pos[..|old(v).pos|] == old(v).pos && v.pos[|v.chain|] == old(v.pos[|v.chain|] + TotalLength(seg.mem, got))
      ensures shr == old(shr).(endChunk := shr.endChunk, tailChunk := shr.tailChunk)
      ensures old(shr).tailChunk != NULL ==> shr.tailChunk == old(shr).tailChunk
    {
      hide *;
      Open();
      Facts(seg.mem, v, shr, enq, size, ooo.segs);
      NewChunksList(seg.mem, c, got, v.chain);
      ghost var mem1 := seg.mem;
      var m, last := LayOut(seg.mem, c, ChunkEnd(seg.mem[shr.endChunk]), got, v.pos[|v.chain|]);
      GrownState(mem1, m, v, shr, enq, deq, size, ooo.segs, c, got, last);
      GrownChain(v, shr, mem1, got, c, last);
      seg.Write(Link(m, shr.endChunk, c, last), v.chain + got, slice);
      shr := GrownShared(shr, c, last);
      v := Grown(v, mem1, got);
      Close();
    }

    /** f_try_chunk_alloc: grows the chain until it holds len bytes past the tail, or fails
        and leaves it as it was. */
    method TryChunkAlloc(len: nat) returns (ok: bool)
      requires Valid() && |v.pos| == |v.chain| + 1
      requires v.pos[|v.chain|] < v.tl + len <= v.hd + size
      modifies this`shr, this`v, seg
      ensures Valid() && Conserves(old(seg.mem), old(seg.place), old(v).chain, seg.mem, seg.place, v.chain)
      ensures !ok ==> shr == old(shr) && v == old(v)
      ensures ok <==> !Starved(old(seg.Left()), slice, size, old(v), len)
      ensures shr == old(shr).(endChunk := shr.endChunk, tailChunk := shr.tailChunk)
      ensures old(shr).tailChunk != NULL ==> shr.tailChunk == old(shr).tailChunk
      ensures |v.pos| == |v.chain| + 1 && v == old(v).(chain := v.chain, pos := v.pos)
      ensures old(v).chain <= v.chain && old(v).pos <= v.pos && v.pos[|v.chain|] >= old(v.pos[|v.chain|])
      ensures ok ==> v.pos[|v.chain|] > v.tl && (v.tl + len <= v.pos[|v.chain|] <==> Safe(old(seg.Left()), slice, size, old(v), len))
      ensures ok ==> Obtained(Growth(size, old(v), len), v.pos[|v.chain|] - old(v.pos[|v.chain|]))
    {
      hide *;
      Open();
      ghost var mem0, place0, p, v0 := seg.mem, seg.place, seg.Left(), v;
      seg.ChunkSizes();
      Facts(seg.mem, v, shr, enq, size, ooo.segs);
      GrowthBounds(seg.mem, v, shr, enq, size, ooo.segs, len);
      var freeAlloced := Sub(ChunkEnd(seg.mem[shr.endChunk]), shr.tail);
      var allocSize := AllocSize(minAlloc, size - Sub(shr.tail, shr.head), len - freeAlloced);
      var c; ghost var got;
      c, got := seg.TryAllocChunk(slice, allocSize);
      StarvedIs(p, slice, size, v, len, allocSize);
      seg.ChunkSizes();
      if c != NULL {
        SafeGrowth(p, slice, size, v, len, allocSize, TotalLength(seg.mem, got));
        ObtainedIs(size, v, len, allocSize, TotalLength(seg.mem, got));
      }
      ghost var mem1, place1 := seg.mem, seg.place;
      if c == NULL {
        ConservesExtends(mem0, place0, v.chain, mem1, place1);
        ExtendsSame(mem0, place0, mem1, place1, v.chain, slice);
        Same(mem0, mem1, v, shr, enq, deq, size, ooo.segs);
        ok := false;
        Close();
        return;
      }
      ok := true;
      AllocatedNew(mem0, place0, mem1, place1, c, got, slice, v.chain);
      ConservesAllocated(mem0, place0, v.chain, mem1, place1, c, got, slice);
      HandedOutPart(place1, v.chain, got, slice);
      Same(mem0, mem1, v, shr, enq, deq, size, ooo.segs);
      Close();
      LinkChunks(c, got);
      ConservesWrite(mem1, place1, v.chain, seg.mem);
      ConservesTrans(mem0, place0, v0.chain, mem1, place1, v.chain, seg.mem, place1, v.chain);
      GrownFields(v0, mem1, got);
    }

    /** The second half of svm_fifo_enqueue, once src is in the chunks: collects the
        segments that the tail has reached and publishes the new tail. */
    method Publish(m1: Memory, n: nat, tailC: Sptr, oldTailC: Sptr, ghost src: seq<u8>) returns (r: nat)
      requires Valid() && |v.pos| == |v.chain| + 1 && v.chain != [] && n == |src|
      requires v.tl + n <= v.hd + size && v.tl + n <= v.pos[|v.chain|] && Copied(seg.mem, m1, v, v.tl, src)
      requires v.pos[0] <= v.tl && tailC == ChunkFor(v.chain, v.pos, v.tl + n)
      requires ooo.segs == [] || oldTailC == shr.tailChunk
      modifies this`shr, this`enq, this`v, seg`mem, ooo`pool, ooo`listHead, ooo`order, ooo`segs
      ensures Valid() && OwnWrite(old(seg.mem), seg.mem, v.chain)
      ensures v == old(v).(log := Overlay(old(v).log, old(v).tl, src), tl := old(v).tl + r, enqFrom := v.enqFrom, enqTo := v.enqTo)
      ensures n <= r && v.tl !in v.log && Collected(old(ooo.segs), ooo.segs, old(v).tl + n, v.tl)
    {
      hide *;
      Open();
      ghost var mem0, segs0 := seg.mem, ooo.segs;
      Facts(seg.mem, v, shr, enq, size, ooo.segs);
      ooo.Empty();
      AddWraps(v.tl, n);
      CollectReady(ooo.segs, v.hd, v.tl, size, n);
      var tail := Add(shr.tail, n);
      if ooo.listHead != INVALID {
        var bytes, c, t, m2; ghost var t', a;
        bytes, tail, t' := ooo.TryCollect(n, tail, v.tl + n);
        ooo.Empty();
        ghost var i := TailIndex(mem0, m1, v, shr, enq, size, segs0, src, ooo.segs, t');
        CopiedParts(mem0, m1, v, v.tl, src, enq.tree, v.enqFrom, v.enqTo);
        m2, t, c, a := ClearEnqChunks(m1, enq.tree, oldTailC, tail, ooo.listHead == INVALID, v.chain, v.pos, v.enqFrom, v.enqTo, i, t');
        EnqueuedState(mem0, m1, m2, v, shr, enq, deq, size, segs0, src, t', ooo.segs, t, a, v.enqTo, c);
        seg.Write(m2, v.chain, slice);
        r := n + bytes;
        shr := shr.(tail := tail, tailChunk := c);
        enq := enq.(tree := t, cached := NULL);
        v := v.(log := Overlay(v.log, v.tl, src), tl := t', enqFrom := a);
      } else {
        NoSegments(mem0, v, shr, enq, size);
        CopiedParts(mem0, m1, v, v.tl, src, enq.tree, v.enqFrom, v.enqTo);
        NothingCollected(v.tl + n);
        EnqueuedState(mem0, m1, m1, v, shr, enq, deq, size, segs0, src, v.tl + n, [], enq.tree, v.enqFrom, v.enqTo, tailC);
        seg.Write(m1, v.chain, slice);
        r := n;
        shr := shr.(tail := tail, tailChunk := tailC);
        v := v.(log := Overlay(v.log, v.tl, src), tl := v.tl + n);
      }
      Close();
    }

    /** Makes room for len bytes past the tail, or for as many as the chain holds. */
    method Reserve(len: nat) returns (n: nat)
      requires Valid() && |v.pos| == |v.chain| + 1 && v.tl + len <= v.hd + size
      modifies this`shr, this`v, seg
      ensures Valid() && Conserves(old(seg.mem), old(seg.place), old(v).chain, seg.mem, seg.place, v.chain)
      ensures |v.pos| == |v.chain| + 1 && v == old(v).(chain := v.chain, pos := v.pos)
      ensures old(v).chain <= v.chain && old(v).pos <= v.pos
      ensures v.tl + n <= v.pos[|v.chain|] <==> n < len || Safe(old(seg.Left()), slice, size, old(v), len)
      ensures n <= len && Takes(old(v), len, n, old(seg.Left()), slice, size)
      ensures n < len <==> old(v.tl + len > v.pos[|v.chain|] && Starved(seg.Left(), slice, size, v, len))
      ensures old(shr).tailChunk != NULL ==> shr.tailChunk == old(shr).tailChunk
      ensures n > 0 ==> shr.tailChunk != NULL
      ensures n < len || old(v.tl) + len <= old(v.pos[|v.chain|]) ==> v == old(v)
      ensures old(v.tl) + len <= old(v.pos[|v.chain|]) ==> unchanged(seg)
    {
      hide *;
      Open();
      Facts(seg.mem, v, shr, enq, size, ooo.segs);
      NeedsRoom(v.tl, len, v.pos[|v.chain|], v.hd, size);
      ghost var p, v0 := seg.Left(), v;
      n := len;
      if PosGt(Add(shr.tail, len), ChunkEnd(seg.mem[shr.endChunk])) {
        var ok := TryChunkAlloc(len);
        Open();
        Facts(seg.mem, v, shr, enq, size, ooo.segs);
        if !ok {
          n := Sub(ChunkEnd(seg.mem[shr.endChunk]), shr.tail);
        }
      } else {
        seg.ChunkSizes();
        ConservesRefl(seg.mem, seg.place, v.chain);
      }
      TakesIs(v0, len, n, p, slice, size);
      if v0.tl + len <= v0.pos[|v0.chain|] {
        SafeFits(p, slice, size, v0, len);
      }
      ghost var i := TailChunk(seg.mem, v, shr, enq, size, ooo.segs);
    }

    /** The second half of svm_fifo_enqueue, once the chain has room. */
    method AppendBytes(src: seq<u8>) returns (r: nat)
      requires Valid() && |v.pos| == |v.chain| + 1 && shr.tailChunk != NULL
      requires v.tl + |src| <= v.hd + size && v.tl + |src| <= v.pos[|v.chain|]
      modifies this`shr, this`enq, this`v, seg`mem, ooo`pool, ooo`listHead, ooo`order, ooo`segs
      ensures Valid() && OwnWrite(old(seg.mem), seg.mem, v.chain)
      ensures v == old(v).(log := Overlay(old(v).log, old(v).tl, src), tl := old(v).tl + r, enqFrom := v.enqFrom, enqTo := v.enqTo)
      ensures |src| <= r && v.tl !in v.log && Collected(old(ooo.segs), ooo.segs, old(v).tl + |src|, v.tl)
    {
      hide *;
      Open();
      Facts(seg.mem, v, shr, enq, size, ooo.segs);
      ghost var i := TailChunk(seg.mem, v, shr, enq, size, ooo.segs);
      var m, moved, last := CopyToChunk(seg.mem, shr.tailChunk, shr.tail, src, v.chain, v.pos, v.log, i, v.tl);
      CopiedIs(seg.mem, m, v, v.tl, src);
      r := Publish(m, |src|, if moved then last else shr.tailChunk, shr.tailChunk, src);
    }

    /** svm_fifo_enqueue: writes what fits of src at the tail. The result says how far the
        tail has moved, which is further than what was written when it reached segments. */
    method Enqueue(src: seq<u8>) returns (r: int, ghost n: nat)
      requires Valid() && |v.pos| == |v.chain| + 1 && Safe(seg.Left(), slice, size, v, Least(|src|, size - (v.tl - v.hd)))
      requires src == [] ==> shr.tailChunk != NULL || v.tl - v.hd == size
      modifies this`shr, this`enq, this`v, seg, ooo
      ensures Valid() && Conserves(old(seg.mem), old(seg.place), old(v).chain, seg.mem, seg.place, v.chain)
      ensures Outcome(old(v), old(ooo.segs), old(seg.Left()), slice, size, src, r, n, v, ooo.segs)
      ensures old(v.tl + Least(|src|, size - (v.tl - v.hd)) <= v.pos[|v.chain|]) ==> seg.byteIndex == old(seg.byteIndex) && seg.maxByteIndex == old(seg.maxByteIndex)
    {
      hide *;
      Open();
      ooo.ResetNewest();
      Close();
      Errors();
      r, n := EFULL, 0;
      Facts(seg.mem, v, shr, enq, size, ooo.segs);
      ghost var mem0, place0, p, v0, segs0 := seg.mem, seg.place, seg.Left(), v, ooo.segs;
      seg.ChunkSizes();
      ConservesRefl(seg.mem, seg.place, v.chain);
      LeastIs(|src|, size - (v.tl - v.hd));
      ghost var want := Least(|src|, size - (v.tl - v.hd));
      var free := size - Sub(shr.tail, shr.head);
      var len := Least(|src|, free);
      if free == 0 {
        TakesIs(v, len, 0, p, slice, size);
        ChainStays(v0, want, n);
        OutcomeIs(v0, segs0, p, slice, size, src, r, n, v, ooo.segs);
        return;
      }
      len := Reserve(len);
      n := len;
      ChainGrowsIs(v0, v, want, n);
      if len == 0 && src != [] {
        r := EGROW;
        OutcomeIs(v0, segs0, p, slice, size, src, r, n, v, ooo.segs);
        return;
      }
      ghost var mem1, place1 := seg.mem, seg.place;
      Open();
      seg.ChunkSizes();
      r := AppendBytes(src[..len]);
      EnqueuedIs(v0, segs0, src[..len], r, v, ooo.segs);
      ChainGrowsIs(v0, v, want, n);
      OutcomeIs(v0, segs0, p, slice, size, src, r, n, v, ooo.segs);
      ConservesWrite(mem1, place1, v.chain, seg.mem);
      ConservesTrans(mem0, place0, v0.chain, mem1, place1, v.chain, seg.mem, seg.place, v.chain);
    }

    /** The second half of svm_fifo_enqueue_with_offset, once the chain has room. */
    method WriteAhead(offset: nat, src: seq<u8>)
      requires Valid() && |v.pos| == |v.chain| + 1 && offset > 0 && src != []
      requires v.tl + offset + |src| <= v.hd + size && v.tl + offset + |src| <= v.pos[|v.chain|]
      modifies this`enq, this`v, seg`mem, ooo
      ensures Valid() && OwnWrite(old(seg.mem), seg.mem, v.chain)
      ensures v == old(v).(log := Overlay(old(v).log, old(v).tl + offset, src), enqFrom := v.enqFrom, enqTo := v.enqTo)
      ensures Added(old(ooo.segs), ooo.segs, old(v).tl + offset, old(v).tl + offset + |src|)
      ensures ooo.newest == INVALID <==> forall p :: v.tl + offset <= p < v.tl + offset + |src| ==> old(Covers(ooo.segs, p))
    {
      hide *;
      Open();
      Facts(seg.mem, v, shr, enq, size, ooo.segs);
      var len := |src|;
      ghost var mem1, segs0, p := seg.mem, ooo.segs, v.tl + offset;
      CollectReady(ooo.segs, v.hd, v.tl, size, offset + len);
      AddWraps(v.tl, offset);
      AddWraps(p, len);
      var enqPos := Add(shr.tail, offset);
      ooo.AddSegment(offset, shr.tail, len, v.tl);
      ooo.Empty();
      var m, t, c; ghost var a, b;
      m, t, c, a, b := LookupEnq(seg.mem, shr, enq, enqPos, Add(enqPos, len), v, size, segs0, p, p + len);
      FlagsHold(mem1, m, v, shr, enq, size, segs0);
      ghost var i := Located(m, v, p);
      var m2, moved, last := CopyToChunk(m, c, enqPos, src, v.chain, v.pos, v.log, i, p);
      CopiedIs(m, m2, v, p, src);
      OffsetState(mem1, m, m2, v, shr, enq, deq, size, segs0, p, src, ooo.segs, t, a, b, if moved then last else c);
      seg.Write(m2, v.chain, slice);
      enq := enq.(tree := t, cached := if moved then last else c);
      v := v.(log := Overlay(v.log, p, src), enqFrom := a, enqTo := b);
      Close();
    }

    /** svm_fifo_enqueue_with_offset: writes all of src at an offset past the tail, or nothing. */
    method EnqueueWithOffset(offset: nat, src: seq<u8>) returns (r: int)
      requires Valid() && |v.pos| == |v.chain| + 1 && offset > 0 && src != [] && offset + |src| < TWO_32
      requires offset + |src| <= size - (v.tl - v.hd) ==> Safe(seg.Left(), slice, size, v, offset + |src|)
      modifies this`shr, this`enq, this`v, seg, ooo
      ensures Valid() && Conserves(old(seg.mem), old(seg.place), old(v).chain, seg.mem, seg.place, v.chain)
      ensures r == EFULL <==> offset + |src| > size - old(v.tl - v.hd)
      ensures r == 0 || r == EFULL || r == EGROW
      ensures r == EGROW <==>
                && offset + |src| <= size - old(v.tl - v.hd) && old(v.tl) + offset + |src| > old(v.pos[|v.chain|])
                && Starved(old(seg.Left()), slice, size, old(v), offset + |src|)
      ensures r < 0 ==> v == old(v) && ooo.segs == old(ooo.segs)
      ensures r == 0 ==> v.log == Overlay(old(v).log, old(v).tl + offset, src) && v.hd == old(v).hd && v.tl == old(v).tl
      ensures r == 0 ==> Added(old(ooo.segs), ooo.segs, old(v).tl + offset, old(v).tl + offset + |src|)
      ensures r < 0 ==> ooo.newest == INVALID
      ensures r == 0 ==> (ooo.newest == INVALID <==> forall p :: v.tl + offset <= p < v.tl + offset + |src| ==> old(Covers(ooo.segs, p)))
    {
      hide *;
      Open();
      ooo.ResetNewest();
      Close();
      Errors();
      Facts(seg.mem, v, shr, enq, size, ooo.segs);
      ghost var mem0, place0, v0, segs0 := seg.mem, seg.place, v, ooo.segs;
      seg.ChunkSizes();
      ConservesRefl(seg.mem, seg.place, v.chain);
      var len := |src|;
      if offset + len > size - Sub(shr.tail, shr.head) {
        return EFULL;
      }
      var n := Reserve(offset + len);
      if n < offset + len {
        return EGROW;
      }
      ghost var mem1, place1 := seg.mem, seg.place;
      Open();
      seg.ChunkSizes();
      WriteAhead(offset, src);
      ConservesWrite(mem1, place1, v.chain, seg.mem);
      ConservesTrans(mem0, place0, v0.chain, mem1, place1, v.chain, seg.mem, seg.place, v.chain);
      r := 0;
    }

    /** The second half of svm_fifo_enqueue_segments, once the chain has room. */
    method AppendBuffers(bufs: seq<seq<u8>>, n: nat, oldTailC: Sptr) returns (r: nat)
      requires Valid() && |v.pos| == |v.chain| + 1 && n <= |Concat(bufs)| && (forall i :: 0 <= i < |bufs| ==> bufs[i] != [])
      requires v.tl + n <= v.hd + size && v.tl + n <= v.pos[|v.chain|]
      requires ooo.segs == [] || oldTailC == shr.tailChunk
      modifies this`shr, this`enq, this`v, seg`mem, ooo`pool, ooo`listHead, ooo`order, ooo`segs
      ensures Valid() && OwnWrite(old(seg.mem), seg.mem, v.chain)
      ensures v == old(v).(log := Overlay(old(v).log, old(v).tl, Concat(bufs)[..n]), tl := old(v).tl + r, enqFrom := v.enqFrom, enqTo := v.enqTo)
      ensures n <= r && v.tl !in v.log && Collected(old(ooo.segs), ooo.segs, old(v).tl + n, v.tl)
    {
      hide *;
      Open();
      Facts(seg.mem, v, shr, enq, size, ooo.segs);
      CopiedNothing(seg.mem, v, shr, enq, size, ooo.segs);
      var m, tailC := CopyBuffers(seg.mem, shr.tailChunk, shr.tail, bufs, n, v, v.tl);
      r := Publish(m, n, tailC, oldTailC, Concat(bufs)[..n]);
    }

    /** svm_fifo_enqueue_segments: like one enqueue of all buffers in a row, except that without
        allowPartial it takes all of them or nothing. */
    method EnqueueSegments(bufs: seq<seq<u8>>, allowPartial: bool) returns (r: int, ghost n: nat)
      requires Valid() && |v.pos| == |v.chain| + 1 && (forall i :: 0 <= i < |bufs| ==> bufs[i] != [])
      requires Safe(seg.Left(), slice, size, v, Least(|Concat(bufs)|, size - (v.tl - v.hd)))
      modifies this`shr, this`enq, this`v, seg, ooo
      ensures Valid() && Conserves(old(seg.mem), old(seg.place), old(v).chain, seg.mem, seg.place, v.chain)
      ensures allowPartial || r >= 0 ==> Outcome(old(v), old(ooo.segs), old(seg.Left()), slice, size, Concat(bufs), r, n, v, ooo.segs)
      ensures !allowPartial && r >= 0 ==> n == |Concat(bufs)|
      ensures !allowPartial && r < 0 ==> v == old(v) && ooo.segs == old(ooo.segs) && (r == EFULL || r == EGROW)
      ensures !allowPartial ==> (r == EFULL <==> old(v.tl - v.hd) == size || |Concat(bufs)| > size - old(v.tl - v.hd))
      ensures !allowPartial ==>
                (r == EGROW <==>
                   && old(v.tl - v.hd) < size && |Concat(bufs)| <= size - old(v.tl - v.hd) && old(v.tl) + |Concat(bufs)| > old(v.pos[|v.chain|])
                   && Starved(old(seg.Left()), slice, size, old(v), |Concat(bufs)|))
    {
      hide *;
      Open();
      ooo.ResetNewest();
      Close();
      Errors();
      r, n := EFULL, 0;
      Facts(seg.mem, v, shr, enq, size, ooo.segs);
      ghost var mem0, place0, p, v0, segs0 := seg.mem, seg.place, seg.Left(), v, ooo.segs;
      seg.ChunkSizes();
      ConservesRefl(seg.mem, seg.place, v.chain);
      ghost var all := Concat(bufs);
      LeastIs(|all|, size - (v.tl - v.hd));
      ConcatEmpty(bufs);
      var free := size - Sub(shr.tail, shr.head);
      var len := TotalBytes(bufs);
      var oldTailC := shr.tailChunk;
      SegmentsTail(seg.mem, v, shr, enq, size, ooo.segs);
      var want := Least(len, free);
      if free == 0 {
        TakesIs(v, want, 0, p, slice, size);
        ChainStays(v0, want, n);
        OutcomeIs(v0, segs0, p, slice, size, all, r, n, v, ooo.segs);
        return;
      }
      if !allowPartial && free < len {
        return;
      }
      len := Reserve(want);
      n := len;
      ChainGrowsIs(v0, v, want, n);
      if (len == 0 && bufs != []) || (!allowPartial && len < want) {
        r := EGROW;
        if len == 0 {
          OutcomeIs(v0, segs0, p, slice, size, all, r, n, v, ooo.segs);
        }
        return;
      }
      Open();
      seg.ChunkSizes();
      ghost var mem1, place1 := seg.mem, seg.place;
      r := AppendBuffers(bufs, len, oldTailC);
      EnqueuedIs(v0, segs0, all[..len], r, v, ooo.segs);
      ChainGrowsIs(v0, v, want, n);
      OutcomeIs(v0, segs0, p, slice, size, all, r, n, v, ooo.segs);
      ConservesWrite(mem1, place1, v.chain, seg.mem);
      ConservesTrans(mem0, place0, v0.chain, mem1, place1, v.chain, seg.mem, seg.place, v.chain);
    }

    /** The cut at the end of f_unlink_chunks and the collection of what was cut off. */
    method CutAndCollect(m1: Memory, prev: Sptr, ghost k: nat)
      requires seg.Valid() && slice < seg.nSlices && HandedOut(seg.place, v.chain, slice)
      requires Chain(m1, v.chain, v.pos) && OwnWrite(seg.mem, m1, v.chain) && k < |v.chain| && shr.startChunk == v.chain[0]
      requires prev == (if k == 0 then NULL else v.chain[k - 1]) && (k > 0 ==> prev in m1 && prev != NULL)
      modifies seg`mem, seg`heads, seg`lists, seg`place, seg`nFl, seg`nCached
      ensures seg.Valid()
      ensures HandedOut(seg.place, v.chain[k..], slice) && SameOn(CutOff(m1, v.chain, k), seg.mem, v.chain[k..])
      ensures Conserves(old(seg.mem), old(seg.place), v.chain, seg.mem, seg.place, v.chain[k..])
      ensures Freed(seg.place, v.chain[..k])
    {
      hide *;
      ghost var mem0, place0, mc := seg.mem, seg.place, CutOff(m1, v.chain, k);
      ghost var chain, front, back := v.chain, v.chain[..k], v.chain[k..];
      seg.ChunkSizes();
      ChainAscending(m1, chain, v.pos);
      CutOffChain(m1, v, k);
      OwnWriteTrans(mem0, m1, mc, chain);
      ConservesWrite(mem0, place0, chain, mc);
      HandedOutPart(place0, front, back, slice);
      CutOffIs(m1, v, k);
      if prev == NULL {
        seg.Write(m1, chain, slice);
        SameOnRefl(m1, chain, v.pos);
      } else {
        seg.Write(m1[prev := m1[prev].(next := NULL)], chain, slice);
        seg.CollectChunks(slice, shr.startChunk, front);
        ConservesCollect(mc, place0, chain, seg.mem, front, back, slice);
        ConservesTrans(mem0, place0, chain, mc, place0, chain, seg.mem, seg.place, back);
      }
    }

    /** f_unlink_chunks for a head that has left the start chunk, with the collection of the
        chunks that it unlinks and the store of the new head. Without maybeOoo the dequeue
        tree is left alone, which is right when what it indexes starts at the head's chunk. */
    method Unlink(end: u32, maybeOoo: bool, headC: Sptr, ghost e: int, ghost a0: nat) returns (ghost k: nat)
      requires (if maybeOoo then Valid() else Shaped()) && |v.pos| == |v.chain| + 1 && v.chain != []
      requires end == Wrap(e) && v.pos[1] <= e && v.hd <= e <= v.tl
      requires headC == NULL || (v.pos[0] <= e && headC == ChunkFor(v.chain, v.pos, e))
      modifies this`shr, this`deq, this`v, seg`mem, seg`heads, seg`lists, seg`place, seg`nFl, seg`nCached
      ensures Shaped() && KeptFrom(old(v), k, e) && Freed(seg.place, old(v).chain[..k])
      ensures v == Dropped(old(v), k, e, v.deqTo)
      ensures Conserves(old(seg.mem), old(seg.place), old(v).chain, seg.mem, seg.place, v.chain)
      ensures shr == old(shr).(startChunk := old(v).chain[k], headChunk := headC, head := end)
      ensures maybeOoo ==> Valid()
      ensures Forgets(old(deq), deq) && (!maybeOoo ==> deq == old(deq).(cached := NULL))
      ensures !maybeOoo && old(InitRun(seg.mem, deq, v, a0, e)) ==> Valid()
    {
      hide *;
      Open();
      Facts(seg.mem, v, shr, enq, size, ooo.segs);
      ghost var mem0, v0 := seg.mem, v;
      var m1, deq', prev, c; ghost var a;
      m1, deq', prev, c, a, k := UnlinkLookup(seg.mem, deq, shr.startChunk, end, maybeOoo, v, e, a0);
      CutAndCollect(m1, prev, k);
      ghost var d := if a < v.deqTo && k <= v.deqTo then v.deqTo - k else 0;
      DroppedState(mem0, m1, seg.mem, v, shr, enq, size, ooo.segs, k, e, d, headC);
      if DeqReady(m1, v, deq', a, k) {
        DroppedDeq(m1, seg.mem, v, deq', a, k, e);
      }
      DroppedIs(v, k, e, d);
      shr := shr.(startChunk := c, headChunk := headC, head := end);
      deq := deq';
      v := Dropped(v, k, e, d);
      Close();
    }

    /** Moves the head to e; the chunks it has left go back to the segment, except the last. */
    method Advance(head: u32, maybeOoo: bool, headC: Sptr, ghost e: int, ghost a0: nat) returns (ghost k: nat)
      requires (if maybeOoo then Valid() else Shaped()) && |v.pos| == |v.chain| + 1 && v.chain != []
      requires head == Wrap(e) && v.hd <= e <= v.tl
      requires headC == NULL || (v.pos[0] <= e && headC == ChunkFor(v.chain, v.pos, e))
      modifies this`shr, this`deq, this`v, seg`mem, seg`heads, seg`lists, seg`place, seg`nFl, seg`nCached
      ensures Shaped() && KeptFrom(old(v), k, e) && k <= |old(v).chain| <= |old(v).pos| && Freed(seg.place, old(v).chain[..k])
      ensures v.chain == old(v).chain[k..] && v.pos == old(v).pos[k..] && v.log == old(v).log && v.hd == e && v.tl == old(v).tl
      ensures Conserves(old(seg.mem), old(seg.place), old(v).chain, seg.mem, seg.place, v.chain)
      ensures maybeOoo ==> Valid()
      ensures !maybeOoo ==> deq.tree == old(deq).tree && (old(InitRun(seg.mem, deq, v, a0, e)) && (e < old(v).pos[1] ==> old(Valid())) ==> Valid())
      ensures shr.headChunk == headC && shr.startChunk == v.chain[0]
      ensures Forgets(old(deq), deq) && (!maybeOoo && e >= old(v).pos[1] ==> deq.cached == NULL)
    {
      hide *;
      Open();
      ForgetsIs(deq, deq);
      Facts(seg.mem, v, shr, enq, size, ooo.segs);
      HeadPast(seg.mem, v, shr, enq, size, ooo.segs, e);
      if PosGeq(head, ChunkEnd(seg.mem[shr.startChunk])) {
        ghost var v0 := v;
        k := Unlink(head, maybeOoo, headC, e, a0);
        DroppedRest(v0, k, e);
        DroppedIs(v0, k, e, v.deqTo);
        Open();
        Facts(seg.mem, v, shr, enq, size, ooo.segs);
      } else {
        k := 0;
        AdvancedState(seg.mem, v, shr, enq, deq, size, ooo.segs, e, headC);
        FreedNone(seg.place);
        seg.ChunkSizes();
        ConservesRefl(seg.mem, seg.place, v.chain);
        shr := shr.(headChunk := headC, head := head);
        v := v.(hd := e);
        Close();
      }
    }

    /** svm_fifo_dequeue: returns and drops up to len bytes from the head. It does not go with
        peeks that have built a dequeue lookup. */
    method Dequeue(len: nat) returns (r: int, dst: seq<u8>, ghost k: nat)
      requires Valid() && deq.tree == Nil
      modifies this`shr, this`deq, this`v, seg`mem, seg`heads, seg`lists, seg`place, seg`nFl, seg`nCached
      ensures Valid() && deq.tree == Nil && Forgets(old(deq), deq)
      ensures |old(v).pos| > 1 && (v.hd >= old(v).pos[1] && r >= 0 ==> deq.cached == NULL)
      ensures Conserves(old(seg.mem), old(seg.place), old(v).chain, seg.mem, seg.place, v.chain)
      ensures r == EEMPTY <==> old(v.tl == v.hd)
      ensures r < 0 ==> r == EEMPTY && v == old(v)
      ensures r >= 0 ==> r == Least(len, old(v.tl - v.hd)) && dst == Bytes(old(v).log, old(v).hd, r)
      ensures r >= 0 ==> v.hd == old(v).hd + r && v.tl == old(v).tl && v.log == old(v).log
      ensures r >= 0 ==> KeptFrom(old(v), k, v.hd) && k <= |old(v).chain| <= |old(v).pos| && v.chain == old(v).chain[k..] && v.pos == old(v).pos[k..]
      ensures r >= 0 ==> Freed(seg.place, old(v).chain[..k])
    {
      hide *;
      Open();
      Errors();
      Facts(seg.mem, v, shr, enq, size, ooo.segs);
      r, dst, k := EEMPTY, [], 0;
      ForgetsIs(deq, deq);
      var cursize := Sub(shr.tail, shr.head);
      if cursize == 0 {
        seg.ChunkSizes();
        ConservesRefl(seg.mem, seg.place, v.chain);
        return;
      }
      var n := Least(len, cursize);
      LeastIs(len, cursize);
      ghost var e := v.hd + n;
      ghost var i := HeadChunk(seg.mem, v, shr, enq, size, ooo.segs);
      var headC := shr.headChunk;
      if headC == NULL {
        headC := FindNextChunk(seg.mem, shr.startChunk, shr.head, v.chain, v.pos, 0, v.hd);
      }
      ReadReady(seg.mem, v, shr, enq, size, ooo.segs, v.hd, n);
      NoRun(seg.mem, v, deq, e);
      AddWraps(v.hd, n);
      var moved, last;
      dst, moved, last := CopyFromChunk(seg.mem, headC, shr.head, n, v.chain, v.pos, v.log, i, v.hd);
      k := Advance(Add(shr.head, n), false, if moved then last else headC, e, 0);
      r := n;
    }

    /** svm_fifo_dequeue_drop: drops up to len bytes from the head. */
    method DequeueDrop(len: nat) returns (r: int, ghost k: nat)
      requires Valid()
      modifies this`shr, this`deq, this`v, seg`mem, seg`heads, seg`lists, seg`place, seg`nFl, seg`nCached
      ensures Valid() && Conserves(old(seg.mem), old(seg.place), old(v).chain, seg.mem, seg.place, v.chain) && Forgets(old(deq), deq)
      ensures r == EEMPTY <==> old(v.tl == v.hd)
      ensures r < 0 ==> r == EEMPTY && v == old(v)
      ensures r >= 0 ==> r == Least(len, old(v.tl - v.hd)) && v.hd == old(v).hd + r && v.tl == old(v).tl && v.log == old(v).log
      ensures r >= 0 ==> KeptFrom(old(v), k, v.hd) && k <= |old(v).chain| <= |old(v).pos| && v.chain == old(v).chain[k..] && v.pos == old(v).pos[k..]
      ensures r >= 0 ==> Freed(seg.place, old(v).chain[..k])
    {
      hide *;
      Open();
      Errors();
      Facts(seg.mem, v, shr, enq, size, ooo.segs);
      r, k := EEMPTY, 0;
      ForgetsIs(deq, deq);
      var cursize := Sub(shr.tail, shr.head);
      if cursize == 0 {
        seg.ChunkSizes();
        ConservesRefl(seg.mem, seg.place, v.chain);
        return;
      }
      var n := Least(len, cursize);
      LeastIs(len, cursize);
      ghost var e := v.hd + n;
      AddWraps(v.hd, n);
      var head := Add(shr.head, n);
      HeadPast(seg.mem, v, shr, enq, size, ooo.segs, e);
      var past := PosGeq(head, ChunkEnd(seg.mem[shr.startChunk]));
      if !past {
        HeadKept(seg.mem, v, shr, enq, size, ooo.segs, e);
      }
      k := Advance(head, true, if past then NULL else shr.headChunk, e, 0);
      if past {
        Open();
        Facts(seg.mem, v, shr, enq, size, ooo.segs);
        var c := if IncludesPos(seg.mem[shr.startChunk], head) then shr.startChunk else NULL;
        HeadAgain(seg.mem, v, shr, enq, size, ooo.segs, c);
        shr := shr.(headChunk := c);
        Close();
      }
      r := n;
    }

    /** svm_fifo_peek: returns up to len bytes at an offset from the head and changes nothing
        but the dequeue lookup. */
    method Peek(offset: nat, len: nat) returns (r: int, dst: seq<u8>)
      requires Valid() && offset < TWO_32 && (offset == v.tl - v.hd ==> shr.tailChunk != NULL)
      modifies this`deq, this`v, seg`mem
      ensures Valid() && v == old(v).(deqTo := v.deqTo) && OwnWrite(old(seg.mem), seg.mem, v.chain)
      ensures r == EEMPTY <==> v.tl - v.hd < offset
      ensures r < 0 ==> r == EEMPTY && dst == []
      ensures r >= 0 ==> r == Least(len, v.tl - v.hd - offset) && dst == Bytes(v.log, v.hd + offset, r)
      ensures r >= 0 && old(deq).init && old(deq).cached == NULL ==> v.deqTo > 0
    {
      hide *;
      Open();
      Errors();
      Facts(seg.mem, v, shr, enq, size, ooo.segs);
      OwnWriteRefl(seg.mem, v.chain);
      r, dst := EEMPTY, [];
      var cursize := Sub(shr.tail, shr.head);
      if cursize < offset {
        return;
      }
      var n := Least(len, cursize - offset);
      LeastIs(len, cursize - offset);
      ghost var p := v.hd + offset;
      AddWraps(v.hd, offset);
      AddWraps(p, n);
      ghost var tailAt := TailChunk(seg.mem, v, shr, enq, size, ooo.segs);
      ReadReady(seg.mem, v, shr, enq, size, ooo.segs, p, n);
      var headIdx := Add(shr.head, offset);
      var m, t, c; ghost var b;
      m, t, c, b := LookupDeq(seg.mem, shr.startChunk, deq, headIdx, Add(headIdx, n), v, p, p + n);
      FlaggedState(seg.mem, m, v, shr, enq, size, ooo.segs, b);
      ghost var i := Located(m, v, p);
      var moved, last;
      dst, moved, last := CopyFromChunk(m, c, headIdx, n, v.chain, v.pos, v.log, i, p);
      PeekedDeq(m, v, t, deq.init, b, p + n);
      seg.Write(m, v.chain, slice);
      deq := Lookup(t, deq.init, if moved then last else c);
      v := v.(deqTo := b);
      Close();
      r := n;
    }

    /** svm_fifo_dequeue_drop_all: empties the fifo. It keeps the fifo valid unless it leaves a
        node for the start chunk, now free, in the dequeue tree. */
    method DropAll() returns (ghost k: nat)
      requires Valid()
      modifies this`shr, this`deq, this`v, seg`mem, seg`heads, seg`lists, seg`place, seg`nFl, seg`nCached
      ensures Shaped() && Conserves(old(seg.mem), old(seg.place), old(v).chain, seg.mem, seg.place, v.chain)
      ensures v.hd == v.tl == old(v).tl && v.log == old(v).log && deq.init == old(deq).init
      ensures |old(v).pos| > 1 && (v.hd >= old(v).pos[1] ==> deq.cached == NULL)
      ensures KeptFrom(old(v), k, v.hd) && k <= |old(v).chain| && v.chain == old(v).chain[k..] && Freed(seg.place, old(v).chain[..k])
      ensures Valid() <==> !old(LeavesNode(v))
      ensures old(LeavesNode(v)) ==> var c := old(v).chain[0];
                && Has(deq.tree, Wrap(old(v).pos[0]), c) && c in seg.place && seg.place[c].free
    {
      hide *;
      Open();
      Facts(seg.mem, v, shr, enq, size, ooo.segs);
      ghost var mem0, place0, v0 := seg.mem, seg.place, v;
      seg.ChunkSizes();
      var m, t, c; ghost var a;
      m, t, c, a := ClearAll(seg.mem, shr, deq, v, enq, size, ooo.segs);
      FlaggedState(seg.mem, m, v, shr, enq, size, ooo.segs, v.deqTo);
      ConservesWrite(mem0, place0, v.chain, m);
      seg.Write(m, v.chain, slice);
      deq := deq.(tree := t);
      Close();
      ghost var deq1 := deq;
      k := Advance(shr.tail, false, c, v.tl, a);
      ForgetsIs(deq1, deq);
      ConservesTrans(mem0, place0, v0.chain, m, place0, v0.chain, seg.mem, seg.place, v.chain);
      Open();
      if LeavesNode(v0) {
        LeavesChunk(v0, k);
        DroppedRest(v0, k, v0.tl);
        NodeOutside(mem0, v0, seg.mem, v, deq, k);
        FreedFirst(seg.place, v0.chain, k);
      }
    }

    /** svm_fifo_segments: where up to maxBytes bytes at an offset from the head are stored. */
    method SegmentsAt(offset: nat, maxPieces: nat, maxBytes: nat) returns (r: int, pieces: seq<Piece>)
      requires Valid()
      modifies this`shr
      ensures Valid()
      ensures r == EEMPTY <==> v.tl - v.hd <= offset
      ensures r < 0 ==> r == EEMPTY && pieces == []
      ensures r >= 0 ==> r <= Least(maxBytes, v.tl - v.hd - offset) && PiecesAre(seg.mem, pieces, Bytes(v.log, v.hd + offset, r))
      ensures r >= 0 ==> 0 < |pieces| && (maxPieces > 0 ==> |pieces| <= maxPieces)
      ensures 0 <= r < Least(maxBytes, v.tl - v.hd - offset) ==> |pieces| >= maxPieces
      ensures r >= 0 ==> PiecesFor(v, pieces, v.hd + offset, r, Least(maxBytes, v.tl - v.hd - offset), maxPieces)
    {
      hide *;
      Open();
      Errors();
      Facts(seg.mem, v, shr, enq, size, ooo.segs);
      r, pieces := EEMPTY, [];
      var cursize := Sub(shr.tail, shr.head);
      if cursize == 0 || offset >= cursize {
        return;
      }
      var toRead := Least(maxBytes, cursize - offset);
      LeastIs(maxBytes, cursize - offset);
      ghost var p := v.hd + offset;
      AddWraps(v.hd, offset);
      ghost var i := HeadChunk(seg.mem, v, shr, enq, size, ooo.segs);
      if shr.headChunk == NULL {
        var c := FindNextChunk(seg.mem, shr.startChunk, shr.head, v.chain, v.pos, 0, v.hd);
        SetHead(seg.mem, v, shr, enq, size, ooo.segs, c);
        shr := shr.(headChunk := c);
        Close();
      }
      HeadIndex(seg.mem, v, shr.headChunk, i, p);
      var c := FindNextChunk(seg.mem, shr.headChunk, Add(shr.head, offset), v.chain, v.pos, i, p);
      ghost var j := Located(seg.mem, v, p);
      ReadReady(seg.mem, v, shr, enq, size, ooo.segs, p, toRead);
      var n;
      pieces, n := GatherPieces(seg.mem, c, Add(shr.head, offset), toRead, maxPieces, v, j, p);
      r := n;
    }

    /** What a caller can find out before a write that reaches len bytes past the tail: whether
        the chain, if it grows, will grow enough. */
    method GrowsEnough(len: nat) returns (yes: bool)
      requires Valid() && |v.pos| == |v.chain| + 1 && v.tl + len <= v.hd + size
      ensures yes <==> Safe(seg.Left(), slice, size, v, len)
    {
      hide *;
      Open();
      Facts(seg.mem, v, shr, enq, size, ooo.segs);
      var left := Sub(ChunkEnd(seg.mem[shr.endChunk]), shr.tail);
      if len <= left + MAX_SIZE {
        SafeIs(seg.Left(), slice, size, v, len);
        return true;
      }
      seg.ChunkSizes();
      SmallSizes();
      GrowthBounds(seg.mem, v, shr, enq, size, ooo.segs, len);
      var a := AllocSize(minAlloc, size - Sub(shr.tail, shr.head), len - left);
      var own := seg.OwnClassServes(slice, a);
      SafeBeyond(seg.Left(), slice, size, v, len, a);
      yes := !own;
    }

    /** svm_fifo_init_ooo_lookup for out-of-order enqueues. */
    method InitEnqLookup()
      requires Valid() && !enq.init
      modifies this`enq
      ensures Valid() && enq == old(enq).(init := true)
    {
      hide Stream, Index, NotPast, DeqInv, Inv, Pointers;
      enq := enq.(init := true);
    }

    /** svm_fifo_init_ooo_lookup for peeks. */
    method InitDeqLookup()
      requires Valid() && !deq.init
      modifies this`deq
      ensures Valid() && deq == old(deq).(init := true)
    {
      hide FifoInv, Index, Inv;
      deq := deq.(init := true);
    }

    /** fs_try_alloc_fifo and svm_fifo_init: a new fifo over chunks of its own, or null. */
    static method Alloc(seg: Segment, slice: nat, size: nat, pct: nat) returns (f: Fifo?)
      requires seg.Valid() && slice < seg.nSlices && 0 < size <= MAX_FIFO && (pct <= 100 || FirstAlloc(pct, size) <= MAX_SIZE)
      modifies seg
      ensures seg.Valid() && seg.maxByteIndex == old(seg.maxByteIndex)
      ensures Supplied(old(seg.Left()), slice) && (f != null <==> Served(old(seg.Left()), slice, FirstAlloc(pct, size)))
      ensures Refillable(old(seg.byteIndex), seg.maxByteIndex, FirstAlloc(pct, size)) ==> seg.byteIndex <= old(seg.byteIndex) + MAX_REFILL
      ensures f == null ==> Extends(old(seg.mem), old(seg.place), seg.mem, seg.place)
      ensures f != null ==> fresh(f) && fresh(f.ooo) && f.Valid() && f.seg == seg && f.slice == slice && f.size == size
      ensures f != null ==> Conserves(old(seg.mem), old(seg.place), [], seg.mem, seg.place, f.v.chain)
      ensures f != null ==> f.v.log == map[] && f.v.hd == f.v.tl == 0 && f.ooo.segs == [] && f.enq == f.deq == Lookup(Nil, false, NULL)
      ensures f != null ==> |f.v.pos| == |f.v.chain| + 1 && f.v.pos[|f.v.chain|] <= Cap(FirstAlloc(pct, size))
      ensures f != null ==> Obtained(FirstAlloc(pct, size), f.v.pos[|f.v.chain|])
    {
      hide *;
      f := null;
      ghost var mem0, place0 := seg.mem, seg.place;
      seg.ChunkSizes();
      FirstBounds(pct, size);
      var c; ghost var got;
      c, got := seg.TryAllocChunk(slice, FirstAlloc(pct, size));
      if c == NULL {
        return;
      }
      ghost var mem1, place1 := seg.mem, seg.place;
      seg.ChunkSizes();
      HandedOutNone(place0, got, slice);
      AllocatedNew(mem0, place0, mem1, place1, c, got, slice, []);
      ConservesAllocated(mem0, place0, [], mem1, place1, c, got, slice);
      ObtainedOf(FirstAlloc(pct, size), TotalLength(seg.mem, got));
      f := new Fifo(seg, slice, size, c, got);
      f.Open();
      ConservesWrite(mem1, place1, got, seg.mem);
      ConservesTrans(mem0, place0, [], mem1, place1, got, seg.mem, seg.place, got);
    }

    /** fifo_segment_free_fifo: all chunks go back to the segment. */
    method Free()
      requires Shaped()
      modifies seg`mem, seg`heads, seg`lists, seg`place, seg`nFl, seg`nCached
      ensures seg.Valid() && Freed(seg.place, v.chain)
      ensures Conserves(old(seg.mem), old(seg.place), v.chain, seg.mem, seg.place, [])
    {
      hide *;
      Open();
      Facts(seg.mem, v, shr, enq, size, ooo.segs);
      ghost var mem0, place0 := seg.mem, seg.place;
      seg.ChunkSizes();
      ChainAscending(seg.mem, v.chain, v.pos);
      ChainList(seg.mem, v.chain, v.pos);
      HandedOutNone(place0, v.chain, slice);
      seg.CollectChunks(slice, shr.startChunk, v.chain);
      ConservesCollect(mem0, place0, v.chain, seg.mem, v.chain, [], slice);
    }
  }

  /** Two fifos in the same state, each with a segment that has the same left: an enqueue on one
      and svm_fifo_enqueue_segments with partial writes, of the same bytes in buffers, on the
      other return the same and leave the same stream. */
  method SegmentsAreOneEnqueue(f: Fifo, g: Fifo, bufs: seq<seq<u8>>) returns (r: int, r': int)
    requires f.Valid() && g.Valid() && f.seg != g.seg && f != g && f.ooo != g.ooo
    requires f.v == g.v && f.ooo.segs == g.ooo.segs && f.seg.Left() == g.seg.Left() && f.slice == g.slice && f.size == g.size
    requires bufs != [] && (forall i :: 0 <= i < |bufs| ==> bufs[i] != [])
    requires |f.v.pos| == |f.v.chain| + 1 && Safe(f.seg.Left(), f.slice, f.size, f.v, Least(|Concat(bufs)|, f.size - (f.v.tl - f.v.hd)))
    modifies f, f.seg, f.ooo, g, g.seg, g.ooo
    ensures f.Valid() && g.Valid() && r == r'
    ensures f.v.log == g.v.log && f.v.hd == g.v.hd && f.v.tl == g.v.tl && f.ooo.segs == g.ooo.segs
    ensures old(f.v.tl + Least(|Concat(bufs)|, f.size - (f.v.tl - f.v.hd)) <= f.v.pos[|f.v.chain|]) ==> f.v.chain == g.v.chain && f.v.pos == g.v.pos
  {
    hide *;
    f.Open();
    Facts(f.seg.mem, f.v, f.shr, f.enq, f.size, f.ooo.segs);
    ConcatEmpty(bufs);
    ghost var v0, segs0, p := f.v, f.ooo.segs, f.seg.Left();
    ghost var n, n';
    r, n := f.Enqueue(Concat(bufs));
    r', n' := g.EnqueueSegments(bufs, true);
    f.Open();
    Facts(f.seg.mem, f.v, f.shr, f.enq, f.size, f.ooo.segs);
    g.Open();
    Facts(g.seg.mem, g.v, g.shr, g.enq, g.size, g.ooo.segs);
    OutcomeUnique(v0, segs0, p, f.slice, f.size, Concat(bufs), r, n, f.v, f.ooo.segs, r', n', g.v, g.ooo.segs);
  }

  /** Fills the chain and drains it until head and tail are at its end and one chunk is left. */
  method WearOff(f: Fifo)
    requires f.Valid() && f.v.hd == f.v.tl && f.deq.tree == Nil && f.deq.cached == NULL
    modifies f, f.seg, f.ooo
    ensures f.Valid() && f.deq == old(f.deq) && f.seg.byteIndex == old(f.seg.byteIndex) && f.seg.maxByteIndex == old(f.seg.maxByteIndex)
    ensures |f.v.chain| == 1 && |f.v.pos| == 2 && f.v.hd == f.v.tl == f.v.pos[1]
  {
    hide *;
    f.Open();
    Facts(f.seg.mem, f.v, f.shr, f.enq, f.size, f.ooo.segs);
    ghost var end := f.v.pos[|f.v.chain|];
    var left := Sub(ChunkEnd(f.seg.mem[f.shr.endChunk]), f.shr.tail);
    while left > 0
      invariant f.Valid() && f.deq == old(f.deq) && f.seg.byteIndex == old(f.seg.byteIndex) && f.seg.maxByteIndex == old(f.seg.maxByteIndex)
      invariant |f.v.pos| == |f.v.chain| + 1 && f.v.hd == f.v.tl == end - left && f.v.pos[|f.v.chain|] == end
    {
      f.Open();
      Facts(f.seg.mem, f.v, f.shr, f.enq, f.size, f.ooo.segs);
      Errors();
      var n := Least(left, f.size);
      LeastIs(left, f.size);
      ghost var v0, segs0, p := f.v, f.ooo.segs, f.seg.Left();
      var r; ghost var took, k;
      LeastIs(n, f.size);
      SafeFits(p, f.slice, f.size, v0, n);
      var src := seq(n, i => 0);
      r, took := f.Enqueue(src);
      OutcomeHas(v0, segs0, p, f.slice, f.size, src, r, took, f.v, f.ooo.segs);
      TakesHas(v0, n, took, p, f.slice, f.size);
      f.Open();
      Facts(f.seg.mem, f.v, f.shr, f.enq, f.size, f.ooo.segs);
      LeastIs(r, r);
      ghost var deq0 := f.deq;
      var d;
      d, k := f.DequeueDrop(r);
      ForgetsIs(deq0, f.deq);
      left := left - r;
    }
    f.Open();
    Facts(f.seg.mem, f.v, f.shr, f.enq, f.size, f.ooo.segs);
    OneLeft(f.seg.mem, f.v);
  }

  /** A run that reaches the case in which dropping everything leaves a node behind: a new fifo
      of a new segment is worn off, takes a byte, a peek and the drop. */
  method LeaveNode(b: u8) returns (f: Fifo, ghost key: u32, ghost c: Sptr)
    ensures fresh(f) && f.Shaped() && !f.Valid()
    ensures Has(f.deq.tree, key, c) && c in f.seg.place && f.seg.place[c].free
  {
    hide *;
    RoomyLimits();
    var seg := new Segment(1, 4096, ROOMY);
    ghost var p0 := seg.Left();
    var g := Fifo.Alloc(seg, 0, 4096, 100);
    RoomServes(p0, 0, FirstAlloc(100, 4096));
    f := g;
    f.InitDeqLookup();
    WearOff(f);
    f.Open();
    Facts(f.seg.mem, f.v, f.shr, f.enq, f.size, f.ooo.segs);
    Errors();
    RoomForOne(f.size);
    ghost var v0, segs0, p := f.v, f.ooo.segs, f.seg.Left();
    SafeIs(p, f.slice, f.size, v0, Least(1, f.size));
    var r; ghost var n;
    r, n := f.Enqueue([b]);
    OutcomeHas(v0, segs0, p, f.slice, f.size, [b], r, n, f.v, f.ooo.segs);
    NotStarved(p, f.slice, f.size, v0, 1);
    OneByte(v0, f.size, p, f.slice, n);
    f.Open();
    Facts(f.seg.mem, f.v, f.shr, f.enq, f.size, f.ooo.segs);
    var r', dst := f.Peek(0, 1);
    LeavesIs(v0, f.v);
    key, c := Wrap(f.v.pos[0]), f.v.chain[0];
    ghost var k := f.DropAll();
  }

  /** A run that reaches a growth that is too short: a new fifo of 16 MB in a new segment asks for
      room for all of its bytes. The growth is reported as done, and the bytes do not fit. */
  method ShortGrowth() returns (f: Fifo, ok: bool)
    ensures fresh(f) && f.Valid() && ok && |f.v.pos| == |f.v.chain| + 1 && f.v.hd == f.v.tl && f.v.tl + f.size > f.v.pos[|f.v.chain|]
  {
    hide *;
    RoomyLimits();
    var seg := new Segment(1, 4096, ROOMY);
    ghost var p0 := seg.Left();
    var g := Fifo.Alloc(seg, 0, LARGE, 0);
    RoomServes(p0, 0, FirstAlloc(0, LARGE));
    f := g;
    f.Open();
    Facts(f.seg.mem, f.v, f.shr, f.enq, f.size, f.ooo.segs);
    ghost var p, v0 := f.seg.Left(), f.v;
    f.seg.OwnKeys(0);
    TooLargeIsShort(p, f.slice, f.size, v0, LARGE);
    NotStarved(p, f.slice, f.size, v0, LARGE);
    ok := f.TryChunkAlloc(LARGE);
  }
}
