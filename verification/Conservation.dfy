/** All fifos of a segment together: every chunk carved out of the segment is on exactly one free
    list or in the chain of exactly one fifo, in every run of operations. */
module Conservation {
  import opened Sequences
  import opened Position
  import opened Chunks
  import opened SizeClasses
  import opened FreeLists
  import opened SegmentState
  import opened Segments
  import opened ChunkTree
  import opened Ownership
  import opened FifoState
  import opened FifoViews
  import opened Fifos

  /** The fifos fs of a segment do not share anything, and what is handed out is in one of their
      chains or in own, which shares no chunk with them. */
  ghost predicate Others(seg: Segment, fs: set<Fifo>, own: seq<Sptr>)
    reads seg, fs, (set g | g in fs :: g.seg), (set g | g in fs :: g.ooo)
  {
    && seg.Valid()
    && (forall g :: g in fs ==> g.seg == seg && g.Shaped())
    && (forall f, g :: f in fs && g in fs && f != g ==> f.ooo != g.ooo && Apart(f.v.chain, g.v.chain))
    && (forall g :: g in fs ==> Apart(g.v.chain, own))
    && (forall x :: x in seg.place && !seg.place[x].free ==> x in own || exists g :: g in fs && x in g.v.chain)
  }

  ghost predicate Apart(a: seq<Sptr>, b: seq<Sptr>) {
    forall x :: x in a ==> x !in b
  }

  /** The whole segment: nothing is handed out that is not in the chain of a fifo. */
  ghost predicate Complete(seg: Segment, fs: set<Fifo>)
    reads seg, fs, (set g | g in fs :: g.seg), (set g | g in fs :: g.ooo)
  {
    Others(seg, fs, [])
  }

  /** Chunk conservation: each chunk is on exactly one free list, which is that of its size, and
      in no chain, or it is on no free list and in the chain of exactly one fifo. */
  lemma EveryChunkOnce(seg: Segment, fs: set<Fifo>, x: Sptr)
    requires Complete(seg, fs) && x in seg.mem
    ensures (exists k :: k in seg.lists && x in seg.lists[k]) <==> !(exists f :: f in fs && x in f.v.chain)
    ensures forall k, k' :: k in seg.lists && k' in seg.lists && x in seg.lists[k] && x in seg.lists[k'] ==> k == k'
    ensures forall k :: k in seg.lists && x in seg.lists[k] ==> NoRepeats(seg.lists[k]) && seg.mem[x].length == IndexToSize(k.fl)
    ensures forall f, g :: f in fs && g in fs && x in f.v.chain && x in g.v.chain ==> f == g
  {
    hide FifoInv, Segment.Valid;
    OnOneList(seg, x);
    forall f | f in fs && x in f.v.chain ensures !seg.place[x].free {
      assert HandedOut(seg.place, f.v.chain, f.slice);
    }
  }

  /** A chunk is on the list that its place names, if it is free, and on no other. */
  lemma OnOneList(seg: Segment, x: Sptr)
    requires seg.Valid() && x in seg.mem
    ensures x in seg.place && (seg.place[x].free <==> exists k :: k in seg.lists && x in seg.lists[k])
    ensures forall k :: k in seg.lists && x in seg.lists[k] ==> seg.place[x] == Place(k, true)
    ensures forall k :: k in seg.lists && x in seg.lists[k] ==> NoRepeats(seg.lists[k]) && seg.mem[x].length == IndexToSize(k.fl)
  {
    hide Counted, Regions, Owing, IndexToSize, LinkAt;
    if seg.place[x].free {
      assert x in seg.lists[seg.place[x].key];
    }
  }

  /** f is one of the fifos: the others, and its chain as own. */
  lemma SplitOut(seg: Segment, fs: set<Fifo>, f: Fifo)
    requires Complete(seg, fs) && f in fs
    ensures Others(seg, fs - {f}, f.v.chain) && f.seg == seg && f.Shaped() && (forall g :: g in fs - {f} ==> g.ooo != f.ooo)
  {
    hide Segment.Valid, Fifo.Shaped;
    forall x | x in seg.place && !seg.place[x].free ensures x in f.v.chain || exists g :: g in fs - {f} && x in g.v.chain {
      var g :| g in fs && x in g.v.chain;
      assert g != f ==> g in fs - {f};
    }
  }

  lemma PutBack(seg: Segment, fs: set<Fifo>, f: Fifo)
    requires Others(seg, fs, f.v.chain) && f.seg == seg && f.Shaped() && (forall g :: g in fs ==> g.ooo != f.ooo)
    ensures Complete(seg, fs + {f})
  {
    hide Segment.Valid, Fifo.Shaped;
    forall x | x in seg.place && !seg.place[x].free ensures exists g :: g in fs + {f} && x in g.v.chain {
      if x in f.v.chain {
        assert f in fs + {f};
      } else {
        var g :| g in fs && x in g.v.chain;
        assert g in fs + {f};
      }
    }
  }

  /** The fifo has not been touched. */
  twostate predicate Untouched(g: Fifo)
    reads g, g.ooo
  {
    unchanged(g) && unchanged(g.ooo)
  }

  /** A step of the owner of own0, who then holds own, beside the fifos fs. */
  datatype Turn = Turn(seg: Segment, fs: set<Fifo>, own0: seq<Sptr>, own: seq<Sptr>)

  /** A step that conserves chunks leaves the other fifos as they were, and nothing is handed out
      that is not in a chain. */
  twostate lemma Carry(t: Turn)
    requires old(Others(t.seg, t.fs, t.own0)) && t.seg.Valid() && (forall g :: g in t.fs ==> Untouched(g))
    requires Conserves(old(t.seg.mem), old(t.seg.place), t.own0, t.seg.mem, t.seg.place, t.own)
    ensures Others(t.seg, t.fs, t.own) && (forall g :: g in t.fs && old(g.Valid()) ==> g.Valid())
  {
    hide FifoInv, DeqInv, Segment.Valid, Conserves, HandedOut, SameOn;
    var Turn(seg, fs, own0, own) := t;
    forall g | g in fs ensures g.Shaped() && (old(g.Valid()) ==> g.Valid()) && Apart(g.v.chain, own) {
      assert Untouched(g) && old(g.Shaped());
      OthersKeep(old(seg.mem), old(seg.place), own0, seg.mem, seg.place, own, g.v.chain, g.slice);
      Same(old(seg.mem), seg.mem, g.v, g.shr, g.enq, g.deq, g.size, g.ooo.segs);
    }
    forall x | x in seg.place && !seg.place[x].free && x !in own ensures exists g :: g in fs && x in g.v.chain {
      NoLeak(old(seg.mem), old(seg.place), own0, seg.mem, seg.place, own, x);
      var g :| g in fs && x in old(g.v).chain;
      assert Untouched(g);
    }
  }

  /** What is asked of a fifo. */
  datatype Op =
    | Put(src: seq<u8>)
    | PutAhead(offset: nat, src: seq<u8>)
    | PutAll(bufs: seq<seq<u8>>, partial: bool)
    | Get(len: nat)
    | Drop(len: nat)
    | Look(offset: nat, len: nat)
    | Where(offset: nat, maxPieces: nat, maxBytes: nat)
    | DropEverything
    | UseEnqTree
    | UseDeqTree

  /** The stream is the same: nothing written, read or dropped. */
  ghost predicate Still(v: View, v': View) {
    v'.log == v.log && v'.hd == v.hd && v'.tl == v.tl
  }

  /** The head has moved over n bytes. */
  ghost predicate Passed(v: View, n: int, v': View) {
    v'.log == v.log && v'.hd == v.hd + n && v'.tl == v.tl
  }

  /** What an operation does to the stream of a fifo. Callers must not ask for empty buffers, for
      writes ahead of no bytes or at offset 0, or for a dequeue with a dequeue tree in use, and then
      nothing is done; and a fifo takes nothing for which the chain would not grow enough. */
  ghost predicate Effect(m: Moment, slice: nat, size: nat, tree: bool, op: Op, v': View) {
    var v := m.v;
    && |v.pos| == |v.chain| + 1
    && match op
       case Put(src) => 0 <= Taken(m, slice, size, |src|) <= |src| && Extended(v, src[..Taken(m, slice, size, |src|)], v')
       case PutAhead(offset, src) =>
         if src != [] && offset > 0 && !Refused(m.left, slice, size, v, offset + |src|)
         then v'.log == Overlay(v.log, v.tl + offset, src) && v'.hd == v.hd && v'.tl == v.tl
         else Still(v, v')
       case PutAll(bufs, partial) =>
         var src := Concat(bufs);
         var n := Taken(m, slice, size, |src|);
         if (exists i :: 0 <= i < |bufs| && bufs[i] == []) || (!partial && n < |src|) then Still(v, v')
         else 0 <= n <= |src| && Extended(v, src[..n], v')
       case Get(len) => Passed(v, if tree then 0 else Least(len, v.tl - v.hd), v')
       case Drop(len) => Passed(v, Least(len, v.tl - v.hd), v')
       case DropEverything => Passed(v, v.tl - v.hd, v')
       case _ => Still(v, v')
  }

  /** Any operation of a fifo does what it is for and conserves chunks. Where it must not be called it
      is skipped. The fifo stays valid exactly unless dropping everything leaves a node behind. */
  method Do(f: Fifo, op: Op) returns (valid: bool)
    requires f.Valid()
    modifies f, f.seg, f.ooo
    ensures f.seg.Valid() && f.Shaped() && (valid <==> f.Valid())
    ensures valid <==> !(op.DropEverything? && old(LeavesNode(f.v)))
    ensures Conserves(old(f.seg.mem), old(f.seg.place), old(f.v).chain, f.seg.mem, f.seg.place, f.v.chain)
    ensures Effect(Moment(old(f.v), old(f.seg.Left())), f.slice, f.size, old(f.deq.tree != Nil), op, f.v)
  {
    hide *;
    f.Open();
    Facts(f.seg.mem, f.v, f.shr, f.enq, f.size, f.ooo.segs);
    f.seg.ChunkSizes();
    ConservesRefl(f.seg.mem, f.seg.place, f.v.chain);
    valid := true;
    ghost var m, tree := Moment(f.v, f.seg.Left()), f.deq.tree != Nil;
    if op.Put? || op.PutAhead? || op.PutAll? {
      DoPut(f, op);
    } else if op.Get? {
      PassedNone(m, f.slice, f.size, tree, op);
      if f.deq.tree == Nil {
        var r, dst; ghost var k;
        r, dst, k := f.Dequeue(op.len);
        PassedIs(m, f.slice, f.size, tree, op, f.v, r);
      }
    } else if op.Drop? {
      var r; ghost var k;
      r, k := f.DequeueDrop(op.len);
      PassedIs(m, f.slice, f.size, tree, op, f.v, r);
    } else if op.DropEverything? {
      LeavesNodeIs(f.seg.mem, f.v, f.shr, f.enq, f.deq, f.size, f.ooo.segs);
      var c := f.seg.mem[f.shr.startChunk];
      valid := !(c.deq && c.next != NULL && f.shr.head == ChunkEnd(c));
      ghost var k := f.DropAll();
      PassedIs(m, f.slice, f.size, tree, op, f.v, m.v.tl - m.v.hd);
    } else {
      DoLook(f, op);
    }
    f.Open();
  }

  lemma PassedNone(m: Moment, slice: nat, size: nat, tree: bool, op: Op)
    requires |m.v.pos| == |m.v.chain| + 1 && op.Get?
    ensures tree ==> Effect(m, slice, size, tree, op, m.v)
  {
  }

  lemma PassedIs(m: Moment, slice: nat, size: nat, tree: bool, op: Op, v': View, r: int)
    requires |m.v.pos| == |m.v.chain| + 1 && m.v.hd <= m.v.tl && v'.log == m.v.log && v'.tl == m.v.tl
    requires op.Get? || op.Drop? ==> (r < 0 ==> v' == m.v && m.v.tl == m.v.hd) && (r >= 0 ==> r == Least(op.len, m.v.tl - m.v.hd) && v'.hd == m.v.hd + r)
    requires op.DropEverything? ==> v'.hd == m.v.tl
    requires (op.Get? && !tree) || op.Drop? || op.DropEverything?
    ensures Effect(m, slice, size, tree, op, v')
  {
  }

  lemma StillIs(m: Moment, slice: nat, size: nat, tree: bool, op: Op, v': View)
    requires |m.v.pos| == |m.v.chain| + 1 && v'.log == m.v.log && v'.hd == m.v.hd && v'.tl == m.v.tl
    requires op.Look? || op.Where? || op.UseEnqTree? || op.UseDeqTree?
    ensures Effect(m, slice, size, tree, op, v')
  {
  }

  method DoPut(f: Fifo, op: Op)
    requires f.Valid() && (op.Put? || op.PutAhead? || op.PutAll?)
    modifies f, f.seg, f.ooo
    ensures f.Valid() && Conserves(old(f.seg.mem), old(f.seg.place), old(f.v).chain, f.seg.mem, f.seg.place, f.v.chain)
    ensures forall tree :: Effect(Moment(old(f.v), old(f.seg.Left())), f.slice, f.size, tree, op, f.v)
  {
    hide *;
    if op.PutAhead? {
      DoPutAhead(f, op);
    } else {
      DoAppend(f, op);
    }
  }

  method DoPutAhead(f: Fifo, op: Op)
    requires f.Valid() && op.PutAhead?
    modifies f, f.seg, f.ooo
    ensures f.Valid() && Conserves(old(f.seg.mem), old(f.seg.place), old(f.v).chain, f.seg.mem, f.seg.place, f.v.chain)
    ensures forall tree :: Effect(Moment(old(f.v), old(f.seg.Left())), f.slice, f.size, tree, op, f.v)
  {
    hide *;
    f.Open();
    Facts(f.seg.mem, f.v, f.shr, f.enq, f.size, f.ooo.segs);
    f.seg.ChunkSizes();
    ConservesRefl(f.seg.mem, f.seg.place, f.v.chain);
    SmallSizes();
    Errors();
    ghost var m := Moment(f.v, f.seg.Left());
    var len := op.offset + |op.src|;
    RefusedIs(m.left, f.slice, f.size, m.v, len);
    var r := EFULL;
    if len <= f.size - Sub(f.shr.tail, f.shr.head) {
      var safe := f.GrowsEnough(len);
      if op.src != [] && op.offset > 0 && safe {
        r := f.EnqueueWithOffset(op.offset, op.src);
      }
    }
    AheadIs(m, f.slice, f.size, op, f.v, r);
  }

  lemma AheadIs(m: Moment, slice: nat, size: nat, op: Op, v': View, r: int)
    requires |m.v.pos| == |m.v.chain| + 1 && op.PutAhead?
    requires r == 0 <==> op.src != [] && op.offset > 0 && !Refused(m.left, slice, size, m.v, op.offset + |op.src|)
    requires r == 0 ==> v'.log == Overlay(m.v.log, m.v.tl + op.offset, op.src) && v'.hd == m.v.hd && v'.tl == m.v.tl
    requires r != 0 ==> v' == m.v
    ensures forall tree :: Effect(m, slice, size, tree, op, v')
  {
    hide Refused, Overlay;
  }

  /** The bytes that an operation appends. */
  function Appends(op: Op): seq<u8>
    requires op.Put? || op.PutAll?
  {
    if op.Put? then op.src else Concat(op.bufs)
  }

  method DoAppend(f: Fifo, op: Op)
    requires f.Valid() && (op.Put? || op.PutAll?)
    modifies f, f.seg, f.ooo
    ensures f.Valid() && Conserves(old(f.seg.mem), old(f.seg.place), old(f.v).chain, f.seg.mem, f.seg.place, f.v.chain)
    ensures forall tree :: Effect(Moment(old(f.v), old(f.seg.Left())), f.slice, f.size, tree, op, f.v)
  {
    hide *;
    f.Open();
    Facts(f.seg.mem, f.v, f.shr, f.enq, f.size, f.ooo.segs);
    f.seg.ChunkSizes();
    ConservesRefl(f.seg.mem, f.seg.place, f.v.chain);
    ghost var m, mem0, shr0, enq0, segs0 := Moment(f.v, f.seg.Left()), f.seg.mem, f.shr, f.enq, f.ooo.segs;
    TailOpen(f.seg.mem, f.v, f.shr, f.enq, f.size, f.ooo.segs);
    ExtendedNone(f.v);
    var src := Appends(op);
    AppendsIs(op);
    var room := f.size - Sub(f.shr.tail, f.shr.head);
    LeastIs(|src|, room);
    var safe := f.GrowsEnough(Least(|src|, room));
    TakenIs(m.v, m.left, f.slice, f.size, |src|, 0);
    if !safe {
      AppendsNone(m, f.slice, f.size, op);
      return;
    }
    var r; ghost var n;
    if op.Put? {
      if op.src == [] && f.shr.tailChunk == NULL && room != 0 {
        TakenNothing(m, f.slice, f.size);
        AppendsNone(m, f.slice, f.size, op);
        return;
      }
      r, n := f.Enqueue(op.src);
    } else {
      if exists i :: 0 <= i < |op.bufs| && op.bufs[i] == [] {
        AppendsStill(m, f.slice, f.size, op);
        return;
      }
      r, n := f.EnqueueSegments(op.bufs, op.partial);
    }
    f.Open();
    Facts(f.seg.mem, f.v, f.shr, f.enq, f.size, f.ooo.segs);
    Errors();
    if op.PutAll? && !op.partial && r < 0 {
      NotAllTaken(m, f.slice, f.size, |src|);
      if src == [] {
        TakenNothing(m, f.slice, f.size);
        AppendsNone(m, f.slice, f.size, op);
      } else {
        AppendsStill(m, f.slice, f.size, op);
      }
    } else {
      OutcomeExtends(mem0, shr0, enq0, f.seg.mem, f.shr, f.enq, m.v, segs0, m.left, f.slice, f.size, src, r, n, f.v, f.ooo.segs);
      OutcomeHas(m.v, segs0, m.left, f.slice, f.size, src, r, n, f.v, f.ooo.segs);
      TakenIs(m.v, m.left, f.slice, f.size, |src|, n);
      AppendsAll(m, f.slice, f.size, op, n, f.v);
    }
  }

  lemma AppendsIs(op: Op)
    requires op.Put? || op.PutAll?
    ensures Appends(op) == if op.Put? then op.src else Concat(op.bufs)
  {
  }

  /** Nothing is taken of no bytes. */
  lemma TakenNothing(m: Moment, slice: nat, size: nat)
    requires |m.v.pos| == |m.v.chain| + 1 && m.v.tl <= m.v.pos[|m.v.chain|] && m.v.tl - m.v.hd <= size
    ensures Taken(m, slice, size, 0) == 0
  {
    hide Safe, Starved;
  }

  lemma NotAllTaken(m: Moment, slice: nat, size: nat, len: nat)
    requires |m.v.pos| == |m.v.chain| + 1 && m.v.tl <= m.v.pos[|m.v.chain|] && m.v.tl - m.v.hd <= size
    ensures len > 0 && (m.v.tl - m.v.hd == size || len > size - (m.v.tl - m.v.hd)) ==> Taken(m, slice, size, len) < len
    ensures m.v.tl + len > m.v.pos[|m.v.chain|] && Starved(m.left, slice, size, m.v, len) ==> Taken(m, slice, size, len) < len
  {
    hide Safe, Starved;
  }

  lemma AppendsNone(m: Moment, slice: nat, size: nat, op: Op)
    requires (op.Put? || op.PutAll?) && |m.v.pos| == |m.v.chain| + 1 && Taken(m, slice, size, |Appends(op)|) == 0 && Extended(m.v, [], m.v)
    ensures forall tree :: Effect(m, slice, size, tree, op, m.v)
  {
    hide Taken, Extended, Concat;
    assert Appends(op)[..0] == [];
  }

  lemma AppendsStill(m: Moment, slice: nat, size: nat, op: Op)
    requires op.PutAll? && |m.v.pos| == |m.v.chain| + 1
    requires (exists i :: 0 <= i < |op.bufs| && op.bufs[i] == []) || (!op.partial && Taken(m, slice, size, |Appends(op)|) < |Appends(op)|)
    ensures forall tree :: Effect(m, slice, size, tree, op, m.v)
  {
    hide Taken, Extended, Concat;
  }

  lemma AppendsAll(m: Moment, slice: nat, size: nat, op: Op, n: nat, v': View)
    requires (op.Put? || op.PutAll?) && |m.v.pos| == |m.v.chain| + 1 && Taken(m, slice, size, |Appends(op)|) == n <= |Appends(op)|
    requires Extended(m.v, Appends(op)[..n], v')
    requires op.PutAll? ==> (forall i :: 0 <= i < |op.bufs| ==> op.bufs[i] != []) && (op.partial || n == |Appends(op)|)
    ensures forall tree :: Effect(m, slice, size, tree, op, v')
  {
    hide Taken, Extended, Concat;
  }

  method DoLook(f: Fifo, op: Op)
    requires f.Valid() && (op.Look? || op.Where? || op.UseEnqTree? || op.UseDeqTree?)
    modifies f, f.seg, f.ooo
    ensures f.Valid() && Conserves(old(f.seg.mem), old(f.seg.place), old(f.v).chain, f.seg.mem, f.seg.place, f.v.chain)
    ensures forall tree :: Effect(Moment(old(f.v), old(f.seg.Left())), f.slice, f.size, tree, op, f.v)
  {
    hide *;
    f.Open();
    Facts(f.seg.mem, f.v, f.shr, f.enq, f.size, f.ooo.segs);
    f.seg.ChunkSizes();
    ConservesRefl(f.seg.mem, f.seg.place, f.v.chain);
    ghost var mem0, m := f.seg.mem, Moment(f.v, f.seg.Left());
    if op.Look? {
      if op.offset < TWO_32 && (op.offset != Sub(f.shr.tail, f.shr.head) || f.shr.tailChunk != NULL) {
        SmallSizes();
        var r, dst := f.Peek(op.offset, op.len);
        ConservesWrite(mem0, f.seg.place, f.v.chain, f.seg.mem);
      }
    } else if op.Where? {
      var r, pieces := f.SegmentsAt(op.offset, op.maxPieces, op.maxBytes);
    } else if op.UseEnqTree? {
      if !f.enq.init { f.InitEnqLookup(); }
    } else {
      if !f.deq.init { f.InitDeqLookup(); }
    }
    forall tree ensures Effect(m, f.slice, f.size, tree, op, f.v) {
      StillIs(m, f.slice, f.size, tree, op, f.v);
    }
  }

  /** A segment with its fifos, of which those in ok can be used: the others have a node left
      behind in their dequeue tree. */
  ghost predicate World(seg: Segment, fs: set<Fifo>, ok: set<Fifo>)
    reads seg, fs, (set g | g in fs :: g.seg), (set g | g in fs :: g.ooo), ok, (set g | g in ok :: g.seg), (set g | g in ok :: g.ooo)
  {
    Complete(seg, fs) && ok <= fs && forall g :: g in ok ==> g.Valid()
  }

  /** Every operation of one fifo keeps the whole. */
  method Operate(seg: Segment, fs: set<Fifo>, ok: set<Fifo>, f: Fifo, op: Op) returns (ok': set<Fifo>)
    requires World(seg, fs, ok) && f in ok
    modifies seg, f, f.ooo
    ensures World(seg, fs, ok') && ok' == if op.DropEverything? && old(LeavesNode(f.v)) then ok - {f} else ok
    ensures Effect(Moment(old(f.v), old(seg.Left())), f.slice, f.size, old(f.deq.tree != Nil), op, f.v)
  {
    hide Others, Conserves, Fifo.Shaped, Fifo.Valid, Segment.Valid;
    SplitOut(seg, fs, f);
    ghost var own0 := f.v.chain;
    var valid := Do(f, op);
    forall g | g in fs - {f} ensures Untouched(g) {
    }
    Carry(Turn(seg, fs - {f}, own0, f.v.chain));
    PutBack(seg, fs - {f}, f);
    assert fs - {f} + {f} == fs;
    ok' := if valid then ok else ok - {f};
  }

  /** A new fifo joins the others, or there is none and nothing has changed for them. */
  method Create(seg: Segment, fs: set<Fifo>, ok: set<Fifo>, slice: nat, size: nat, pct: nat) returns (f: Fifo?)
    requires World(seg, fs, ok) && slice < seg.nSlices && 0 < size <= MAX_FIFO && (pct <= 100 || FirstAlloc(pct, size) <= MAX_SIZE)
    modifies seg
    ensures f == null ==> World(seg, fs, ok)
    ensures f != null ==> fresh(f) && fresh(f.ooo) && f.seg == seg && World(seg, fs + {f}, ok + {f})
    ensures Supplied(old(seg.Left()), slice) && (f != null <==> Served(old(seg.Left()), slice, FirstAlloc(pct, size)))
    ensures f != null ==> f.slice == slice && f.size == size && f.v.log == map[] && f.v.hd == f.v.tl == 0 && f.deq.tree == Nil
  {
    hide Conserves, Fifo.Shaped, Fifo.Valid, Segment.Valid, FirstAlloc, Served, Supplied, Refillable, Extends, Apart;
    OthersValid(seg, fs);
    f := Fifo.Alloc(seg, slice, size, pct);
    forall g | g in fs ensures Untouched(g) {
    }
    if f == null {
      ConservesNone(old(seg.mem), old(seg.place), seg.mem, seg.place);
      Carry(Turn(seg, fs, [], []));
    } else {
      Carry(Turn(seg, fs, [], f.v.chain));
      f.Open();
      PutBack(seg, fs, f);
    }
  }

  lemma OthersValid(seg: Segment, fs: set<Fifo>)
    requires Complete(seg, fs)
    ensures seg.Valid() && seg.place.Keys == seg.mem.Keys
  {
    hide Fifo.Shaped;
    seg.ChunkSizes();
  }

  lemma ConservesNone(mem0: Memory, place0: Places, mem: Memory, place: Places)
    requires Extends(mem0, place0, mem, place) && place0.Keys == mem0.Keys
    ensures Conserves(mem0, place0, [], mem, place, [])
  {
    hide Extends, Conserves;
    ConservesExtends(mem0, place0, [], mem, place);
  }

  /** A fifo is freed: its chunks are free, and the others stay. */
  method Destroy(seg: Segment, fs: set<Fifo>, ok: set<Fifo>, f: Fifo)
    requires World(seg, fs, ok) && f in fs
    modifies seg
    ensures World(seg, fs - {f}, ok - {f})
  {
    hide Others, Conserves, Fifo.Shaped, Fifo.Valid, Segment.Valid;
    SplitOut(seg, fs, f);
    f.Free();
    forall g | g in fs - {f} ensures Untouched(g) {
    }
    Carry(Turn(seg, fs - {f}, f.v.chain, []));
  }

  datatype Command = New(slice: nat, size: nat, pct: nat) | Use(i: nat, op: Op) | Remove(i: nat)

  /** Whether a fifo can be used, has a node left behind and can only be removed, or is removed. */
  datatype Life = Usable | Stuck | Gone

  /** A fifo as its users see it, and whether its dequeue tree is in use. */
  datatype Shot = Shot(v: View, slice: nat, size: nat, tree: bool, life: Life)

  /** All fifos that were ever created, in order, and what the segment can supply. */
  datatype Picture = Picture(fifos: seq<Shot>, left: Supply)

  /** What a command does: a fifo joins exactly when its first allocation can be served; an operation
      has its effect on the fifo that it names; a fifo is removed. All others are as they were. */
  ghost predicate Follows(a: Picture, c: Command, b: Picture, nSlices: nat) {
    match c
    case New(slice, size, pct) =>
      if && slice < nSlices && 0 < size <= MAX_FIFO && (pct <= 100 || FirstAlloc(pct, size) <= MAX_SIZE)
         && Supplied(a.left, slice) && Served(a.left, slice, FirstAlloc(pct, size))
      then
        && |b.fifos| == |a.fifos| + 1 && b.fifos[..|a.fifos|] == a.fifos
        && var f := b.fifos[|a.fifos|];
           f == Shot(f.v, slice, size, false, Usable) && f.v.log == map[] && f.v.hd == f.v.tl == 0
      else
        b.fifos == a.fifos
    case Use(i, op) =>
      if i < |a.fifos| && a.fifos[i].life == Usable then
        && |b.fifos| == |a.fifos| && b.fifos == a.fifos[i := b.fifos[i]]
        && var f, g := a.fifos[i], b.fifos[i];
           && Effect(Moment(f.v, a.left), f.slice, f.size, f.tree, op, g.v)
           && g == Shot(g.v, f.slice, f.size, g.tree, if op.DropEverything? && LeavesNode(f.v) then Stuck else Usable)
      else
        b.fifos == a.fifos
    case Remove(i) =>
      if i < |a.fifos| && a.fifos[i].life != Gone then b.fifos == a.fifos[i := a.fifos[i].(life := Gone)] else b.fifos == a.fifos
  }

  ghost function ShotOf(f: Fifo, fs: set<Fifo>, ok: set<Fifo>): Shot
    reads f
  {
    Shot(f.v, f.slice, f.size, f.deq.tree != Nil, if f !in fs then Gone else if f in ok then Usable else Stuck)
  }

  ghost function Shots(all: seq<Fifo>, fs: set<Fifo>, ok: set<Fifo>): (r: seq<Shot>)
    reads set f | f in all
    ensures |r| == |all|
  {
    if all == [] then [] else Shots(all[..|all| - 1], fs, ok) + [ShotOf(all[|all| - 1], fs, ok)]
  }

  lemma {:induction false} ShotsAt(all: seq<Fifo>, fs: set<Fifo>, ok: set<Fifo>, j: nat)
    requires j < |all|
    ensures Shots(all, fs, ok)[j] == ShotOf(all[j], fs, ok)
    decreases |all|
  {
    if j < |all| - 1 {
      ShotsAt(all[..|all| - 1], fs, ok, j);
    }
  }

  ghost function PictureOf(seg: Segment, all: seq<Fifo>, fs: set<Fifo>, ok: set<Fifo>): Picture
    reads seg, set f | f in all
  {
    Picture(Shots(all, fs, ok), seg.Left())
  }

  /** The fifos of a world are among those that were created, each of which is another object. */
  ghost predicate Listed(all: seq<Fifo>, fs: set<Fifo>) {
    (forall i, j :: 0 <= i < j < |all| ==> all[i] != all[j]) && forall f :: f in fs ==> f in all
  }

  /** Two pictures that differ in one fifo. */
  lemma OneChanged(a: seq<Shot>, b: seq<Shot>, i: nat)
    requires i < |a| == |b| && forall j :: 0 <= j < |a| && j != i ==> b[j] == a[j]
    ensures b == a[i := b[i]]
  {
  }

  method CreateOne(seg: Segment, all: seq<Fifo>, fs: set<Fifo>, ok: set<Fifo>, c: Command) returns (all': seq<Fifo>, fs': set<Fifo>, ok': set<Fifo>)
    requires World(seg, fs, ok) && Listed(all, fs) && c.New?
    modifies seg
    ensures World(seg, fs', ok') && Listed(all', fs') && (forall g :: g in all' && g !in all ==> fresh(g) && fresh(g.ooo))
    ensures Follows(old(PictureOf(seg, all, fs, ok)), c, PictureOf(seg, all', fs', ok'), seg.nSlices)
  {
    hide World, FirstAlloc, Served, Supplied, Shots, Effect;
    ghost var a := PictureOf(seg, all, fs, ok);
    all', fs', ok' := all, fs, ok;
    if c.slice < seg.nSlices && 0 < c.size <= MAX_FIFO && (c.pct <= 100 || FirstAlloc(c.pct, c.size) <= MAX_SIZE) {
      var f := Create(seg, fs, ok, c.slice, c.size, c.pct);
      assert a.fifos == Shots(all, fs, ok);
      if f != null {
        all', fs', ok' := all + [f], fs + {f}, ok + {f};
        forall j: nat | j < |all| ensures Shots(all', fs', ok')[j] == a.fifos[j] {
          ShotsAt(all', fs', ok', j);
          ShotsAt(all, fs, ok, j);
        }
        ShotsAt(all', fs', ok', |all|);
        assert Shots(all', fs', ok')[..|all|] == a.fifos;
      }
    }
  }

  method UseOne(seg: Segment, all: seq<Fifo>, fs: set<Fifo>, ok: set<Fifo>, c: Command) returns (ok': set<Fifo>)
    requires World(seg, fs, ok) && Listed(all, fs) && c.Use?
    modifies seg, set f | f in all, set f | f in all :: f.ooo
    ensures World(seg, fs, ok') && Follows(old(PictureOf(seg, all, fs, ok)), c, PictureOf(seg, all, fs, ok'), seg.nSlices)
  {
    hide World, Shots, Effect, LeavesNode;
    ok' := ok;
    ghost var a := PictureOf(seg, all, fs, ok);
    forall j: nat | j < |all| ensures a.fifos[j] == ShotOf(all[j], fs, ok) {
      ShotsAt(all, fs, ok, j);
    }
    InWorld(seg, fs, ok);
    if c.i < |all| && all[c.i] in ok {
      var f := all[c.i];
      ok' := Operate(seg, fs, ok, f, c.op);
      ghost var b := PictureOf(seg, all, fs, ok');
      forall j: nat | j < |all| ensures b.fifos[j] == ShotOf(all[j], fs, ok') {
        ShotsAt(all, fs, ok', j);
      }
      assert forall j :: 0 <= j < |all| && j != c.i ==> all[j] != f;
      OneChanged(a.fifos, b.fifos, c.i);
    }
  }

  lemma InWorld(seg: Segment, fs: set<Fifo>, ok: set<Fifo>)
    requires World(seg, fs, ok)
    ensures ok <= fs && forall f :: f in fs ==> f.seg == seg
  {
    hide Fifo.Valid, Fifo.Shaped, Segment.Valid;
  }

  method RemoveOne(seg: Segment, all: seq<Fifo>, fs: set<Fifo>, ok: set<Fifo>, c: Command) returns (fs': set<Fifo>, ok': set<Fifo>)
    requires World(seg, fs, ok) && Listed(all, fs) && c.Remove?
    modifies seg
    ensures World(seg, fs', ok') && Listed(all, fs') && Follows(old(PictureOf(seg, all, fs, ok)), c, PictureOf(seg, all, fs', ok'), seg.nSlices)
  {
    hide World, Shots, Effect;
    fs', ok' := fs, ok;
    ghost var a := PictureOf(seg, all, fs, ok);
    forall j: nat | j < |all| ensures a.fifos[j] == ShotOf(all[j], fs, ok) {
      ShotsAt(all, fs, ok, j);
    }
    InWorld(seg, fs, ok);
    if c.i < |all| && all[c.i] in fs {
      var f := all[c.i];
      Destroy(seg, fs, ok, f);
      fs', ok' := fs - {f}, ok - {f};
      ghost var b := PictureOf(seg, all, fs', ok');
      forall j: nat | j < |all| ensures b.fifos[j] == ShotOf(all[j], fs', ok') {
        ShotsAt(all, fs', ok', j);
      }
      assert forall j :: 0 <= j < |all| && j != c.i ==> all[j] != f;
      OneChanged(a.fifos, b.fifos, c.i);
    }
  }

  /** Every run: a new segment, and any commands in any order on any of its fifos. Each command does
      what it is for to the fifo that it names, and nothing to the others, as the pictures taken
      between the commands show. Every chunk is on exactly one free list or in the chain of exactly
      one fifo. */
  method Run(n: nat, base: nat, size: nat, commands: seq<Command>)
    returns (seg: Segment, all: seq<Fifo>, fs: set<Fifo>, ok: set<Fifo>, ghost trace: seq<Picture>)
    requires 0 < base < size <= SEGMENT_LIMIT
    ensures Complete(seg, fs) && ok <= fs && Listed(all, fs)
    ensures forall x :: x in seg.mem ==>
              ((exists k :: k in seg.lists && x in seg.lists[k]) <==> !(exists f :: f in fs && x in f.v.chain))
    ensures |trace| == |commands| + 1 && trace[0].fifos == [] && trace[|commands|] == PictureOf(seg, all, fs, ok)
    ensures forall i :: 0 <= i < |commands| ==> Follows(trace[i], commands[i], trace[i + 1], seg.nSlices)
  {
    hide Others, Fifo.Shaped, Fifo.Valid, Segment.Valid, FirstAlloc, Follows, Shots, World;
    seg := new Segment(n, base, size);
    all, fs, ok := [], {}, {};
    Empty(seg);
    NoShots(seg);
    trace := [PictureOf(seg, all, fs, ok)];
    for i := 0 to |commands|
      invariant World(seg, fs, ok) && Listed(all, fs) && fresh(seg) && forall g :: g in all ==> fresh(g) && fresh(g.ooo)
      invariant |trace| == i + 1 && trace[0].fifos == [] && trace[i] == PictureOf(seg, all, fs, ok)
      invariant forall j :: 0 <= j < i ==> Follows(trace[j], commands[j], trace[j + 1], seg.nSlices)
    {
      match commands[i] {
      case New(_, _, _) => all, fs, ok := CreateOne(seg, all, fs, ok, commands[i]);
      case Use(_, _) => ok := UseOne(seg, all, fs, ok, commands[i]);
      case Remove(_) => fs, ok := RemoveOne(seg, all, fs, ok, commands[i]);
      }
      trace := trace + [PictureOf(seg, all, fs, ok)];
    }
    InWorld(seg, fs, ok);
    Whole(seg, fs, ok);
    forall x | x in seg.mem ensures (exists k :: k in seg.lists && x in seg.lists[k]) <==> !(exists f :: f in fs && x in f.v.chain) {
      EveryChunkOnce(seg, fs, x);
    }
  }

  lemma Whole(seg: Segment, fs: set<Fifo>, ok: set<Fifo>)
    requires World(seg, fs, ok)
    ensures Complete(seg, fs)
  {
    hide Others, Fifo.Valid;
  }

  lemma NoShots(seg: Segment)
    requires Complete(seg, {})
    ensures World(seg, {}, {}) && Shots([], {}, {}) == []
  {
    hide Others;
  }

  lemma Empty(seg: Segment)
    requires seg.Valid() && seg.mem == map[]
    ensures Complete(seg, {})
  {
    seg.ChunkSizes();
  }
}
