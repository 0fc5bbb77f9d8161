/** Every step of the consumer keeps the invariant, whatever the producer is doing. */
module SpscConsumer {
  import opened Position
  import opened OooSegments
  import opened Chunks
  import opened FreeLists
  import opened SegmentState
  import opened ChunkTree
  import opened ChunkIndex
  import opened FifoState
  import opened FifoViews
  import opened SpscState
  import opened SpscProducer

  /** A state in which only what the consumer knows and its lookup differ. */
  ghost function WithCons(s: State, c: Cons, deq: Lookup, d: nat): State {
    s.(cons := c, deq := deq, v := s.v.(deqTo := d))
  }

  lemma WithConsIs(s: State, c: Cons, deq: Lookup, d: nat)
    ensures WithCons(s, c, deq, d) == s.(cons := c, deq := deq, v := s.v.(deqTo := d))
  {
  }

  /** What does not depend on the consumer's own state. */
  lemma OtherParts(s: State, c: Cons, deq: Lookup, d: nat)
    requires |s.v.pos| == |s.v.chain| + 1
    ensures var s' := WithCons(s, c, deq, d);
            (Base(s) ==> Base(s')) && (Books(s) ==> Books(s')) && (Pool(s) ==> Pool(s')) && (ProdOk(s) ==> ProdOk(s'))
  {
    hide Stream, Pointers, EnqSide, Bytes, Around, Linkable, Holds, Overlay, WellSized, Canonical, Added, Beyond, RoomFor, Reach;
    AroundFrame(s.v, WithCons(s, c, deq, d).v);
  }

  lemma ConsStep(s: State, c: Cons, deq: Lookup, d: nat)
    requires Sound(s) && ConsOk(WithCons(s, c, deq, d))
    ensures Sound(WithCons(s, c, deq, d))
  {
    hide *;
    Parts(s);
    OtherParts(s, c, deq, d);
    WithConsIs(s, c, deq, d);
    SoundIs(WithCons(s, c, deq, d));
  }

  /** What the consumer knows when it is idle. */
  lemma IdlePhase(s: State)
    requires Sound(s) && s.cons.CIdle?
    ensures s.v.hd == s.hd && DeqInv(s.mem, s.v, s.deq) && WithCons(s, s.cons, s.deq, s.v.deqTo) == s
  {
    hide Base, Books, Pool, ProdOk, DeqInv;
  }

  lemma CLoadIs(s: State, len: nat)
    requires EnabledCons(s, CLoad(len))
    ensures s.cons.CIdle? && s.deq.tree == Nil
    ensures var n := Least(len, Sub(s.shr.tail, s.head));
            && n <= len && n <= Sub(s.shr.tail, s.head)
            && ApplyCons(s, CLoad(len)) ==
               if n <= 0 then s
               else WithCons(s, CReading(0, n, 0, if s.shr.headChunk == NULL then s.shr.startChunk else s.shr.headChunk, [], false), s.deq, s.v.deqTo)
  {
    hide Sub;
  }

  lemma NoBytes(log: Log, p: int)
    ensures Bytes(log, p, 0) == []
  {
  }

  lemma StartsByIs(v: View, c: Sptr, p: int, i: nat)
    requires i < |v.chain| <= |v.pos| && c == v.chain[i] && v.pos[i] <= p
    ensures StartsBy(v, c, p)
  {
    assert StartsByAt(v, c, p, i);
  }

  /** The chunk that a read starts from. */
  lemma ReadsFrom(s: State)
    requires Sound(s) && s.v.hd == s.hd && s.hd < s.v.tl
    ensures var c := if s.shr.headChunk == NULL then s.shr.startChunk else s.shr.headChunk;
            c != NULL && StartsBy(s.v, c, s.hd)
  {
    hide *;
    Numbers(s);
    Parts(s);
    EndIs(s.v);
    NextInChain(s, 0);
    StartsByIs(s.v, s.v.chain[0], s.hd, 0);
    if s.shr.headChunk != NULL {
      HeadIs(s);
      ChunkForAround(s.mem, s.v, s.hd);
    }
  }

  lemma HeadIs(s: State)
    requires Base(s)
    ensures |s.v.pos| == |s.v.chain| + 1 && s.v.chain != [] && s.v.pos[0] <= s.v.hd && (s.shr.headChunk == NULL || s.shr.headChunk == ChunkFor(s.v.chain, s.v.pos, s.v.hd))
  {
    hide Stream, EnqSide, WellSized, ChunkFor, Wrap, Beyond;
  }

  lemma CLoadKeeps(s: State, len: nat)
    requires Sound(s) && EnabledCons(s, CLoad(len))
    ensures Sound(ApplyCons(s, CLoad(len)))
  {
    hide *;
    CLoadIs(s, len);
    Numbers(s);
    IdlePhase(s);
    var n := Least(len, Sub(s.shr.tail, s.head));
    if n > 0 {
      ReadsFrom(s);
      NoBytes(s.v.log, s.hd);
      var c := if s.shr.headChunk == NULL then s.shr.startChunk else s.shr.headChunk;
      StartOk(s, 0, n, c, false, s.deq, s.v.deqTo);
      ConsStep(s, CReading(0, n, 0, c, [], false), s.deq, s.v.deqTo);
    }
  }

  lemma StartOk(s: State, o: nat, n: nat, c: Sptr, peek: bool, deq: Lookup, d: nat)
    requires s.v.hd == s.hd && DeqInv(s.mem, s.v.(deqTo := d), deq) && (!peek ==> o == 0 && n > 0 && deq.tree == Nil)
    requires s.hd + o < s.v.tl && s.hd + o + n <= s.v.tl && c != NULL && StartsBy(s.v, c, s.hd + o) && (peek ==> Around(s.v, c, s.hd + o))
    ensures ConsOk(WithCons(s, CReading(o, n, 0, c, [], peek), deq, d))
  {
    hide Bytes, Around, StartsBy, DeqSide;
    NoBytes(s.v.log, s.hd + o);
    AroundFrame(s.v, s.v.(deqTo := d));
  }

  lemma CPeekKeeps(s: State, o: nat, len: nat)
    requires Sound(s) && EnabledCons(s, CPeek(o, len))
    ensures Sound(ApplyCons(s, CPeek(o, len)))
  {
    hide Sub, DeqInv, Stream, Pointers, EnqSide, Holds, Chain, ChunkEnd, Wrap, Reach, Sound;
    Numbers(s);
    IdlePhase(s);
    hide Base, Books, Pool, ProdOk;
    var n := Least(len, Sub(s.shr.tail, s.head) - o);
    ConsStep(s, CSeeking(o, n), s.deq, s.v.deqTo);
  }

  lemma CSeekIs(s: State, m: Memory, t: Tree, c: Sptr, b: nat)
    requires EnabledCons(s, CSeek(m, t, c, b))
    ensures s.cons.CSeeking?
    ensures var v := s.v;
            && |v.pos| == |v.chain| + 1 && v.chain != [] && v.pos[0] <= s.hd + s.cons.o
            && Chain(m, v.chain, v.pos) && OnlyFlags(s.mem, m, v.chain, false) && c == ChunkFor(v.chain, v.pos, s.hd + s.cons.o)
            && Index(m, t, v.chain, v.pos, false, 0, b) && (b > 0 ==> s.deq.init)
    ensures ApplyCons(s, CSeek(m, t, c, b)) == WithCons(s.(mem := m), CReading(s.cons.o, s.cons.n, 0, c, [], true), Lookup(t, s.deq.init, c), b)
  {
    hide Chain, OnlyFlags, ChunkFor, Index;
  }

  lemma EnqFlags(mem: Memory, m: Memory, chain: seq<Sptr>)
    requires forall x :: x in chain ==> x in mem && x in m && Flag(m[x], true) == Flag(mem[x], true)
    ensures forall x :: x in chain ==> m[x].enq == mem[x].enq
  {
  }

  /** A change of the consumer's flags alone. */
  lemma FlagsKeep(s: State, m: Memory)
    requires Sound(s) && OnlyFlags(s.mem, m, s.v.chain, false)
    ensures var s' := s.(mem := m);
            |s.v.pos| == |s.v.chain| + 1 && Base(s') && Books(s') && Pool(s') && ProdOk(s')
    ensures Chain(m, s.v.chain, s.v.pos)
  {
    hide *;
    Numbers(s);
    Parts(s);
    var s' := s.(mem := m);
    ChainIn(s.mem, s.v.chain, s.v.pos);
    FlagsSized(s.mem, m, s.v.chain, false);
    EnqFlags(s.mem, m, s.v.chain);
    OnlyFlagsChain(s.mem, m, s.v.chain, s.v.pos, false);
    OnlyFlagsHolds(s.mem, m, s.v.chain, s.v.pos, s.v.log, false);
    EnqFrame(s, s');
    WrittenBase(s, s');
    BooksSame(s, s');
    PoolKept(s, s');
    FlagsProd(s, m);
  }

  /** What the producer knows survives a change of the consumer's flags. */
  lemma FlagsProd(s: State, m: Memory)
    requires |s.v.pos| == |s.v.chain| + 1 && Pool(s) && ProdOk(s) && OnlyFlags(s.mem, m, s.v.chain, false)
    ensures ProdOk(s.(mem := m))
  {
    hide Linkable, Holds, Around, Overlay, Canonical, Added, Reach;
    if s.prod.PAlloced? {
      assert SameOn(s.mem, m, s.prod.got);
      LinkableSame(s.mem, m, s.prod.first, s.prod.got, s.prod.q, End(s.v));
    } else if s.prod.PWriting? {
      hide OnlyFlags;
      OnlyFlagsHolds(s.mem, m, s.v.chain, s.v.pos, Overlay(s.v.log, s.v.tl + s.prod.o, s.prod.src[..s.prod.w]), false);
    }
  }

  lemma SeekPhaseCons(s: State)
    requires Sound(s) && s.cons.CSeeking?
    ensures s.v.hd == s.hd && DeqInv(s.mem, s.v, s.deq) && s.hd + s.cons.o < s.v.tl && s.hd + s.cons.o + s.cons.n <= s.v.tl
  {
    hide Base, Books, Pool, ProdOk, DeqInv;
  }

  lemma CSeekKeeps(s: State, m: Memory, t: Tree, c: Sptr, b: nat)
    requires Sound(s) && EnabledCons(s, CSeek(m, t, c, b))
    ensures Sound(ApplyCons(s, CSeek(m, t, c, b)))
  {
    hide *;
    Numbers(s);
    CSeekIs(s, m, t, c, b);
    SeekPhaseCons(s);
    FlagsKeep(s, m);
    var s1, read, deq := s.(mem := m), CReading(s.cons.o, s.cons.n, 0, c, [], true), Lookup(t, s.deq.init, c);
    PeekedDeq(m, s.v, t, s.deq.init, b, s.hd + s.cons.o);
    ChunkForAround(m, s.v, s.hd + s.cons.o);
    StartOk(s1, s.cons.o, s.cons.n, c, true, deq, b);
    OtherParts(s1, read, deq, b);
    WithConsIs(s1, read, deq, b);
    SoundIs(WithCons(s1, read, deq, b));
  }

  /** What is known while the consumer reads. */
  lemma ReadPhase(s: State)
    requires Sound(s) && s.cons.CReading?
    ensures var c := s.cons;
            && s.v.hd == s.hd && DeqInv(s.mem, s.v, s.deq) && (!c.peek ==> c.o == 0 && c.n > 0 && s.deq.tree == Nil)
            && c.r <= c.n && s.hd + c.o < s.v.tl && s.hd + c.o + c.n <= s.v.tl && c.dst == Bytes(s.v.log, s.hd + c.o, c.r)
            && (c.c == NULL ==> c.r == c.n && c.r > 0) && (c.c != NULL && c.r > 0 ==> Around(s.v, c.c, s.hd + c.o + c.r))
            && (c.r == 0 ==> StartsBy(s.v, c.c, s.hd + c.o)) && (c.peek && c.r == 0 ==> Around(s.v, c.c, s.hd + c.o))
  {
    hide Base, Books, Pool, ProdOk, DeqInv, Bytes, Around, StartsBy;
  }

  lemma StartsByIndex(v: View, c: Sptr, p: int) returns (i: nat)
    requires StartsBy(v, c, p)
    ensures i < |v.chain| <= |v.pos| && c == v.chain[i] && v.pos[i] <= p
  {
    i :| i < |v.chain| <= |v.pos| && StartsByAt(v, c, p, i);
  }

  /** Where the consumer's current chunk is in the chain. */
  lemma ReadingAt(s: State) returns (i: nat)
    requires Sound(s) && s.cons.CReading? && s.cons.c != NULL
    ensures |s.v.pos| == |s.v.chain| + 1 && i < |s.v.chain| && s.cons.c == s.v.chain[i] && s.v.pos[i] <= s.hd + s.cons.o + s.cons.r
    ensures s.cons.r > 0 || s.cons.peek ==> s.hd + s.cons.o + s.cons.r <= s.v.pos[i + 1]
    ensures s.cons.o + s.cons.r < TWO_32 && Add(s.head, s.cons.o + s.cons.r) == Wrap(s.hd + s.cons.o + s.cons.r)
    ensures Here(s, s.cons.c, s.head, s.cons.o + s.cons.r) <==> s.hd + s.cons.o + s.cons.r < s.v.pos[i + 1]
  {
    hide *;
    Numbers(s);
    ReadPhase(s);
    if s.cons.r > 0 || s.cons.peek {
      i := AroundIndex(s.v, s.cons.c, s.hd + s.cons.o + s.cons.r);
    } else {
      i := StartsByIndex(s.v, s.cons.c, s.hd + s.cons.o);
    }
    HereIs(s, i, s.head, s.hd, s.cons.o + s.cons.r);
  }

  /** Published bytes are in the log. */
  lemma Readable(s: State, p: int, n: nat)
    requires Sound(s) && 0 <= p && p + n <= s.v.tl
    ensures Recorded(s.v.log, p, n)
  {
    hide Base, Pool, ProdOk, ConsOk, Bytes;
  }

  lemma OneByte(log: Log, p: int, data: seq<u8>, o: nat)
    requires o + 1 <= |data| && data[o..o + 1] == Bytes(log, p, 1)
    ensures Bytes(log, p, 1) == [data[o]]
  {
  }

  lemma CReadIs(s: State)
    requires EnabledCons(s, CRead)
    ensures s.cons.CReading? && s.cons.r < s.cons.n && s.cons.c in s.mem && Here(s, s.cons.c, s.head, s.cons.o + s.cons.r) && s.cons.o + s.cons.r < TWO_32
    ensures var c := s.cons;
            var at := Sub(Add(s.head, c.o + c.r), s.mem[c.c].start);
            && at < |s.mem[c.c].data|
            && ApplyCons(s, CRead) == WithCons(s, c.(r := c.r + 1, dst := c.dst + [s.mem[c.c].data[at]]), s.deq, s.v.deqTo)
  {
    hide Sub, Add;
  }

  /** The byte that the consumer reads next is the one published at its position. */
  lemma ReadByte(s: State) returns (i: nat)
    requires Sound(s) && EnabledCons(s, CRead)
    ensures |s.v.pos| == |s.v.chain| + 1 && i < |s.v.chain| && s.cons.c == s.v.chain[i] && s.cons.c != NULL
    ensures s.v.pos[i] <= s.hd + s.cons.o + s.cons.r < s.v.pos[i + 1]
    ensures var c := s.cons;
            ApplyCons(s, CRead) == WithCons(s, c.(r := c.r + 1, dst := Bytes(s.v.log, s.hd + c.o, c.r + 1)), s.deq, s.v.deqTo)
  {
    hide *;
    CReadIs(s);
    Numbers(s);
    ReadPhase(s);
    i := ReadingAt(s);
    var p := s.hd + s.cons.o + s.cons.r;
    NextInChain(s, i);
    SubWraps(s.v.pos[i], p);
    Readable(s, p, 1);
    LoadHolds(s.mem, s.v.chain, s.v.pos, s.v.log, i, p - s.v.pos[i], 1);
    OneByte(s.v.log, p, s.mem[s.cons.c].data, p - s.v.pos[i]);
    BytesAppend(s.v.log, s.hd + s.cons.o, s.cons.r, 1);
  }

  lemma CReadKeeps(s: State)
    requires Sound(s) && EnabledCons(s, CRead)
    ensures Sound(ApplyCons(s, CRead))
  {
    hide *;
    CReadIs(s);
    ReadPhase(s);
    var i := ReadByte(s);
    AroundIs(s.v, s.cons.c, s.hd + s.cons.o + s.cons.r + 1, i);
    var c := s.cons;
    ReadOk(s, c.(r := c.r + 1, dst := Bytes(s.v.log, s.hd + c.o, c.r + 1)));
  }

  /** A step of a read. */
  lemma ReadOk(s: State, c: Cons)
    requires Sound(s) && s.cons.CReading? && c.CReading? && c.o == s.cons.o && c.n == s.cons.n && c.peek == s.cons.peek
    requires c.r <= c.n && c.dst == Bytes(s.v.log, s.hd + c.o, c.r)
    requires (c.c == NULL ==> c.r == c.n && c.r > 0) && (c.c != NULL && c.r > 0 ==> Around(s.v, c.c, s.hd + c.o + c.r))
    requires (c.r == 0 ==> StartsBy(s.v, c.c, s.hd + c.o)) && (c.peek && c.r == 0 ==> Around(s.v, c.c, s.hd + c.o))
    ensures Sound(WithCons(s, c, s.deq, s.v.deqTo))
  {
    hide Base, Books, Pool, ProdOk, DeqInv, Bytes, Around, StartsBy;
    assert WithCons(s, c, s.deq, s.v.deqTo) == s.(cons := c);
    ConsStep(s, c, s.deq, s.v.deqTo);
  }

  lemma CMoveIs(s: State)
    requires EnabledCons(s, CMove)
    ensures s.cons.CReading? && s.cons.c in s.mem && !Here(s, s.cons.c, s.head, s.cons.o + s.cons.r)
    ensures ApplyCons(s, CMove) ==
            WithCons(s, CReading(s.cons.o, s.cons.n, s.cons.r, s.mem[s.cons.c].next, s.cons.dst, s.cons.peek), s.deq, s.v.deqTo)
  {
  }

  lemma CMoveKeeps(s: State)
    requires Sound(s) && EnabledCons(s, CMove)
    ensures Sound(ApplyCons(s, CMove))
  {
    hide *;
    CMoveIs(s);
    Numbers(s);
    ReadPhase(s);
    EndIs(s.v);
    var c := s.cons;
    var i := ReadingAt(s);
    NextInChain(s, i);
    NthIs(s.v.chain, i + 1);
    if i + 1 < |s.v.chain| {
      NextInChain(s, i + 1);
      StartsByIs(s.v, s.v.chain[i + 1], s.hd + c.o + c.r, i + 1);
      if c.r > 0 || c.peek {
        AroundIs(s.v, s.v.chain[i + 1], s.hd + c.o + c.r, i + 1);
      }
    }
    ReadOk(s, CReading(c.o, c.n, c.r, s.mem[c.c].next, c.dst, c.peek));
  }

  lemma CPeekedIs(s: State)
    requires EnabledCons(s, CPeeked)
    ensures s.cons.CReading? && s.cons.peek && s.cons.r == s.cons.n
    ensures ApplyCons(s, CPeeked) == WithCons(s, CIdle, s.deq.(cached := s.cons.c), s.v.deqTo)
  {
  }

  lemma CPeekedKeeps(s: State)
    requires Sound(s) && EnabledCons(s, CPeeked)
    ensures Sound(ApplyCons(s, CPeeked))
  {
    hide *;
    CPeekedIs(s);
    ReadPhase(s);
    if s.cons.c != NULL {
      var i := ReadingAt(s);
      assert s.cons.c in s.v.chain;
    }
    PeekedOk(s, s.cons.c);
    ConsStep(s, CIdle, s.deq.(cached := s.cons.c), s.v.deqTo);
  }

  lemma PeekedOk(s: State, c: Sptr)
    requires s.v.hd == s.hd && DeqInv(s.mem, s.v, s.deq) && (c == NULL || c in s.v.chain)
    ensures ConsOk(WithCons(s, CIdle, s.deq.(cached := c), s.v.deqTo))
  {
    hide Index;
    assert WithCons(s, CIdle, s.deq.(cached := c), s.v.deqTo).v == s.v;
  }

  lemma HeadLeaves(s: State, n: nat)
    requires Sound(s) && s.v.hd == s.hd && s.hd + n <= s.v.tl
    ensures n < TWO_32 && s.shr.startChunk in s.mem && (Leaves(s, n) <==> s.v.pos[1] <= s.hd + n) && Add(s.head, n) == Wrap(s.hd + n)
  {
    hide Sound, Chain, ChunkEnd, PosGeq, Add, Sub, Wrap, Reach, Holds;
    Numbers(s);
    AddWraps(s.hd, n);
    Compare(s.hd + n, s.v.pos[1]);
  }

  lemma MovedIs(s: State, n: nat, dst: seq<u8>, headC: Sptr)
    requires n < TWO_32
    ensures Moved(s, n, dst, headC) == s.(shr := s.shr.(head := Add(s.head, n), headChunk := headC), v := s.v.(hd := s.hd + n), cons := CStoring(n, dst))
  {
  }

  lemma MovedBase(s: State, n: nat, s': State)
    requires Base(s) && |s.v.pos| == |s.v.chain| + 1 && s.v.chain != [] && s.v.hd == s.hd && s.hd + n <= s.v.tl && s.hd + n < s.v.pos[1] && s.v.pos[0] <= s.hd
    requires s'.shr.headChunk == NULL || s'.shr.headChunk == ChunkFor(s.v.chain, s.v.pos, s.hd + n)
    requires s' == s.(shr := s.shr.(head := Wrap(s.hd + n), headChunk := s'.shr.headChunk), v := s.v.(hd := s.hd + n), cons := s'.cons)
    ensures Base(s')
  {
    hide Stream, EnqSide, WellSized, Wrap, ChunkFor, Beyond;
    AdvancedStream(s.mem, s.v.chain, s.v.pos, s.v.log, s.v.hd, s.v.tl, s.size, s.segs, s.hd + n);
  }

  /** What the producer knows does not depend on the consumer's own head. */
  lemma MovedProd(s: State, s': State)
    requires |s.v.pos| == |s.v.chain| + 1 && ProdOk(s)
    requires s' == s.(shr := s.shr.(head := s'.shr.head, headChunk := s'.shr.headChunk), v := s.v.(hd := s'.v.hd), cons := s'.cons)
    ensures ProdOk(s')
  {
    hide Linkable, Holds, Around, Overlay, Canonical, Added, Reach, RoomFor;
    AroundFrame(s.v, s'.v);
  }

  lemma StoringOk(s: State, s': State, n: nat, dst: seq<u8>)
    requires DeqInv(s.mem, s.v, s.deq) && dst == Bytes(s.v.log, s.hd, n) && s.hd + n <= s.v.tl
    requires s' == s.(shr := s'.shr, v := s.v.(hd := s.hd + n), cons := CStoring(n, dst))
    ensures ConsOk(s')
  {
    hide DeqSide, Bytes;
  }

  /** The head moves on inside the start chunk. */
  lemma MovedKeeps(s: State, n: nat, dst: seq<u8>, headC: Sptr)
    requires Sound(s) && s.v.hd == s.hd && DeqInv(s.mem, s.v, s.deq) && s.hd + n <= s.v.tl && n < TWO_32 && dst == Bytes(s.v.log, s.hd, n)
    requires |s.v.pos| == |s.v.chain| + 1 && s.v.chain != [] && s.hd + n < s.v.pos[1] && s.v.pos[0] <= s.hd
    requires headC == NULL || headC == ChunkFor(s.v.chain, s.v.pos, s.hd + n)
    ensures Sound(Moved(s, n, dst, headC))
  {
    hide *;
    Parts(s);
    Numbers(s);
    HeadLeaves(s, n);
    MovedIs(s, n, dst, headC);
    var s' := Moved(s, n, dst, headC);
    MovedBase(s, n, s');
    MovedProd(s, s');
    StoringOk(s, s', n, dst);
    BooksSame(s, s');
    PoolKept(s, s');
    SoundIs(s');
  }

  /** The walk starts. */
  lemma WalkStarts(s: State, n: nat, dst: seq<u8>, ooo: bool, headC: Sptr)
    requires Sound(s) && s.v.hd == s.hd && DeqInv(s.mem, s.v, s.deq) && n > 0 && s.hd + n <= s.v.tl && dst == Bytes(s.v.log, s.hd, n)
    requires |s.v.pos| == |s.v.chain| + 1 && s.v.chain != [] && s.v.pos[1] <= s.hd + n && s.v.pos[0] <= s.hd && (!ooo ==> s.deq.tree == Nil)
    requires headC == NULL || headC == ChunkFor(s.v.chain, s.v.pos, s.hd + n)
    ensures Sound(WithCons(s, CWalking(n, NULL, s.shr.startChunk, dst, 0, 0, ooo, headC), s.deq, s.v.deqTo))
  {
    hide *;
    Numbers(s);
    WalkStartOk(s, n, dst, ooo, headC);
    ConsStep(s, CWalking(n, NULL, s.shr.startChunk, dst, 0, 0, ooo, headC), s.deq, s.v.deqTo);
  }

  lemma WalkStartOk(s: State, n: nat, dst: seq<u8>, ooo: bool, headC: Sptr)
    requires s.v.hd == s.hd && DeqInv(s.mem, s.v, s.deq) && n > 0 && s.hd + n <= s.v.tl && dst == Bytes(s.v.log, s.hd, n)
    requires |s.v.pos| == |s.v.chain| + 1 && s.v.chain != [] && s.v.pos[1] <= s.hd + n && s.v.pos[0] <= s.hd && (!ooo ==> s.deq.tree == Nil)
    requires (headC == NULL || headC == ChunkFor(s.v.chain, s.v.pos, s.hd + n)) && s.shr.startChunk == s.v.chain[0]
    ensures ConsOk(WithCons(s, CWalking(n, NULL, s.shr.startChunk, dst, 0, 0, ooo, headC), s.deq, s.v.deqTo))
  {
    hide Index, Bytes, ChunkFor;
  }

  lemma CDropIs(s: State, len: nat)
    requires EnabledCons(s, CDrop(len))
    ensures s.cons.CIdle? && s.shr.startChunk in s.mem
    ensures var n := Least(len, Sub(s.shr.tail, s.head));
            && n <= len && n <= Sub(s.shr.tail, s.head) < TWO_32
            && (n <= 0 ==> ApplyCons(s, CDrop(len)) == s)
            && (n > 0 && Leaves(s, n) ==> ApplyCons(s, CDrop(len)) == WithCons(s, CWalking(n, NULL, s.shr.startChunk, Bytes(s.v.log, s.hd, n), 0, 0, true, NULL), s.deq, s.v.deqTo))
            && (n > 0 && !Leaves(s, n) ==> ApplyCons(s, CDrop(len)) == Moved(s, n, Bytes(s.v.log, s.hd, n), s.shr.headChunk))
  {
    hide Bytes, Leaves, Moved;
  }

  /** The chunk cached for the head stays the one for any position in the start chunk. */
  lemma HeadStays(s: State, e: int)
    requires Sound(s) && s.v.hd <= e < s.v.pos[1]
    ensures |s.v.pos| == |s.v.chain| + 1 && s.v.chain != [] && s.v.pos[0] <= e
    ensures s.shr.headChunk == NULL || s.shr.headChunk == ChunkFor(s.v.chain, s.v.pos, e)
  {
    hide *;
    Numbers(s);
    Parts(s);
    HeadIs(s);
    ChunkForIs(s.mem, s.v.chain, s.v.pos, 0, e);
    ChunkForIs(s.mem, s.v.chain, s.v.pos, 0, s.v.hd);
  }

  lemma CDropKeeps(s: State, len: nat)
    requires Sound(s) && EnabledCons(s, CDrop(len))
    ensures Sound(ApplyCons(s, CDrop(len)))
  {
    hide *;
    CDropIs(s, len);
    Numbers(s);
    IdlePhase(s);
    var n := Least(len, Sub(s.shr.tail, s.head));
    if n > 0 {
      HeadLeaves(s, n);
      if Leaves(s, n) {
        WalkStarts(s, n, Bytes(s.v.log, s.hd, n), true, NULL);
      } else {
        HeadStays(s, s.hd + n);
        MovedKeeps(s, n, Bytes(s.v.log, s.hd, n), s.shr.headChunk);
      }
    }
  }

  lemma CDoneIs(s: State)
    requires EnabledCons(s, CDone)
    ensures s.cons.CReading? && !s.cons.peek && s.cons.r == s.cons.n < TWO_32 && s.shr.startChunk in s.mem
    ensures s.cons.c == NULL || Here(s, s.cons.c, s.head, s.cons.o + s.cons.n)
    ensures var c := s.cons;
            && (Leaves(s, c.n) ==> ApplyCons(s, CDone) == WithCons(s, CWalking(c.n, NULL, s.shr.startChunk, c.dst, 0, 0, false, c.c), s.deq, s.v.deqTo))
            && (!Leaves(s, c.n) ==> ApplyCons(s, CDone) == Moved(s, c.n, c.dst, c.c))
  {
    hide Leaves, Moved, Here;
  }

  lemma CDoneKeeps(s: State)
    requires Sound(s) && EnabledCons(s, CDone)
    ensures Sound(ApplyCons(s, CDone))
  {
    hide *;
    CDoneIs(s);
    Numbers(s);
    ReadPhase(s);
    var c := s.cons;
    if c.c != NULL {
      var i := ReadingAt(s);
      NthIs(s.v.chain, i);
      ChunkForIs(s.mem, s.v.chain, s.v.pos, i, s.hd + c.n);
    }
    HeadLeaves(s, c.n);
    if Leaves(s, c.n) {
      WalkStarts(s, c.n, c.dst, false, c.c);
    } else {
      MovedKeeps(s, c.n, c.dst, c.c);
    }
  }

  lemma CStoreIs(s: State)
    requires EnabledCons(s, CStore)
    ensures s.cons.CStoring? && ApplyCons(s, CStore) == s.(head := s.shr.head, hd := s.v.hd, taken := s.taken + s.cons.dst, cons := CIdle)
  {
  }

  lemma StorePhase(s: State)
    requires Sound(s) && s.cons.CStoring?
    ensures s.v.hd == s.hd + s.cons.n && s.v.hd <= s.v.tl && s.cons.dst == Bytes(s.v.log, s.hd, s.cons.n) && DeqInv(s.mem, s.v, s.deq)
  {
    hide Base, Books, Pool, ProdOk, Bytes, DeqInv;
  }

  lemma StoredParts(s: State, s': State)
    requires |s.v.pos| == |s.v.chain| + 1 && Base(s) && Books(s) && Pool(s) && ProdOk(s)
    requires s.cons.CStoring? && s.v.hd == s.hd + s.cons.n && s.v.hd <= s.v.tl && s.shr.head == Wrap(s.v.hd) && DeqInv(s.mem, s.v, s.deq)
    requires s.cons.dst == Bytes(s.v.log, s.hd, s.cons.n)
    requires s' == s.(head := s.shr.head, hd := s.v.hd, taken := s.taken + s.cons.dst, cons := CIdle)
    ensures Sound(s')
  {
    hide Stream, Pointers, EnqSide, DeqSide, Bytes, WellSized, Wrap, Linkable, Holds, Around, Overlay, Canonical, Added, Reach;
    BytesAppend(s.v.log, 0, s.hd, s.cons.n);
  }

  lemma CStoreKeeps(s: State)
    requires Sound(s) && EnabledCons(s, CStore)
    ensures Sound(ApplyCons(s, CStore))
  {
    hide *;
    Numbers(s);
    Parts(s);
    CStoreIs(s);
    StorePhase(s);
    StoredParts(s, ApplyCons(s, CStore));
  }

  /** What is known on the walk. */
  lemma WalkPhase(s: State)
    requires Sound(s) && (s.cons.CWalking? || s.cons.CCutting?)
    ensures var c, v := s.cons, s.v;
            && v.hd == s.hd && s.hd + c.n <= v.tl && c.n > 0 && c.dst == Bytes(v.log, s.hd, c.n)
            && c.k < |v.chain| && |v.pos| == |v.chain| + 1 && c.c == v.chain[c.k] && c.prev == (if c.k == 0 then NULL else v.chain[c.k - 1])
            && v.pos[0] <= s.hd && (c.headC == NULL || c.headC == ChunkFor(v.chain, v.pos, s.hd + c.n))
            && Index(s.mem, s.deq.tree, v.chain, v.pos, false, c.a, v.deqTo) && (c.a < v.deqTo ==> s.deq.init && c.a == c.k)
            && (s.deq.cached == NULL || s.deq.cached in v.chain) && (!c.ooo ==> s.deq.tree == Nil)
            && (c.CWalking? ==> v.pos[c.k + 1] <= s.hd + c.n) && (c.CCutting? ==> v.pos[c.k] <= s.hd + c.n <= v.pos[c.k + 1])
  {
    hide Base, Books, Pool, ProdOk, Bytes, Index, ChunkFor;
  }

  /** What the walk knows after a step. */
  lemma WalkOk(s: State, c: Cons, deq: Lookup)
    requires (c.CWalking? || c.CCutting?) && s.v.hd == s.hd && s.hd + c.n <= s.v.tl && c.n > 0 && c.dst == Bytes(s.v.log, s.hd, c.n)
    requires c.k < |s.v.chain| && |s.v.pos| == |s.v.chain| + 1 && c.c == s.v.chain[c.k] && c.prev == (if c.k == 0 then NULL else s.v.chain[c.k - 1])
    requires s.v.pos[0] <= s.hd && (c.headC == NULL || c.headC == ChunkFor(s.v.chain, s.v.pos, s.hd + c.n))
    requires Index(s.mem, deq.tree, s.v.chain, s.v.pos, false, c.a, s.v.deqTo) && (c.a < s.v.deqTo ==> deq.init && c.a == c.k)
    requires (deq.cached == NULL || deq.cached in s.v.chain) && (!c.ooo ==> deq.tree == Nil)
    requires (c.CWalking? ==> s.v.pos[c.k + 1] <= s.hd + c.n) && (c.CCutting? ==> s.v.pos[c.k] <= s.hd + c.n <= s.v.pos[c.k + 1])
    ensures ConsOk(WithCons(s, c, deq, s.v.deqTo))
  {
    hide Bytes, Index, ChunkFor;
  }

  /** Whether the chunk that the walk has come to leaves the tree. */
  ghost predicate LeavesTree(s: State)
    requires s.cons.CWalking? && s.cons.c in s.mem
  {
    s.cons.ooo && s.mem[s.cons.c].deq
  }

  ghost function WalkMem(s: State): Memory
    requires s.cons.CWalking? && s.cons.c in s.mem
  {
    if LeavesTree(s) then s.mem[s.cons.c := s.mem[s.cons.c].(deq := false)] else s.mem
  }

  ghost function WalkDeq(s: State): Lookup
    requires s.cons.CWalking? && s.cons.c in s.mem
  {
    if LeavesTree(s) then s.deq.(tree := Delete(s.deq.tree, s.mem[s.cons.c].start)) else s.deq
  }

  ghost function WalkFrom(s: State): nat
    requires s.cons.CWalking? && s.cons.c in s.mem
  {
    if LeavesTree(s) then s.cons.a + 1 else s.cons.a
  }

  lemma WalkedIs(s: State)
    requires EnabledCons(s, CWalk)
    ensures s.cons.CWalking? && s.cons.c in s.mem
    ensures var c, a, next := s.cons, WalkFrom(s), s.mem[s.cons.c].next;
            ApplyCons(s, CWalk) ==
            WithCons(s.(mem := WalkMem(s)),
                     if next == NULL then CCutting(c.n, c.prev, c.c, c.dst, c.k, a, c.ooo, c.headC)
                     else if Here(s, next, s.head, c.n) then CCutting(c.n, c.c, next, c.dst, c.k + 1, a, c.ooo, c.headC)
                     else CWalking(c.n, c.c, next, c.dst, c.k + 1, a, c.ooo, c.headC),
                     WalkDeq(s), s.v.deqTo)
  {
    hide Here, Delete;
  }

  /** The chunk that the walk has come to leaves the tree if it is in it. */
  lemma WalkTree(s: State)
    requires Sound(s) && s.cons.CWalking? && s.cons.c in s.mem
    ensures OnlyFlags(s.mem, WalkMem(s), s.v.chain, false)
    ensures Index(WalkMem(s), WalkDeq(s).tree, s.v.chain, s.v.pos, false, WalkFrom(s), s.v.deqTo)
    ensures WalkFrom(s) < s.v.deqTo ==> WalkFrom(s) == s.cons.k + 1 && s.deq.init
    ensures WalkDeq(s) == s.deq.(tree := WalkDeq(s).tree) && (s.deq.tree == Nil ==> WalkDeq(s).tree == Nil)
  {
    hide Sound, Index, OnlyFlags, Chain, Holds, Bytes, ChunkFor, Sub, Wrap, ChunkEnd, Reach, WellSized, Add;
    Numbers(s);
    WalkPhase(s);
    var c, v := s.cons, s.v;
    OnlyFlagsRefl(s.mem, v.chain, false);
    FlagAt(s.mem, s.deq.tree, v.chain, v.pos, false, c.a, v.deqTo, c.k);
    IndexBounds(s.mem, s.deq.tree, v.chain, v.pos, false, c.a, v.deqTo);
    if LeavesTree(s) {
      Left(s.mem, s.mem, s.deq.tree, v.chain, v.pos, false, c.a, v.deqTo);
    }
  }

  lemma CWalkKeeps(s: State)
    requires Sound(s) && EnabledCons(s, CWalk)
    ensures Sound(ApplyCons(s, CWalk))
  {
    hide *;
    WalkedIs(s);
    Numbers(s);
    WalkPhase(s);
    WalkTree(s);
    EndIs(s.v);
    var c := s.cons;
    NextInChain(s, c.k);
    NthIs(s.v.chain, c.k + 1);
    IndexBounds(WalkMem(s), WalkDeq(s).tree, s.v.chain, s.v.pos, false, WalkFrom(s), s.v.deqTo);
    var a, next := WalkFrom(s), s.mem[c.c].next;
    if next == NULL {
      NextIsNull(s.mem, s.v.chain, s.v.pos, c.k);
      WalkStep(s, CCutting(c.n, c.prev, c.c, c.dst, c.k, a, c.ooo, c.headC));
    } else {
      NextInChain(s, c.k + 1);
      HereIs(s, c.k + 1, s.head, s.hd, c.n);
      if Here(s, next, s.head, c.n) {
        WalkStep(s, CCutting(c.n, c.c, next, c.dst, c.k + 1, a, c.ooo, c.headC));
      } else {
        WalkStep(s, CWalking(c.n, c.c, next, c.dst, c.k + 1, a, c.ooo, c.headC));
      }
    }
  }

  lemma WalkStep(s: State, c: Cons)
    requires Sound(s) && s.cons.CWalking? && s.cons.c in s.mem && (c.CWalking? || c.CCutting?) && |s.v.pos| == |s.v.chain| + 1
    requires c.n == s.cons.n && c.dst == s.cons.dst && c.headC == s.cons.headC && c.ooo == s.cons.ooo && c.a == WalkFrom(s)
    requires c.k < |s.v.chain| && c.c == s.v.chain[c.k] && c.prev == (if c.k == 0 then NULL else s.v.chain[c.k - 1])
    requires c.a < s.v.deqTo ==> c.a == c.k
    requires (c.CWalking? ==> s.v.pos[c.k + 1] <= s.hd + c.n) && (c.CCutting? ==> s.v.pos[c.k] <= s.hd + c.n <= s.v.pos[c.k + 1])
    ensures Sound(WithCons(s.(mem := WalkMem(s)), c, WalkDeq(s), s.v.deqTo))
  {
    hide *;
    WalkPhase(s);
    WalkTree(s);
    var s1 := s.(mem := WalkMem(s));
    FlagsKeep(s, WalkMem(s));
    WalkOk(s1, c, WalkDeq(s));
    OtherParts(s1, c, WalkDeq(s), s.v.deqTo);
    WithConsIs(s1, c, WalkDeq(s), s.v.deqTo);
    SoundIs(WithCons(s1, c, WalkDeq(s), s.v.deqTo));
  }

  ghost function CutHead(s: State): Sptr
    requires s.cons.CCutting? && s.cons.c in s.mem && s.cons.n < TWO_32
  {
    if s.cons.ooo then if IncludesPos(s.mem[s.cons.c], Add(s.head, s.cons.n)) then s.cons.c else NULL else s.cons.headC
  }

  ghost function CutCached(s: State): Sptr
    requires s.cons.CCutting? && s.cons.c in s.mem
  {
    if s.cons.ooo && s.deq.cached != NULL && s.deq.cached in s.mem && !PosLt(s.mem[s.deq.cached].start, ChunkEnd(s.mem[s.cons.c])) then s.deq.cached else NULL
  }

  ghost function CutRun(s: State): nat
    requires s.cons.CCutting?
  {
    if s.cons.a < s.v.deqTo && s.cons.k <= s.v.deqTo then s.v.deqTo - s.cons.k else 0
  }

  lemma CutShape(s: State)
    requires EnabledCons(s, CCut)
    ensures var c := s.cons;
            && c.CCutting? && c.c in s.mem && c.n < TWO_32 && (c.prev == NULL || c.prev in s.mem) && c.k < |s.v.chain| && c.k <= |s.v.pos|
            && ApplyCons(s, CCut) ==
               s.(mem := if c.prev == NULL then s.mem else s.mem[c.prev := s.mem[c.prev].(next := NULL)],
                  shr := s.shr.(startChunk := c.c, headChunk := CutHead(s), head := Add(s.head, c.n)),
                  deq := s.deq.(cached := CutCached(s)), free := CutFree(s),
                  v := Dropped(s.v, c.k, s.hd + c.n, CutRun(s)), cons := CStoring(c.n, c.dst))
  {
    hide Add, IncludesPos, PosLt, ChunkEnd, Dropped;
  }

  ghost function CutFree(s: State): set<Sptr>
    requires s.cons.CCutting? && s.cons.k <= |s.v.chain|
  {
    s.free + set x | x in s.v.chain[..s.cons.k]
  }

  lemma CutIs(s: State)
    requires Sound(s) && EnabledCons(s, CCut)
    ensures s.cons.CCutting? && s.cons.c in s.mem && s.cons.n < TWO_32 && s.cons.k < |s.v.chain| < |s.v.pos|
    ensures s.cons.k > 0 ==> s.v.chain[s.cons.k - 1] in s.mem
    ensures var k := s.cons.k;
            ApplyCons(s, CCut) ==
            s.(mem := CutOff(s.mem, s.v.chain, k), shr := s.shr.(startChunk := s.v.chain[k], headChunk := CutHead(s), head := Add(s.head, s.cons.n)),
               deq := s.deq.(cached := CutCached(s)), free := CutFree(s),
               v := Dropped(s.v, k, s.hd + s.cons.n, CutRun(s)), cons := CStoring(s.cons.n, s.cons.dst))
  {
    hide *;
    CutShape(s);
    WalkPhase(s);
    Numbers(s);
    if s.cons.k > 0 {
      NextInChain(s, s.cons.k - 1);
    }
    CutOffIs(s.mem, s.v, s.cons.k);
  }

  lemma CutHeadCases(s: State)
    requires s.cons.CCutting? && s.cons.c in s.mem && s.cons.n < TWO_32
    ensures s.cons.ooo && CutHead(s) != NULL ==> CutHead(s) == s.cons.c && Here(s, s.cons.c, s.head, s.cons.n)
    ensures !s.cons.ooo ==> CutHead(s) == s.cons.headC
  {
    hide IncludesPos, Add;
  }

  /** The chunk that the new head is cached with. */
  lemma CutHeadIs(s: State)
    requires Sound(s) && EnabledCons(s, CCut)
    ensures s.cons.CCutting? && s.cons.c in s.mem && s.cons.n < TWO_32 && s.v.chain != [] && |s.v.pos| == |s.v.chain| + 1 && s.v.pos[0] <= s.hd + s.cons.n
    ensures CutHead(s) == NULL || CutHead(s) == ChunkFor(s.v.chain, s.v.pos, s.hd + s.cons.n)
    ensures Add(s.head, s.cons.n) == Wrap(s.hd + s.cons.n)
  {
    hide *;
    CutShape(s);
    WalkPhase(s);
    Numbers(s);
    HereIs(s, s.cons.k, s.head, s.hd, s.cons.n);
    CutHeadCases(s);
    NthIs(s.v.chain, s.cons.k);
    if s.cons.ooo && CutHead(s) != NULL {
      ChunkForIs(s.mem, s.v.chain, s.v.pos, s.cons.k, s.hd + s.cons.n);
    }
  }

  lemma CutStream(s: State, k: nat, e: int)
    requires StreamOk(s) && Chain(s.mem, s.v.chain, s.v.pos) && |s.v.pos| == |s.v.chain| + 1 && Holds(s.mem, s.v.chain, s.v.pos, s.v.log) && k < |s.v.chain|
    requires s.v.hd <= e <= s.v.tl && s.v.pos[k] <= e <= s.v.pos[k + 1] && (k > 0 ==> s.v.chain[k - 1] in s.mem)
    ensures Stream(CutOff(s.mem, s.v.chain, k), s.v.chain[k..], s.v.pos[k..], s.v.log, e, s.v.tl, s.size, s.segs)
  {
    hide Stream, Chain, Holds, CutOff;
    var v := s.v;
    CutOffChain(s.mem, v, k);
    CutOffHolds(s.mem, v, k);
    if k > 0 {
      UnlinkedStream(s.mem, CutOff(s.mem, v.chain, k), v.chain, v.pos, v.log, v.hd, v.tl, s.size, s.segs, k, e);
    } else {
      CutOffIs(s.mem, v, 0);
      assert v.chain[0..] == v.chain && v.pos[0..] == v.pos;
      AdvancedStream(s.mem, v.chain, v.pos, v.log, v.hd, v.tl, s.size, s.segs, e);
    }
  }

  lemma CutEnq(s: State, k: nat, e: int, d: nat)
    requires EnqOk(s) && Chain(s.mem, s.v.chain, s.v.pos) && |s.v.pos| == |s.v.chain| + 1 && k < |s.v.chain| && s.v.pos[k] <= s.v.tl
    requires k > 0 ==> s.v.chain[k - 1] in s.mem
    ensures var w := Dropped(s.v, k, e, d);
            EnqSide(CutOff(s.mem, s.v.chain, k), s.enq.tree, s.enq.init, w.chain, w.pos, w.enqFrom, w.enqTo, w.tl, s.list, s.enq.cached)
  {
    hide *;
    var v := s.v;
    EnqIs(s);
    CutFlags(s.mem, v, k);
    UnlinkedEnq(s.mem, CutOff(s.mem, v.chain, k), s.enq.tree, s.enq.init, v.chain, v.pos, v.enqFrom, v.enqTo, v.tl, s.list, s.enq.cached, k);
    DroppedIs(v, k, e, d);
    DroppedRun(v, k, e, d);
  }

  lemma EnqIs(s: State)
    requires EnqOk(s)
    ensures EnqSide(s.mem, s.enq.tree, s.enq.init, s.v.chain, s.v.pos, s.v.enqFrom, s.v.enqTo, s.v.tl, s.list, s.enq.cached) && s.v.enqFrom <= s.v.enqTo
  {
    hide TreeIs, Flags;
  }

  lemma CutFlags(mem: Memory, v: View, k: nat)
    requires Chain(mem, v.chain, v.pos) && k < |v.chain|
    ensures k > 0 ==> v.chain[k - 1] in mem
    ensures forall x :: x in mem ==> x in CutOff(mem, v.chain, k) && CutOff(mem, v.chain, k)[x].enq == mem[x].enq
  {
    hide Chain, CutOff, ListOk, OwnWrite;
    CutOffChain(mem, v, k);
    var m := CutOff(mem, v.chain, k);
    assert forall x :: x in m <==> x in mem;
  }

  lemma DroppedRun(v: View, k: nat, e: int, d: nat)
    requires k <= |v.chain| && k <= |v.pos| && (v.enqFrom < v.enqTo ==> k <= v.enqFrom)
    ensures var w := Dropped(v, k, e, d);
            && w.enqFrom == (if v.enqFrom < v.enqTo then v.enqFrom - k else 0) && w.enqTo == (if v.enqFrom < v.enqTo then v.enqTo - k else 0)
  {
  }

  /** What holds of the state after a cut. */
  lemma CutBase(s: State)
    requires Sound(s) && EnabledCons(s, CCut)
    ensures Base(ApplyCons(s, CCut))
  {
    hide *;
    Numbers(s);
    Parts(s);
    CutIs(s);
    CutHeadIs(s);
    WalkPhase(s);
    var k, e := s.cons.k, s.hd + s.cons.n;
    CutStream(s, k, e);
    CutEnq(s, k, e, CutRun(s));
    DroppedIs(s.v, k, e, CutRun(s));
    CutSized(s.mem, s.v, k);
    PointersIs(s);
    UnlinkedPointers(s.mem, CutOff(s.mem, s.v.chain, k), s.v.chain, s.v.pos, s.v.hd, s.v.tl, s.shr.startChunk, s.shr.endChunk, s.shr.headChunk, s.shr.tailChunk, s.shr.head, s.shr.tail, k, e, CutHead(s));
    CutBaseIs(s, ApplyCons(s, CCut));
  }

  lemma PointersIs(s: State)
    requires PointersOk(s)
    ensures Pointers(s.v.chain, s.v.pos, s.v.hd, s.v.tl, s.shr.startChunk, s.shr.endChunk, s.shr.headChunk, s.shr.tailChunk, s.shr.head, s.shr.tail)
  {
  }

  lemma CutSized(mem: Memory, v: View, k: nat)
    requires Chain(mem, v.chain, v.pos) && WellSized(mem) && NULL !in mem && k < |v.chain|
    ensures k > 0 ==> v.chain[k - 1] in mem
    ensures var m := CutOff(mem, v.chain, k);
            && WellSized(m) && NULL !in m && m.Keys == mem.Keys && (forall x :: x in mem && x !in v.chain ==> m[x] == mem[x])
            && |v.pos| == |v.chain| + 1 && Chain(m, v.chain[k..], v.pos[k..]) && v.chain == v.chain[..k] + v.chain[k..]
  {
    hide Chain, CutOff, ListOk;
    ChainAscending(mem, v.chain, v.pos);
    CutOffChain(mem, v, k);
    var m := CutOff(mem, v.chain, k);
    assert forall x :: x in m <==> x in mem;
  }

  lemma CutBaseIs(s: State, s': State)
    requires Base(s) && s'.hd == s.hd && s'.head == s.head && s'.size == s.size && s'.segs == s.segs && s'.list == s.list && s'.enq == s.enq
    requires s'.v.tl == s.v.tl && s.hd <= s'.v.hd && WellSized(s'.mem) && NULL !in s'.mem
    requires Stream(s'.mem, s'.v.chain, s'.v.pos, s'.v.log, s'.v.hd, s'.v.tl, s.size, s.segs)
    requires EnqSide(s'.mem, s.enq.tree, s.enq.init, s'.v.chain, s'.v.pos, s'.v.enqFrom, s'.v.enqTo, s'.v.tl, s.list, s.enq.cached)
    requires Pointers(s'.v.chain, s'.v.pos, s'.v.hd, s'.v.tl, s'.shr.startChunk, s'.shr.endChunk, s'.shr.headChunk, s'.shr.tailChunk, s'.shr.head, s'.shr.tail)
    ensures Base(s')
  {
    hide Stream, EnqSide, Pointers, WellSized, Wrap, Beyond;
  }

  lemma CutCachedCases(s: State)
    requires s.cons.CCutting? && s.cons.c in s.mem
    ensures CutCached(s) != NULL ==> CutCached(s) == s.deq.cached && s.deq.cached in s.mem && !PosLt(s.mem[s.deq.cached].start, ChunkEnd(s.mem[s.cons.c]))
  {
    hide PosLt, ChunkEnd;
  }

  lemma CutCachedIs(s: State)
    requires Sound(s) && EnabledCons(s, CCut)
    ensures s.cons.CCutting? && s.cons.c in s.mem && s.cons.k <= |s.v.chain| && (CutCached(s) == NULL || CutCached(s) in s.v.chain[s.cons.k..])
  {
    hide *;
    CutShape(s);
    WalkPhase(s);
    Numbers(s);
    CutCachedCases(s);
    if CutCached(s) != NULL {
      CachedKept(s.mem, s.v, s.deq.cached, s.cons.k);
    }
  }

  lemma CutDeqInv(s: State)
    requires Sound(s) && EnabledCons(s, CCut)
    ensures s.cons.CCutting? && s.cons.c in s.mem && s.cons.k < |s.v.chain| < |s.v.pos| && (s.cons.k > 0 ==> s.v.chain[s.cons.k - 1] in s.mem)
    ensures DeqInv(CutOff(s.mem, s.v.chain, s.cons.k), Dropped(s.v, s.cons.k, s.hd + s.cons.n, CutRun(s)), s.deq.(cached := CutCached(s)))
  {
    hide *;
    CutShape(s);
    Numbers(s);
    WalkPhase(s);
    CutCachedIs(s);
    CutSized(s.mem, s.v, s.cons.k);
    var k, m, deq := s.cons.k, CutOff(s.mem, s.v.chain, s.cons.k), s.deq.(cached := CutCached(s));
    SameOnRefl(m, s.v.chain[k..], s.v.pos[k..]);
    DeqReadyIs(s.mem, s.v, deq, s.cons.a, k);
    DroppedDeq(s.mem, m, s.v, deq, s.cons.a, k, s.hd + s.cons.n);
    CutRunIs(s);
  }

  lemma CutDeq(s: State)
    requires Sound(s) && EnabledCons(s, CCut)
    ensures ConsOk(ApplyCons(s, CCut))
  {
    hide *;
    CutIs(s);
    WalkPhase(s);
    CutDeqInv(s);
    DroppedIs(s.v, s.cons.k, s.hd + s.cons.n, CutRun(s));
    CutConsIs(ApplyCons(s, CCut));
  }

  lemma CutRunIs(s: State)
    requires s.cons.CCutting?
    ensures CutRun(s) == if s.cons.a < s.v.deqTo && s.cons.k <= s.v.deqTo then s.v.deqTo - s.cons.k else 0
  {
  }

  lemma DeqReadyIs(mem: Memory, v: View, deq: Lookup, a: nat, k: nat)
    requires Index(mem, deq.tree, v.chain, v.pos, false, a, v.deqTo) && (a < v.deqTo ==> a == k && deq.init)
    requires k <= |v.chain| && (deq.cached == NULL || deq.cached in v.chain[k..])
    ensures DeqReady(mem, v, deq, a, k)
  {
    hide Index;
  }

  lemma CutConsIs(s: State)
    requires s.cons.CStoring? && s.v.hd == s.hd + s.cons.n && s.v.hd <= s.v.tl && s.cons.dst == Bytes(s.v.log, s.hd, s.cons.n) && DeqInv(s.mem, s.v, s.deq)
    ensures ConsOk(s)
  {
    hide DeqInv, Bytes;
  }

  /** What is known of a chunk at or beyond the k-th survives the loss of those before it. */
  lemma ShiftAround(mem: Memory, v: View, k: nat, e: int, d: nat, c: Sptr, p: int)
    requires Chain(mem, v.chain, v.pos) && k < |v.chain| && |v.pos| == |v.chain| + 1 && v.pos[k] < p && Around(v, c, p)
    ensures Around(Dropped(v, k, e, d), c, p)
  {
    hide Chain;
    var i := AroundIndex(v, c, p);
    NotBefore(mem, v.chain, v.pos, i, k, p - 1);
    AroundIs(Dropped(v, k, e, d), c, p, i - k);
  }

  /** The chunk that the producer writes to stays in the chain. */
  lemma CutWrites(s: State)
    requires Sound(s) && EnabledCons(s, CCut) && s.prod.PWriting? && s.prod.wc != NULL
    ensures Around(ApplyCons(s, CCut).v, s.prod.wc, s.v.tl + s.prod.o + s.prod.w)
  {
    hide *;
    CutIs(s);
    WalkPhase(s);
    Numbers(s);
    WritePhase(s);
    var k, e, s' := s.cons.k, s.hd + s.cons.n, ApplyCons(s, CCut);
    if s.prod.o == 0 && s.prod.w == 0 {
      TailChunkIs(s);
      CutBase(s);
      BaseFacts(s');
      DroppedIs(s.v, k, e, CutRun(s));
      ChunkForAround(s'.mem, s'.v, s.v.tl);
    } else {
      ShiftAround(s.mem, s.v, k, e, CutRun(s), s.prod.wc, s.v.tl + s.prod.o + s.prod.w);
    }
  }

  lemma CutEnd(v: View, k: nat, e: int, d: nat)
    requires |v.pos| == |v.chain| + 1 && k < |v.chain|
    ensures var w := Dropped(v, k, e, d); |w.pos| == |w.chain| + 1 && End(w) == End(v)
  {
  }

  /** The bytes that the producer has written are still there. */
  lemma CutHolds(mem: Memory, v: View, k: nat, log: Log)
    requires Chain(mem, v.chain, v.pos) && k < |v.chain| && |v.pos| == |v.chain| + 1 && Holds(mem, v.chain, v.pos, log)
    ensures k > 0 ==> v.chain[k - 1] in mem
    ensures Holds(CutOff(mem, v.chain, k), v.chain[k..], v.pos[k..], log)
  {
    hide Chain, Holds, CutOff;
    CutOffHolds(mem, v.(log := log), k);
  }

  lemma CutProd(s: State)
    requires Sound(s) && EnabledCons(s, CCut)
    ensures var s' := ApplyCons(s, CCut); |s'.v.pos| == |s'.v.chain| + 1 && ProdOk(s')
  {
    hide *;
    CutIs(s);
    Numbers(s);
    Parts(s);
    var k, e, s' := s.cons.k, s.hd + s.cons.n, ApplyCons(s, CCut);
    DroppedIs(s.v, k, e, CutRun(s));
    CutEnd(s.v, k, e, CutRun(s));
    CutSized(s.mem, s.v, k);
    if s.prod.PAlloced? {
      AllocPhase(s);
      PoolOf(s);
      LinkableSame(s.mem, s'.mem, s.prod.first, s.prod.got, s.prod.q, End(s.v));
    } else if s.prod.PWriting? {
      WritePhase(s);
      RoomIs(s.prod.src, s.prod.n, s.prod.o, s.hd + s.size - s.v.tl);
      CutHolds(s.mem, s.v, k, Overlay(s.v.log, s.v.tl + s.prod.o, s.prod.src[..s.prod.w]));
      if s.prod.wc != NULL {
        CutWrites(s);
      }
    }
    CutProdIs(s, s');
  }

  lemma PoolOf(s: State)
    requires Pool(s) && s.prod.PAlloced?
    ensures forall m: Memory :: m.Keys == s.mem.Keys && (forall x :: x in s.mem && x !in s.v.chain ==> m[x] == s.mem[x]) ==> SameOn(s.mem, m, s.prod.got)
  {
    forall m: Memory | m.Keys == s.mem.Keys && (forall x :: x in s.mem && x !in s.v.chain ==> m[x] == s.mem[x])
      ensures SameOn(s.mem, m, s.prod.got)
    {
      assert forall x :: x in m <==> x in s.mem;
    }
  }

  lemma CutProdIs(s: State, s': State)
    requires |s.v.pos| == |s.v.chain| + 1 && ProdOk(s) && |s'.v.pos| == |s'.v.chain| + 1 && End(s'.v) == End(s.v)
    requires s'.prod == s.prod && s'.hd == s.hd && s'.size == s.size && s'.list == s.list && s'.segs == s.segs && s'.v.tl == s.v.tl && s'.v.log == s.v.log
    requires s'.shr.tailChunk == s.shr.tailChunk
    requires s.prod.PAlloced? ==> Linkable(s'.mem, s.prod.first, s.prod.got, s.prod.q, End(s.v))
    requires s.prod.PWriting? ==> s.prod.w <= |s.prod.src| && Holds(s'.mem, s'.v.chain, s'.v.pos, Overlay(s.v.log, s.v.tl + s.prod.o, s.prod.src[..s.prod.w]))
    requires s.prod.PWriting? && s.prod.wc != NULL ==> Around(s'.v, s.prod.wc, s.v.tl + s.prod.o + s.prod.w)
    ensures ProdOk(s')
  {
    hide Linkable, Holds, Overlay, Around, Canonical, Added, End, Reach, RoomFor;
  }

  /** The front part of the chain joins the pool. */
  lemma PoolCut(s: State, s': State, front: seq<Sptr>, back: seq<Sptr>)
    requires Pool(s) && s.v.chain == front + back && s'.v.chain == back && (forall x :: x in front ==> x !in back)
    requires s'.free == s.free + (set x | x in front) && s'.mem.Keys == s.mem.Keys && s'.prod == s.prod
    ensures Pool(s')
  {
    forall x ensures x in s.v.chain <==> x in front || x in back {
    }
    assert forall x :: x in s'.mem <==> x in s.mem;
  }

  lemma CutApart(mem: Memory, chain: seq<Sptr>, pos: seq<int>, k: nat)
    requires Chain(mem, chain, pos) && k < |chain|
    ensures forall x :: x in chain[..k] ==> x !in chain[k..]
  {
    ChainAscending(mem, chain, pos);
    hide Chain;
    forall x | x in chain[..k] ensures x !in chain[k..] {
      var i :| 0 <= i < k && chain[i] == x;
      forall j | 0 <= j < |chain| - k ensures chain[k..][j] != x {
        assert chain[k..][j] == chain[j + k];
      }
    }
  }

  lemma CutFreeIs(s: State)
    requires s.cons.CCutting? && s.cons.k <= |s.v.chain|
    ensures CutFree(s) == s.free + set x | x in s.v.chain[..s.cons.k]
  {
  }

  lemma CCutKeeps(s: State)
    requires Sound(s) && EnabledCons(s, CCut)
    ensures Sound(ApplyCons(s, CCut))
  {
    hide *;
    CutIs(s);
    Numbers(s);
    Parts(s);
    CutBase(s);
    CutDeq(s);
    CutProd(s);
    var k, s' := s.cons.k, ApplyCons(s, CCut);
    DroppedIs(s.v, k, s.hd + s.cons.n, CutRun(s));
    CutSized(s.mem, s.v, k);
    CutApart(s.mem, s.v.chain, s.v.pos, k);
    CutFreeIs(s);
    PoolCut(s, s', s.v.chain[..k], s.v.chain[k..]);
    BooksSame(s, s');
    SoundIs(s');
  }

  lemma ConsumersOwn(s: State, a: Action)
    requires EnabledCons(s, a)
    ensures a.CLoad? || a.CPeek? || a.CDrop? || a.CSeek? || a.CRead? || a.CMove? || a.CDone? || a.CPeeked? || a.CWalk? || a.CCut? || a.CStore?
  {
    hide ReadDone, Found, Here, Sub, Add;
  }

  /** Every step of the consumer keeps the invariant. */
  lemma ConsumerKeeps(s: State, a: Action)
    requires Sound(s) && EnabledCons(s, a)
    ensures Sound(ApplyCons(s, a))
  {
    hide *;
    ConsumersOwn(s, a);
    match a
    case CLoad(len) => CLoadKeeps(s, len);
    case CPeek(o, len) => CPeekKeeps(s, o, len);
    case CDrop(len) => CDropKeeps(s, len);
    case CSeek(m, t, c, b) => CSeekKeeps(s, m, t, c, b);
    case CRead => CReadKeeps(s);
    case CMove => CMoveKeeps(s);
    case CDone => CDoneKeeps(s);
    case CPeeked => CPeekedKeeps(s);
    case CWalk => CWalkKeeps(s);
    case CCut => CCutKeeps(s);
    case CStore => CStoreKeeps(s);
    case _ =>
  }
}
