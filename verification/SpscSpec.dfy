/** What one producer and one consumer do to a fifo, call by call: every interleaving of their steps
    is a run of a fifo on which each call takes effect at once, with the bytes that the caller gave. */
module SpscSpec {
  import opened Position
  import opened OooSegments
  import opened Chunks
  import opened FreeLists
  import opened SegmentState
  import opened ChunkTree
  import opened ChunkIndex
  import opened Chains
  import opened FifoState
  import opened FifoViews
  import opened SpscState
  import opened SpscProducer
  import opened SpscConsumer
  import opened Spsc

  /** The call that the producer is in: the first n bytes of src at offset o from the tail. */
  datatype Put = NoPut | Putting(src: seq<u8>, n: nat, o: nat)

  datatype Kind = Dequeues | Peeks | Drops

  /** The call that the consumer is in: n bytes at offset o from the head. */
  datatype Get = NoGet | Getting(kind: Kind, o: nat, n: nat)

  /** A fifo without chunks: what was last written at each position, tail and head, and the calls
      that have begun. */
  datatype Fifo = Fifo(log: Log, tl: int, hd: int, put: Put, get: Get)

  /** The bytes that the chain has past the tail. */
  ghost function RoomOf(s: State): int {
    if |s.v.pos| == |s.v.chain| + 1 then End(s.v) - s.v.tl else 0
  }

  /** What an action does to the fifo. A call begins with what fits, the failure to get more chunks
      cuts an enqueue down to the room that is left, and a write takes effect as a whole when the
      producer has finished. The tail then moves to the first position that is not written. */
  ghost predicate Effect(f: Fifo, size: nat, a: Action, room: int, g: Fifo) {
    match a
    case PLoad(src) =>
      var n := Least(|src|, size - (f.tl - f.hd));
      g == f.(put := if n <= 0 then NoPut else Putting(src, n, 0))
    case PLoadAhead(o, src) => g == f.(put := if o + |src| > size - (f.tl - f.hd) then NoPut else Putting(src, |src|, o))
    case PFail => f.put.Putting? && g == f.(put := if f.put.o > 0 || room <= 0 then NoPut else Putting(f.put.src, room, 0))
    case PRecord =>
      && f.put.Putting? && f.put.o > 0 && f.put.n <= |f.put.src|
      && g == f.(log := Overlay(f.log, f.tl + f.put.o, f.put.src[..f.put.n]), put := NoPut)
    case PPublish(_, _, _, _, _, _) =>
      && f.put.Putting? && f.put.o == 0 && f.put.n <= |f.put.src|
      && g == f.(log := Overlay(f.log, f.tl, f.put.src[..f.put.n]), tl := g.tl, put := NoPut)
      && f.tl + f.put.n <= g.tl && Recorded(g.log, f.tl, g.tl - f.tl) && g.tl !in g.log
    case CLoad(len) => g == f.(get := if Least(len, f.tl - f.hd) <= 0 then NoGet else Getting(Dequeues, 0, Least(len, f.tl - f.hd)))
    case CDrop(len) => g == f.(get := if Least(len, f.tl - f.hd) <= 0 then NoGet else Getting(Drops, 0, Least(len, f.tl - f.hd)))
    case CPeek(o, len) => f.hd + o < f.tl && g == f.(get := Getting(Peeks, o, Least(len, f.tl - f.hd - o)))
    case CPeeked => g == f.(get := NoGet)
    case CStore => f.get.Getting? && f.get.kind != Peeks && g == f.(hd := f.hd + f.get.n, get := NoGet)
    case _ => g == f
  }

  /** The producer is in the call that the fifo says. */
  ghost predicate PutIs(p: Prod, put: Put) {
    put == if p.PIdle? then NoPut else Putting(p.src, p.n, p.o)
  }

  ghost predicate GetIs(c: Cons, get: Get) {
    match c
    case CIdle => get == NoGet
    case CSeeking(o, n) => get == Getting(Peeks, o, n)
    case CReading(o, n, _, _, _, peek) => get == Getting(if peek then Peeks else Dequeues, o, n)
    case CWalking(n, _, _, _, _, _, ooo, _) => get == Getting(if ooo then Drops else Dequeues, 0, n)
    case CCutting(n, _, _, _, _, _, ooo, _) => get == Getting(if ooo then Drops else Dequeues, 0, n)
    case CStoring(n, _) => get.Getting? && get.kind != Peeks && get.n == n && get.o == 0
  }

  /** The log is the one of the fifo, but the first w bytes of src from p on are already there where
      something was written before. */
  ghost predicate Ahead(log: Log, was: Log, p: int, src: seq<u8>, w: nat) {
    log.Keys == was.Keys && w <= |src| && forall q :: q in log ==> log[q] == if p <= q < p + w then src[q - p] else was[q]
  }

  ghost predicate LogIs(s: State, log: Log) {
    if s.prod.PWriting? then Ahead(s.v.log, log, s.v.tl + s.prod.o, s.prod.src, s.prod.w) else s.v.log == log
  }

  ghost predicate Refines(s: State, f: Fifo) {
    f.tl == s.v.tl && f.hd == s.hd && PutIs(s.prod, f.put) && GetIs(s.cons, f.get) && LogIs(s, f.log)
  }

  lemma AheadNone(log: Log, was: Log, p: int, src: seq<u8>)
    ensures Ahead(log, was, p, src, 0) <==> log == was
  {
    if Ahead(log, was, p, src, 0) {
      assert forall q :: q in log <==> q in was;
      assert forall q :: q in log ==> log[q] == was[q];
      assert log == was;
    }
  }

  lemma AheadMore(log: Log, was: Log, p: int, src: seq<u8>, w: nat)
    requires Ahead(log, was, p, src, w) && w < |src|
    ensures Ahead(Rewrite(log, p + w, src[w]), was, p, src, w + 1)
  {
  }

  /** All bytes in: the write as a whole. */
  lemma AheadAll(log: Log, was: Log, p: int, src: seq<u8>, n: nat)
    requires Ahead(log, was, p, src, n)
    ensures Overlay(log, p, src[..n]) == Overlay(was, p, src[..n])
  {
    var a, b := Overlay(log, p, src[..n]), Overlay(was, p, src[..n]);
    assert forall q :: q in log <==> q in was;
    assert forall q :: q in a <==> q in b;
    assert forall q :: q in a ==> a[q] == b[q];
  }

  /** Steps that neither begin nor end a call of the producer. */
  lemma StillPutting(s: State, s': State, f: Fifo)
    requires Refines(s, f) && s'.v.tl == s.v.tl && s'.hd == s.hd && s'.cons == s.cons && s'.v.log == s.v.log && !s.prod.PWriting?
    requires s'.prod.PIdle? == s.prod.PIdle? && (!s.prod.PIdle? ==> s'.prod.src == s.prod.src && s'.prod.n == s.prod.n && s'.prod.o == s.prod.o)
    requires s'.prod.PWriting? ==> s'.prod.w == 0
    ensures Refines(s', f)
  {
    hide Ahead;
    if s'.prod.PWriting? {
      AheadNone(s'.v.log, f.log, s'.v.tl + s'.prod.o, s'.prod.src);
    }
  }

  lemma BeginsPut(s: State, s': State, f: Fifo, put: Put)
    requires Refines(s, f) && s' == s.(prod := s'.prod) && PutIs(s'.prod, put) && !s.prod.PWriting?
    requires s'.prod.PWriting? ==> s'.prod.w == 0
    ensures Refines(s', f.(put := put))
  {
    hide Ahead;
    if s'.prod.PWriting? {
      AheadNone(s'.v.log, f.log, s'.v.tl + s'.prod.o, s'.prod.src);
    }
  }

  lemma LoadIs(s: State, a: Action)
    requires EnabledProd(s, a) && (a.PLoad? || a.PLoadAhead?)
    ensures s.prod.PIdle?
    ensures a.PLoad? ==>
              var n := Least(|a.src|, s.size - Sub(s.shr.tail, s.head));
              n <= |a.src| && ApplyProd(s, a) == s.(prod := if n <= 0 then PIdle else PLoaded(a.src, n, 0))
    ensures a.PLoadAhead? ==>
              ApplyProd(s, a) == s.(prod := if a.o + |a.src| > s.size - Sub(s.shr.tail, s.head) then PIdle else PLoaded(a.src, |a.src|, a.o))
  {
    hide Sub;
  }

  lemma LoadRefines(s: State, a: Action, f: Fifo) returns (g: Fifo)
    requires Sound(s) && EnabledProd(s, a) && (a.PLoad? || a.PLoadAhead?) && Refines(s, f)
    ensures Effect(f, s.size, a, RoomOf(s), g) && Refines(ApplyProd(s, a), g)
  {
    assert f.tl == s.v.tl && f.hd == s.hd;
    hide *;
    Numbers(s);
    LoadIs(s, a);
    g := f.(put := PutOf(ApplyProd(s, a).prod));
    PutOfIs(ApplyProd(s, a).prod);
    BeginsPut(s, ApplyProd(s, a), f, g.put);
    LoadEffect(f, s.size, a, RoomOf(s), g);
  }

  ghost function PutOf(p: Prod): Put {
    if p.PIdle? then NoPut else Putting(p.src, p.n, p.o)
  }

  lemma PutOfIs(p: Prod)
    ensures PutOf(p) == (if p.PIdle? then NoPut else Putting(p.src, p.n, p.o)) && PutIs(p, PutOf(p))
  {
  }

  lemma LoadEffect(f: Fifo, size: nat, a: Action, room: int, g: Fifo)
    requires a.PLoad? ==>
               var n := Least(|a.src|, size - (f.tl - f.hd)); g == f.(put := if n <= 0 then NoPut else Putting(a.src, n, 0))
    requires a.PLoadAhead? ==> g == f.(put := if a.o + |a.src| > size - (f.tl - f.hd) then NoPut else Putting(a.src, |a.src|, a.o))
    requires a.PLoad? || a.PLoadAhead?
    ensures Effect(f, size, a, room, g)
  {
  }

  /** The steps between the load and the first byte, and the moves from chunk to chunk. */
  ghost predicate Between(a: Action) {
    a.PFit? || a.PGrow? || a.PLink? || a.PSeek?
  }

  lemma BetweenIs(s: State, a: Action)
    requires EnabledProd(s, a) && Between(a)
    ensures var s' := ApplyProd(s, a);
            && !s.prod.PWriting? && !s.prod.PIdle? && !s'.prod.PIdle? && s'.v.tl == s.v.tl && s'.hd == s.hd && s'.cons == s.cons && s'.v.log == s.v.log
            && s'.prod.src == s.prod.src && s'.prod.n == s.prod.n && s'.prod.o == s.prod.o && (s'.prod.PWriting? ==> s'.prod.w == 0)
  {
    hide NeedsMore, Prepared, Granted, Sought, Layout, TotalLength, End;
  }

  lemma BetweenRefines(s: State, a: Action, f: Fifo)
    requires EnabledProd(s, a) && Between(a) && Refines(s, f)
    ensures Effect(f, s.size, a, RoomOf(s), f) && Refines(ApplyProd(s, a), f)
  {
    hide Refines, ApplyProd, EnabledProd;
    BetweenIs(s, a);
    StillPutting(s, ApplyProd(s, a), f);
  }

  lemma FailIs(s: State)
    requires EnabledProd(s, PFail)
    ensures s.prod.PLoaded? && s.shr.endChunk in s.mem && NeedsMore(s, s.prod.o + s.prod.n)
    ensures var n := Sub(ChunkEnd(s.mem[s.shr.endChunk]), s.shr.tail);
            ApplyProd(s, PFail) == s.(prod := if n == 0 || s.prod.o > 0 then PIdle else PWriting(s.prod.src, n, 0, 0, s.shr.tailChunk))
  {
    hide Sub, ChunkEnd;
  }

  lemma FailRefines(s: State, f: Fifo) returns (g: Fifo)
    requires Sound(s) && EnabledProd(s, PFail) && Refines(s, f)
    ensures Effect(f, s.size, PFail, RoomOf(s), g) && Refines(ApplyProd(s, PFail), g)
  {
    assert PutIs(s.prod, f.put);
    assert |s.v.pos| == |s.v.chain| + 1 ==> RoomOf(s) == End(s.v) - s.v.tl;
    hide Sound, Refines, EnabledProd, ApplyProd, Sub, ChunkEnd, NeedsMore, RoomOf, End, Chain, Holds, Wrap, Reach, WellSized;
    Numbers(s);
    FailIs(s);
    g := f.(put := PutOf(ApplyProd(s, PFail).prod));
    BeginsPut(s, ApplyProd(s, PFail), f, g.put);
  }

  lemma MoveRefines(s: State, f: Fifo)
    requires EnabledProd(s, PMove) && Refines(s, f)
    ensures Effect(f, s.size, PMove, RoomOf(s), f) && Refines(ApplyProd(s, PMove), f)
  {
    hide EnabledProd, ApplyProd, Here;
    MoveIs(s);
  }

  lemma WriteRefines(s: State, f: Fifo)
    requires EnabledProd(s, PWrite) && Refines(s, f)
    ensures Effect(f, s.size, PWrite, RoomOf(s), f) && Refines(ApplyProd(s, PWrite), f)
  {
    hide EnabledProd, ApplyProd, Here, Sub, Add, Store, Rewrite, Ahead;
    WrittenIs(s);
    AheadMore(s.v.log, f.log, s.v.tl + s.prod.o, s.prod.src, s.prod.w);
  }

  lemma RecordRefines(s: State, f: Fifo) returns (g: Fifo)
    requires EnabledProd(s, PRecord) && Refines(s, f)
    ensures Effect(f, s.size, PRecord, RoomOf(s), g) && Refines(ApplyProd(s, PRecord), g)
  {
    hide EnabledProd, ApplyProd, Finished, Overlay, Ahead;
    RecordIs(s);
    AheadAll(s.v.log, f.log, s.v.tl + s.prod.o, s.prod.src, s.prod.n);
    g := f.(log := Overlay(f.log, f.tl + f.put.o, f.put.src[..f.put.n]), put := NoPut);
  }

  lemma PublishRefines(s: State, a: Action, f: Fifo) returns (g: Fifo)
    requires Sound(s) && EnabledProd(s, a) && a.PPublish? && Refines(s, f)
    ensures Effect(f, s.size, a, RoomOf(s), g) && Refines(ApplyProd(s, a), g)
  {
    hide EnabledProd, ApplyProd, Finished, Cleared, Overlay, Ahead, Published, Sound, FifoInv, Bytes, Chain, OnlyFlags, Index, Collected, Canonical, Here, ChunkFor, WellSized;
    PublishIs(s, a.m, a.t, a.c, a.a, a.tl, a.list);
    PPublishInv(s, a.m, a.t, a.c, a.a, a.tl, a.list);
    PublishedIs(s, a.m, a.t, a.c, a.a, a.tl, a.list);
    CollectsOn(s.list, a.list, s.v.tl + s.prod.n, a.tl);
    var s' := ApplyProd(s, a);
    AheadAll(s.v.log, f.log, s.v.tl, s.prod.src, s.prod.n);
    g := f.(log := Overlay(f.log, f.tl, f.put.src[..f.put.n]), tl := a.tl, put := NoPut);
    HeadBefore(s);
    TailOf(a.m, s'.v, s'.shr, s'.enq, s'.size, a.list, s.v.tl);
  }

  /** The positions up to the tail are written, and the tail is not. */
  lemma TailOf(mem: Memory, v: View, shr: Shared, enq: Lookup, size: nat, segs: seq<Interval>, from: int)
    requires FifoInv(mem, v, shr, enq, size, segs) && v.hd <= from
    ensures Recorded(v.log, from, v.tl - from) && v.tl !in v.log
  {
    hide Stream, EnqSide, Pointers;
    TailUnwritten(mem, v.chain, v.pos, v.log, v.hd, v.tl, size, segs);
  }

  lemma ProdRefines(s: State, a: Action, f: Fifo) returns (g: Fifo)
    requires Sound(s) && EnabledProd(s, a) && Refines(s, f)
    ensures Effect(f, s.size, a, RoomOf(s), g) && Refines(ApplyProd(s, a), g)
  {
    hide *;
    ProducersOwn(s, a);
    g := f;
    match a
    case PLoad(_) => g := LoadRefines(s, a, f);
    case PLoadAhead(_, _) => g := LoadRefines(s, a, f);
    case PFail => g := FailRefines(s, f);
    case PWrite => WriteRefines(s, f);
    case PMove => MoveRefines(s, f);
    case PRecord => g := RecordRefines(s, f);
    case PPublish(_, _, _, _, _, _) => g := PublishRefines(s, a, f);
    case _ => BetweenOf(a); BetweenRefines(s, a, f);
  }

  lemma BetweenOf(a: Action)
    ensures Between(a) <==> a.PFit? || a.PGrow? || a.PLink? || a.PSeek?
  {
  }

  lemma HeadBefore(s: State)
    requires Sound(s)
    ensures s.v.hd <= s.v.tl && s.hd <= s.v.tl && Sub(s.shr.tail, s.head) == s.v.tl - s.hd
  {
    hide *;
    Numbers(s);
  }

  /** Steps that change only what the consumer does. */
  lemma StillGetting(s: State, s': State, f: Fifo, get: Get)
    requires Refines(s, f) && s'.v.tl == s.v.tl && s'.hd == s.hd && s'.prod == s.prod && s'.v.log == s.v.log && GetIs(s'.cons, get)
    ensures Refines(s', f.(get := get))
  {
    hide Ahead, GetIs;
  }

  lemma CallRefines(s: State, a: Action, f: Fifo) returns (g: Fifo)
    requires Sound(s) && EnabledCons(s, a) && (a.CLoad? || a.CPeek? || a.CDrop?) && Refines(s, f)
    ensures Effect(f, s.size, a, RoomOf(s), g) && Refines(ApplyCons(s, a), g)
  {
    hide *;
    HeadBefore(s);
    EndsAre(s, f);
    CallIs(s, a);
    g := f.(get := CallGet(a, s.v.tl - s.hd));
    StillGetting(s, ApplyCons(s, a), f, g.get);
    CallEffect(f, s.size, a, RoomOf(s));
  }

  lemma EndsAre(s: State, f: Fifo)
    requires Refines(s, f)
    ensures f.tl == s.v.tl && f.hd == s.hd
  {
    hide PutIs, GetIs, LogIs;
  }

  /** The call that begins when the fifo holds n bytes. */
  ghost function CallGet(a: Action, n: nat): Get
    requires a.CLoad? || a.CDrop? || (a.CPeek? && a.o < n)
  {
    if a.CPeek? then Getting(Peeks, a.o, Least(a.len, n - a.o))
    else if Least(a.len, n) <= 0 then NoGet
    else Getting(if a.CLoad? then Dequeues else Drops, 0, Least(a.len, n))
  }

  lemma CallEffect(f: Fifo, size: nat, a: Action, room: int)
    requires f.hd <= f.tl && (a.CLoad? || a.CDrop? || (a.CPeek? && f.hd + a.o < f.tl))
    ensures Effect(f, size, a, room, f.(get := CallGet(a, f.tl - f.hd)))
  {
  }

  lemma CallIs(s: State, a: Action)
    requires EnabledCons(s, a) && (a.CLoad? || a.CPeek? || a.CDrop?) && s.hd <= s.v.tl && Sub(s.shr.tail, s.head) == s.v.tl - s.hd
    ensures var s' := ApplyCons(s, a);
            && s'.v.tl == s.v.tl && s'.hd == s.hd && s'.prod == s.prod && s'.v.log == s.v.log
            && (a.CPeek? ==> s.hd + a.o < s.v.tl) && GetIs(s'.cons, CallGet(a, s.v.tl - s.hd))
  {
    hide Sub, Bytes, Leaves, Found, ReadDone, Here;
  }

  /** The steps inside a call of the consumer. */
  ghost predicate InsideGet(a: Action) {
    a.CSeek? || a.CRead? || a.CMove? || a.CDone? || a.CWalk? || a.CCut?
  }

  lemma InsideGetIs(s: State, a: Action, get: Get)
    requires EnabledCons(s, a) && InsideGet(a) && GetIs(s.cons, get) && ConsOk(s)
    ensures var s' := ApplyCons(s, a);
            s'.v.tl == s.v.tl && s'.hd == s.hd && s'.prod == s.prod && s'.v.log == s.v.log && GetIs(s'.cons, get)
  {
    hide Sub, Bytes, Leaves, Here, Add, Found, PosLt, ChunkEnd, IncludesPos, Delete, DeqInv, Around, StartsBy, WalkAt;
  }

  lemma InsideGetRefines(s: State, a: Action, f: Fifo)
    requires Sound(s) && EnabledCons(s, a) && InsideGet(a) && Refines(s, f)
    ensures Effect(f, s.size, a, RoomOf(s), f) && Refines(ApplyCons(s, a), f)
  {
    hide EnabledCons, ApplyCons, GetIs, LogIs, PutIs;
    assert ConsOk(s) by { hide *; Parts(s); }
    hide ConsOk, Sound;
    InsideGetIs(s, a, f.get);
    StillGetting(s, ApplyCons(s, a), f, f.get);
    assert f.(get := f.get) == f;
  }

  lemma PeekedRefines(s: State, f: Fifo) returns (g: Fifo)
    requires EnabledCons(s, CPeeked) && Refines(s, f)
    ensures Effect(f, s.size, CPeeked, RoomOf(s), g) && Refines(ApplyCons(s, CPeeked), g)
  {
    hide EnabledCons, ApplyCons;
    CPeekedIs(s);
    g := f.(get := NoGet);
    StillGetting(s, ApplyCons(s, CPeeked), f, NoGet);
  }

  lemma StoreRefines(s: State, f: Fifo) returns (g: Fifo)
    requires Sound(s) && EnabledCons(s, CStore) && Refines(s, f)
    ensures Effect(f, s.size, CStore, RoomOf(s), g) && Refines(ApplyCons(s, CStore), g)
  {
    hide EnabledCons, ApplyCons, Sound, Ahead, Bytes;
    CStoreIs(s);
    StorePhase(s);
    g := f.(hd := f.hd + f.get.n, get := NoGet);
  }

  lemma ConsRefines(s: State, a: Action, f: Fifo) returns (g: Fifo)
    requires Sound(s) && EnabledCons(s, a) && Refines(s, f)
    ensures Effect(f, s.size, a, RoomOf(s), g) && Refines(ApplyCons(s, a), g)
  {
    hide *;
    ConsumersOwn(s, a);
    InsideGetOf(a);
    if a.CLoad? || a.CPeek? || a.CDrop? {
      g := CallRefines(s, a, f);
    } else if a.CPeeked? {
      g := PeekedRefines(s, f);
    } else if a.CStore? {
      g := StoreRefines(s, f);
    } else {
      g := f;
      InsideGetRefines(s, a, f);
    }
  }

  lemma InsideGetOf(a: Action)
    ensures InsideGet(a) <==> a.CSeek? || a.CRead? || a.CMove? || a.CDone? || a.CWalk? || a.CCut?
  {
  }

  lemma ScribbleRefines(s: State, a: Action, f: Fifo)
    requires Enabled(s, a) && a.Scribble? && Refines(s, f)
    ensures Effect(f, s.size, a, RoomOf(s), f) && Refines(Apply(s, a), f)
  {
    hide EnabledProd, EnabledCons, ApplyProd, ApplyCons, Ahead;
  }

  /** Every step has the effect that is said, and no other. */
  lemma StepRefines(s: State, a: Action, f: Fifo) returns (g: Fifo)
    requires Sound(s) && Enabled(s, a) && Refines(s, f)
    ensures Effect(f, s.size, a, RoomOf(s), g) && Refines(Apply(s, a), g)
  {
    hide *;
    StepIs(s, a);
    if a.Scribble? {
      g := f;
      ScribbleRefines(s, a, f);
    } else if EnabledProd(s, a) {
      g := ProdRefines(s, a, f);
    } else {
      g := ConsRefines(s, a, f);
    }
  }

  /** The actions of a run lead the fifo from f to g. */
  ghost predicate Leads(s: State, acts: seq<Action>, f: Fifo, g: Fifo)
    requires Run(s, acts)
    decreases |acts|
  {
    if acts == [] then g == f
    else exists h :: Effect(f, s.size, acts[0], RoomOf(s), h) && Leads(Apply(s, acts[0]), acts[1..], h, g)
  }

  /** Every interleaving is a run of the fifo. */
  lemma {:induction false} RunRefines(s: State, acts: seq<Action>, f: Fifo) returns (g: Fifo)
    requires Sound(s) && Run(s, acts) && Refines(s, f)
    ensures Leads(s, acts, f, g) && Refines(Exec(s, acts), g) && Sound(Exec(s, acts))
    decreases |acts|
  {
    hide Sound, Enabled, Apply, Refines, Effect, RoomOf;
    g := f;
    if acts != [] {
      var h := StepRefines(s, acts[0], f);
      StepKeeps(s, acts[0]);
      g := RunRefines(Apply(s, acts[0]), acts[1..], h);
    }
  }

  lemma AheadBytes(log: Log, was: Log, p: int, src: seq<u8>, w: nat, from: int, n: nat)
    requires Ahead(log, was, p, src, w) && from + n <= p
    ensures Bytes(log, from, n) == Bytes(was, from, n)
  {
    assert forall q :: q in log <==> q in was;
  }

  lemma LogBytes(s: State, f: Fifo, n: nat)
    requires LogIs(s, f.log) && n <= s.v.tl
    ensures Bytes(s.v.log, 0, n) == Bytes(f.log, 0, n)
  {
    hide Bytes, Ahead;
    if s.prod.PWriting? {
      AheadBytes(s.v.log, f.log, s.v.tl + s.prod.o, s.prod.src, s.prod.w, 0, n);
    }
  }

  lemma BooksAre(s: State)
    requires Books(s)
    ensures 0 <= s.hd <= s.v.tl && s.sent == Bytes(s.v.log, 0, s.v.tl) && s.taken == Bytes(s.v.log, 0, s.hd)
  {
  }

  /** What was published and read is what the fifo has before its tail and its head. */
  lemma Visible(s: State, f: Fifo)
    requires Sound(s) && Refines(s, f)
    ensures 0 <= f.hd <= f.tl && s.sent == Bytes(f.log, 0, f.tl) && s.taken == Bytes(f.log, 0, f.hd) && |s.sent| == f.tl && |s.taken| == f.hd
    ensures s.taken <= s.sent
  {
    assert LogIs(s, f.log) && f.tl == s.v.tl && f.hd == s.hd;
    hide *;
    ReadIsPrefix(s);
    Parts(s);
    BooksAre(s);
    LogBytes(s, f, s.v.tl);
    LogBytes(s, f, s.hd);
  }

  /** The producer is in a call up to the end of the run. */
  ghost predicate PutBusy(s: State, acts: seq<Action>)
    requires Run(s, acts)
    decreases |acts|
  {
    acts != [] ==> !s.prod.PIdle? && PutBusy(Apply(s, acts[0]), acts[1..])
  }

  /** The chain could not grow when it had room for m more bytes. */
  ghost predicate FailsWith(s: State, acts: seq<Action>, m: int)
    requires Run(s, acts)
    decreases |acts|
  {
    acts != [] && ((acts[0].PFail? && m == RoomOf(s)) || FailsWith(Apply(s, acts[0]), acts[1..], m))
  }

  lemma OverlayPrefix(log: Log, p: nat, src: seq<u8>, e: nat)
    requires p + |src| <= e
    ensures Bytes(log, 0, p) + src <= Bytes(Overlay(log, p, src), 0, e)
  {
    var all := Bytes(Overlay(log, p, src), 0, e);
    assert forall i :: 0 <= i < p + |src| ==> all[i] == (Bytes(log, 0, p) + src)[i];
  }

  /** One step inside an enqueue. */
  lemma PutStep(s: State, a: Action, f: Fifo, g: Fifo)
    requires Sound(s) && Enabled(s, a) && Refines(s, f) && Effect(f, s.size, a, RoomOf(s), g) && Refines(Apply(s, a), g) && Sound(Apply(s, a))
    requires f.put.Putting? && f.put.o == 0 && f.put.n <= |f.put.src|
    ensures g.put == f.put ==> Apply(s, a).sent == s.sent
    ensures g.put == NoPut && !a.PFail? ==> s.sent + f.put.src[..f.put.n] <= Apply(s, a).sent
    ensures a.PFail? ==> Apply(s, a).sent == s.sent && RoomOf(s) >= 0 && g.put == if RoomOf(s) == 0 then NoPut else Putting(f.put.src, RoomOf(s), 0)
    ensures a.PFail? ==> RoomOf(s) <= |f.put.src|
    ensures a.PFail? || g.put == f.put || g.put == NoPut
  {
    hide *;
    Visible(s, f);
    Visible(Apply(s, a), g);
    PutCases(f, s.size, a, RoomOf(s), g);
    BusyPut(s, a, f);
    if a.PFail? {
      FailRoom(s, f);
    }
    if a.PPublish? {
      OverlayPrefix(f.log, f.tl, f.put.src[..f.put.n], g.tl);
    }
  }

  lemma BusyPut(s: State, a: Action, f: Fifo)
    requires Enabled(s, a) && Refines(s, f) && f.put.Putting?
    ensures !a.PLoad? && !a.PLoadAhead?
  {
    hide GetIs, LogIs;
  }

  lemma FailRoom(s: State, f: Fifo)
    requires Sound(s) && Enabled(s, PFail) && Refines(s, f) && f.put.Putting? && f.put.o == 0 && f.put.n <= |f.put.src|
    ensures 0 <= RoomOf(s) < f.put.n
  {
    hide Sound, GetIs, LogIs, NeedsMore, Chain, Holds, Sub, Wrap, ChunkEnd, Reach, WellSized, End;
    Numbers(s);
    assert s.prod.PLoaded?;
    Room(s);
    NeedsMoreIs(s, s.prod.o + s.prod.n);
  }

  lemma PutCases(f: Fifo, size: nat, a: Action, room: int, g: Fifo)
    requires Effect(f, size, a, room, g) && f.put.Putting? && f.put.o == 0 && f.put.n <= |f.put.src|
    ensures a.PPublish? ==> g.put == NoPut && g.log == Overlay(f.log, f.tl, f.put.src[..f.put.n]) && f.tl + f.put.n <= g.tl
    ensures a.PFail? ==> g == f.(put := if room <= 0 then NoPut else Putting(f.put.src, room, 0))
    ensures !a.PPublish? && !a.PFail? && !a.PLoad? && !a.PLoadAhead? ==> g.log == f.log && g.tl == f.tl && g.put == f.put
  {
    hide Overlay;
  }

  lemma IdleIs(s: State, f: Fifo)
    requires Refines(s, f)
    ensures s.prod.PIdle? <==> f.put == NoPut
  {
    hide GetIs, LogIs;
  }

  /** From any point of an enqueue to its end. */
  lemma {:induction false} PutGoesOn(s: State, acts: seq<Action>, f: Fifo) returns (m: nat)
    requires Sound(s) && Run(s, acts) && Refines(s, f) && f.put.Putting? && f.put.o == 0 && 0 < f.put.n <= |f.put.src|
    requires PutBusy(s, acts) && Exec(s, acts).prod.PIdle?
    ensures m <= |f.put.src| && (m == f.put.n || FailsWith(s, acts, m))
    ensures s.sent + f.put.src[..m] <= Exec(s, acts).sent && (m == 0 ==> Exec(s, acts).sent == s.sent)
    decreases |acts|
  {
    hide Sound, Enabled, Apply, Refines, Effect, RoomOf;
    IdleIs(s, f);
    var a, s' := acts[0], Apply(s, acts[0]);
    var g := StepRefines(s, a, f);
    StepKeeps(s, a);
    PutStep(s, a, f, g);
    IdleIs(s', g);
    if g.put == NoPut {
      assert acts[1..] == [];
      m := if a.PFail? then 0 else f.put.n;
    } else {
      m := PutGoesOn(s', acts[1..], g);
    }
  }

  /** Every enqueue that is completed has published the bytes that it was given, from the tail at which
      it began: as many as fit into the fifo then, or as many as the chain had room for when it could
      not grow. */
  lemma EveryEnqueue(s: State, before: seq<Action>, src: seq<u8>, acts: seq<Action>, f: Fifo) returns (m: nat)
    requires Sound(s) && Refines(s, f) && Run(s, before)
    requires var s0 := Exec(s, before);
             && Run(s0, [PLoad(src)] + acts) && Run(Apply(s0, PLoad(src)), acts) && PutBusy(Apply(s0, PLoad(src)), acts)
             && Exec(s0, [PLoad(src)] + acts).prod.PIdle?
    ensures var s0 := Exec(s, before);
            var s', room := Exec(s0, [PLoad(src)] + acts), s0.size - (|s0.sent| - |s0.taken|);
            && m <= |src| && s0.sent + src[..m] <= s'.sent && (m == 0 ==> s'.sent == s0.sent)
            && (m == Least(|src|, room) || FailsWith(Apply(s0, PLoad(src)), acts, m))
  {
    hide Sound, Enabled, Apply, Refines, Effect, RoomOf;
    var f0 := RunRefines(s, before, f);
    var s0 := Exec(s, before);
    Visible(s0, f0);
    ReadIsPrefix(s0);
    var s1 := Apply(s0, PLoad(src));
    var g := StepRefines(s0, PLoad(src), f0);
    StepKeeps(s0, PLoad(src));
    Visible(s1, g);
    LoadEffects(f0, s0.size, src, RoomOf(s0), g);
    IdleIs(s1, g);
    assert ([PLoad(src)] + acts)[1..] == acts;
    if g.put == NoPut {
      assert acts == [];
      m := 0;
    } else {
      m := PutGoesOn(s1, acts, g);
    }
  }

  lemma LoadEffects(f: Fifo, size: nat, src: seq<u8>, room: int, g: Fifo)
    requires Effect(f, size, PLoad(src), room, g) && 0 <= f.hd <= f.tl <= f.hd + size
    ensures var n := Least(|src|, size - (f.tl - f.hd));
            g.log == f.log && g.tl == f.tl && g.hd == f.hd && 0 <= n <= |src| && g.put == if n == 0 then NoPut else Putting(src, n, 0)
  {
  }

  /** One step inside a write ahead. */
  lemma AheadStep(f: Fifo, size: nat, a: Action, room: int, g: Fifo)
    requires Effect(f, size, a, room, g) && f.put.Putting? && f.put.o > 0 && !a.PLoad? && !a.PLoadAhead?
    ensures g.tl == f.tl && (a.PFail? ==> g.put == NoPut && g.log == f.log)
    ensures a.PRecord? ==> g.put == NoPut && f.put.n <= |f.put.src| && g.log == Overlay(f.log, f.tl + f.put.o, f.put.src[..f.put.n])
    ensures !a.PFail? && !a.PRecord? ==> g.put == f.put && g.log == f.log
  {
    hide Overlay;
    assert !a.PPublish?;
  }

  /** From any point of a write ahead to its end. */
  lemma {:induction false} AheadGoesOn(s: State, acts: seq<Action>, f: Fifo) returns (g: Fifo)
    requires Sound(s) && Run(s, acts) && Refines(s, f) && f.put.Putting? && f.put.o > 0 && PutBusy(s, acts) && Exec(s, acts).prod.PIdle?
    ensures Refines(Exec(s, acts), g) && Sound(Exec(s, acts)) && g.tl == f.tl && g.put == NoPut
    ensures if Fails(s, acts) then g.log == f.log
            else f.put.n <= |f.put.src| && g.log == Overlay(f.log, f.tl + f.put.o, f.put.src[..f.put.n])
    decreases |acts|
  {
    hide Sound, Enabled, Apply, Refines, Effect, RoomOf, Overlay;
    IdleIs(s, f);
    var a, s' := acts[0], Apply(s, acts[0]);
    var h := StepRefines(s, a, f);
    StepKeeps(s, a);
    BusyPut(s, a, f);
    AheadStep(f, s.size, a, RoomOf(s), h);
    IdleIs(s', h);
    if h.put == NoPut {
      assert acts[1..] == [];
      assert Exec(s, acts) == s' && (Fails(s, acts) <==> a.PFail?);
      g := h;
    } else {
      g := AheadGoesOn(s', acts[1..], h);
      assert Exec(s, acts) == Exec(s', acts[1..]);
      assert !a.PFail? && (Fails(s, acts) <==> Fails(s', acts[1..]));
    }
  }

  /** The chain could not grow. */
  ghost predicate Fails(s: State, acts: seq<Action>)
    requires Run(s, acts)
    decreases |acts|
  {
    acts != [] && (acts[0].PFail? || Fails(Apply(s, acts[0]), acts[1..]))
  }

  /** Every write ahead that is completed has left the tail alone. If it fits and the chain has not
      failed to grow, its bytes, and no others, are then recorded where it was asked to write. */
  lemma EveryWriteAhead(s: State, before: seq<Action>, o: nat, src: seq<u8>, acts: seq<Action>, f: Fifo)
    requires Sound(s) && Refines(s, f) && Run(s, before) && o > 0
    requires var s0, a := Exec(s, before), PLoadAhead(o, src);
             && Run(s0, [a] + acts) && Run(Apply(s0, a), acts) && PutBusy(Apply(s0, a), acts) && Exec(s0, [a] + acts).prod.PIdle?
    ensures var s0, a := Exec(s, before), PLoadAhead(o, src);
            var s', s1 := Exec(s0, [a] + acts), Apply(s0, a);
            && s'.sent == s0.sent
            && var fits := o + |src| <= s0.size - (|s0.sent| - |s0.taken|) && !Fails(s1, acts);
               s'.v.log == if fits then Overlay(s0.v.log, |s0.sent| + o, src) else s0.v.log
  {
    hide Sound, Enabled, Apply, Refines, Effect, RoomOf, Overlay;
    var a := PLoadAhead(o, src);
    var f0 := RunRefines(s, before, f);
    var s0 := Exec(s, before);
    Visible(s0, f0);
    ReadIsPrefix(s0);
    var s1 := Apply(s0, a);
    var g := StepRefines(s0, a, f0);
    StepKeeps(s0, a);
    AheadEffect(f0, s0.size, a, RoomOf(s0), g);
    IdleIs(s1, g);
    IdleLog(s1, g);
    StartsIdle(s0, a);
    IdleLog(s0, f0);
    assert ([a] + acts)[1..] == acts;
    assert src[..|src|] == src;
    if g.put == NoPut {
      assert acts == [];
      Visible(s1, g);
    } else {
      var h := AheadGoesOn(s1, acts, g);
      Visible(Exec(s1, acts), h);
      IdleLog(Exec(s1, acts), h);
      SentSame(s0, f0, Exec(s1, acts), h, o, src);
    }
  }

  lemma SentSame(s: State, f: Fifo, s': State, g: Fifo, o: nat, src: seq<u8>)
    requires f.tl == g.tl >= 0 && s.sent == Bytes(f.log, 0, f.tl) && s'.sent == Bytes(g.log, 0, g.tl)
    requires g.log == f.log || g.log == Overlay(f.log, f.tl + o, src)
    ensures s'.sent == s.sent
  {
  }

  lemma AheadEffect(f: Fifo, size: nat, a: Action, room: int, g: Fifo)
    requires a.PLoadAhead? && Effect(f, size, a, room, g)
    ensures g.log == f.log && g.tl == f.tl && g.hd == f.hd
    ensures g.put == if a.o + |a.src| > size - (f.tl - f.hd) then NoPut else Putting(a.src, |a.src|, a.o)
  {
  }

  lemma StartsIdle(s: State, a: Action)
    requires Enabled(s, a) && (a.PLoad? || a.PLoadAhead?)
    ensures s.prod.PIdle?
  {
  }

  lemma IdleLog(s: State, f: Fifo)
    requires Refines(s, f)
    ensures s.prod.PIdle? ==> s.v.log == f.log
  {
    hide PutIs, GetIs;
  }

  /** The consumer is in a call up to the end of the run. */
  ghost predicate GetBusy(s: State, acts: seq<Action>)
    requires Run(s, acts)
    decreases |acts|
  {
    acts != [] ==> !s.cons.CIdle? && GetBusy(Apply(s, acts[0]), acts[1..])
  }

  /** The bytes that the consumer has copied when its call ends. */
  ghost function ResultOf(s: State, acts: seq<Action>): seq<u8>
    requires Run(s, acts)
    decreases |acts|
  {
    if acts == [] then []
    else if acts[0].CPeeked? && s.cons.CReading? then s.cons.dst
    else if acts[0].CStore? && s.cons.CStoring? then s.cons.dst
    else ResultOf(Apply(s, acts[0]), acts[1..])
  }

  lemma GetIdle(s: State, f: Fifo)
    requires Refines(s, f)
    ensures s.cons.CIdle? <==> f.get == NoGet
  {
    hide PutIs, LogIs;
  }

  /** What has been published stays where it is. */
  lemma SentGrows(s: State, a: Action)
    requires Sound(s) && Enabled(s, a)
    ensures s.sent <= Apply(s, a).sent && |s.taken| <= |s.sent|
  {
    hide *;
    OnlyAppends(s, a);
    ReadIsPrefix(s);
  }

  lemma GetCases(f: Fifo, size: nat, a: Action, room: int, g: Fifo)
    requires Effect(f, size, a, room, g) && f.get.Getting? && !a.CLoad? && !a.CPeek? && !a.CDrop?
    ensures a.CPeeked? ==> g.hd == f.hd && g.get == NoGet
    ensures a.CStore? ==> f.get.kind != Peeks && g.hd == f.hd + f.get.n && g.get == NoGet
    ensures !a.CPeeked? && !a.CStore? ==> g.hd == f.hd && g.get == f.get
  {
    hide Overlay;
  }

  lemma BusyGet(s: State, a: Action, f: Fifo)
    requires Enabled(s, a) && Refines(s, f) && f.get.Getting?
    ensures !a.CLoad? && !a.CPeek? && !a.CDrop?
  {
    hide PutIs, LogIs;
  }

  /** What the consumer has when its call ends. */
  lemma EndsWith(s: State, a: Action, f: Fifo)
    requires Sound(s) && Enabled(s, a) && Refines(s, f) && f.get.Getting? && (a.CPeeked? || a.CStore?)
    ensures |s.taken| + f.get.o + f.get.n <= |s.sent|
    ensures a.CPeeked? ==> f.get.kind == Peeks && s.cons.CReading? && s.cons.dst == s.sent[|s.taken| + f.get.o..|s.taken| + f.get.o + f.get.n]
    ensures a.CStore? ==> s.cons.CStoring? && f.get.o == 0 && s.cons.dst == s.sent[|s.taken|..|s.taken| + f.get.n] && Apply(s, a).taken == s.taken + s.cons.dst
  {
    hide *;
    EndCases(s, a, f);
    if a.CPeeked? {
      ReadIsSent(s);
    } else {
      Visible(s, f);
      StoreIs(s, f);
      StoredSent(s, f.get.n);
    }
  }

  lemma StoredSent(s: State, n: nat)
    requires Sound(s) && s.hd + n <= s.v.tl
    ensures 0 <= s.hd && |s.taken| == s.hd && |s.sent| == s.v.tl && Bytes(s.v.log, s.hd, n) == s.sent[s.hd..s.hd + n]
  {
    hide *;
    Parts(s);
    ReadIsPrefix(s);
    SentIs(s);
    BytesPart(s.v.log, s.v.tl, s.hd, n);
  }

  lemma EndCases(s: State, a: Action, f: Fifo)
    requires Enabled(s, a) && Refines(s, f) && f.get.Getting? && (a.CPeeked? || a.CStore?)
    ensures a.CPeeked? ==> f.get.kind == Peeks && s.cons.CReading? && s.cons.r == s.cons.n == f.get.n && s.cons.o == f.get.o
    ensures a.CStore? ==> s.cons.CStoring? && f.get.o == 0 && s.cons.n == f.get.n && Apply(s, a).taken == s.taken + s.cons.dst
    ensures f.tl == s.v.tl && f.hd == s.hd
  {
    hide PutIs, LogIs, Here;
  }

  lemma StoreIs(s: State, f: Fifo)
    requires Sound(s) && s.cons.CStoring? && f.get.Getting? && s.cons.n == f.get.n
    ensures s.hd + f.get.n <= s.v.tl && s.cons.dst == Bytes(s.v.log, s.hd, f.get.n)
  {
    hide *;
    StorePhase(s);
  }

  /** From any point of a call of the consumer to its end. */
  lemma {:induction false} GetGoesOn(s: State, acts: seq<Action>, f: Fifo)
    requires Sound(s) && Run(s, acts) && Refines(s, f) && f.get.Getting? && GetBusy(s, acts) && Exec(s, acts).cons.CIdle?
    requires |s.taken| + f.get.o + f.get.n <= |s.sent|
    ensures var s', got := Exec(s, acts), s.sent[|s.taken| + f.get.o..|s.taken| + f.get.o + f.get.n];
            ResultOf(s, acts) == got && s'.taken == if f.get.kind == Peeks then s.taken else s.taken + got
    decreases |acts|
  {
    hide Sound, Enabled, Apply, Refines, Effect, RoomOf;
    GetIdle(s, f);
    var a, s' := acts[0], Apply(s, acts[0]);
    var g := StepRefines(s, a, f);
    StepKeeps(s, a);
    BusyGet(s, a, f);
    GetCases(f, s.size, a, RoomOf(s), g);
    GetIdle(s', g);
    SentGrows(s, a);
    if !a.CStore? {
      TakenIs(s, a, f, g);
    }
    if a.CPeeked? || a.CStore? {
      EndsWith(s, a, f);
      assert acts[1..] == [];
    } else {
      GetGoesOn(s', acts[1..], g);
    }
  }

  lemma TakenIs(s: State, a: Action, f: Fifo, g: Fifo)
    requires Sound(s) && Enabled(s, a) && Sound(Apply(s, a)) && Refines(s, f) && Refines(Apply(s, a), g) && g.hd == f.hd
    ensures Apply(s, a).taken == s.taken
  {
    hide *;
    OnlyAppends(s, a);
    Visible(s, f);
    Visible(Apply(s, a), g);
  }

  /** Up to len bytes from the p-th on. */
  ghost function Part(bytes: seq<u8>, p: nat, len: nat): seq<u8>
    requires p <= |bytes|
  {
    bytes[p..p + Least(len, |bytes| - p)]
  }

  /** Every call of the consumer that is completed has copied what was published when it began, at its
      offset from what was read and dropped before: as much as was asked for and there. A dequeue
      and a drop have moved the head over it, a peek has not. */
  lemma EveryGet(s: State, before: seq<Action>, a: Action, acts: seq<Action>, f: Fifo)
    requires Sound(s) && Refines(s, f) && Run(s, before) && (a.CLoad? || a.CPeek? || a.CDrop?)
    requires var s0 := Exec(s, before);
             && Run(s0, [a] + acts) && Run(Apply(s0, a), acts) && GetBusy(Apply(s0, a), acts) && Exec(s0, [a] + acts).cons.CIdle?
    ensures var s0 := Exec(s, before);
            var s', o := Exec(s0, [a] + acts), if a.CPeek? then a.o else 0;
            && o <= |s0.sent| - |s0.taken|
            && var got := Part(s0.sent, |s0.taken| + o, a.len);
               ResultOf(Apply(s0, a), acts) == got && s'.taken == if a.CPeek? then s0.taken else s0.taken + got
  {
    hide *;
    var f0 := RunRefines(s, before, f);
    GetFromStart(Exec(s, before), a, acts, f0);
  }

  lemma PartIs(bytes: seq<u8>, p: nat, len: nat)
    requires p <= |bytes|
    ensures 0 <= Least(len, |bytes| - p) <= |bytes| - p && Part(bytes, p, len) == bytes[p..p + Least(len, |bytes| - p)]
  {
  }

  lemma GetFromStart(s: State, a: Action, acts: seq<Action>, f: Fifo)
    requires Sound(s) && Refines(s, f) && (a.CLoad? || a.CPeek? || a.CDrop?)
    requires Run(s, [a] + acts) && Run(Apply(s, a), acts) && GetBusy(Apply(s, a), acts) && Exec(s, [a] + acts).cons.CIdle?
    ensures var s', o := Exec(s, [a] + acts), if a.CPeek? then a.o else 0;
            && |s.taken| + o <= |s.sent|
            && var got := Part(s.sent, |s.taken| + o, a.len);
               ResultOf(Apply(s, a), acts) == got && s'.taken == if a.CPeek? then s.taken else s.taken + got
  {
    hide Sound, Enabled, Apply, Refines, Effect, RoomOf, Part, Least;
    Visible(s, f);
    var s1, o := Apply(s, a), if a.CPeek? then a.o else 0;
    var g := StepRefines(s, a, f);
    StepKeeps(s, a);
    Visible(s1, g);
    GetEffect(f, s.size, a, RoomOf(s), g);
    GetIdle(s1, g);
    SentGrows(s, a);
    PartIs(s.sent, |s.taken| + o, a.len);
    assert ([a] + acts)[1..] == acts;
    TakenIs(s, a, f, g);
    if g.get == NoGet {
      assert acts == [];
    } else {
      GetGoesOn(s1, acts, g);
    }
  }

  lemma GetEffect(f: Fifo, size: nat, a: Action, room: int, g: Fifo)
    requires Effect(f, size, a, room, g) && f.hd <= f.tl && (a.CLoad? || a.CPeek? || a.CDrop?)
    ensures g == f.(get := g.get) && (a.CPeek? ==> f.hd + a.o < f.tl)
    ensures var o := if a.CPeek? then a.o else 0;
            var n := Least(a.len, f.tl - f.hd - o);
            && 0 <= n && (g.get == NoGet ==> n == 0)
            && (g.get != NoGet ==> g.get == Getting(if a.CPeek? then Peeks else if a.CLoad? then Dequeues else Drops, o, n))
  {
  }

  /** A new fifo. */
  lemma InitRefines(mem: Memory, chain: seq<Sptr>, pos: seq<int>, free: set<Sptr>, size: nat, enqInit: bool, deqInit: bool)
    requires chain != []
    ensures Refines(Init(mem, chain, pos, free, size, enqInit, deqInit), Fifo(map[], 0, 0, NoPut, NoGet))
  {
  }
}
