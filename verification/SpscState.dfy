/** One producer and one consumer on a fifo without locks (src/svm/svm_fifo.c:808-940 and
    1054-1201). The producer enqueues in order and ahead of the tail, the consumer dequeues, peeks
    and drops. Each step below is one access to what they share, the head, the tail, a next
    pointer or a byte, together with what its side does for itself. Chunks that the consumer
    unlinks go back to a pool from which the producer takes them again. */
module SpscState {
  import opened Position
  import opened OooSegments
  import opened Chunks
  import opened SizeClasses
  import opened FreeLists
  import opened SegmentState
  import opened ChunkTree
  import opened ChunkIndex
  import opened Chains
  import opened FifoState
  import opened FifoViews

  /** The producer: n bytes of src to write at offset o from the tail, the list it has prepared
      (and where its chunks will start), a write ahead that it is about to record and to look
      up the chunk for, or the number of bytes written and the chunk it writes to. */
  datatype Prod =
    | PIdle
    | PLoaded(src: seq<u8>, n: nat, o: nat)
    | PAlloced(src: seq<u8>, n: nat, o: nat, first: Sptr, got: seq<Sptr>, q: seq<int>)
    | PSeeking(src: seq<u8>, n: nat, o: nat)
    | PWriting(src: seq<u8>, n: nat, o: nat, w: nat, wc: Sptr)

  /** The consumer: a peek that is about to look up its chunk; n bytes to read at offset o from
      the head, the number read and the chunk it reads from; the walk along the chunks to
      unlink, with the dequeue tree in use or not; or only the new head left to store. */
  datatype Cons =
    | CIdle
    | CSeeking(o: nat, n: nat)
    | CReading(o: nat, n: nat, r: nat, c: Sptr, dst: seq<u8>, peek: bool)
    | CWalking(n: nat, prev: Sptr, c: Sptr, dst: seq<u8>, k: nat, a: nat, ooo: bool, headC: Sptr)
    | CCutting(n: nat, prev: Sptr, c: Sptr, dst: seq<u8>, k: nat, a: nat, ooo: bool, headC: Sptr)
    | CStoring(n: nat, dst: seq<u8>)

  /** Memory and shared fields, where the head in shr is the one the consumer goes by and head is
      the one it has stored; both lookups and the producer's list of segments; the pool; both
      sides; all bytes published, and all bytes read or dropped. The view, the segments whose
      bytes are written and the position of the stored head are history. */
  datatype State = State(
    mem: Memory, shr: Shared, head: u32, enq: Lookup, deq: Lookup, list: seq<Interval>, free: set<Sptr>, size: nat,
    prod: Prod, cons: Cons, sent: seq<u8>, taken: seq<u8>,
    v: View, segs: seq<Interval>, hd: int)

  datatype Action =
    | PLoad(src: seq<u8>)
    | PLoadAhead(o: nat, src: seq<u8>)
    | PFit
    | PFail
    | PGrow(m: Memory, first: Sptr, got: seq<Sptr>)
    | PLink
    | PSeek(m: Memory, t: Tree, c: Sptr, a: nat, b: nat, list: seq<Interval>)
    | PWrite
    | PMove
    | PRecord
    | PPublish(m: Memory, t: Tree, c: Sptr, a: nat, tl: int, list: seq<Interval>)
    | CLoad(len: nat)
    | CPeek(o: nat, len: nat)
    | CDrop(len: nat)
    | CSeek(m: Memory, t: Tree, c: Sptr, b: nat)
    | CRead
    | CMove
    | CDone
    | CPeeked
    | CWalk
    | CCut
    | CStore
    | Scribble(x: Sptr, chunk: Chunk)

  ghost function End(v: View): int
    requires |v.pos| == |v.chain| + 1
  {
    v.pos[|v.chain|]
  }

  /** m is mem with the chunks of got linked to a list and laid out from position p on. */
  ghost predicate Prepared(mem: Memory, m: Memory, first: Sptr, got: seq<Sptr>, p: int) {
    && m.Keys == mem.Keys && (forall x :: x in m && x !in got ==> m[x] == mem[x])
    && (forall x :: x in m ==> m[x].length == mem[x].length && |m[x].data| == |mem[x].data|)
    && got != [] && ListOk(m, first, got) && (forall x :: x in got ==> x in m)
    && (forall i: nat :: i < |got| ==> LaidOutAt(m, got, Layout(m, got, p), i))
  }

  ghost predicate NeedsMore(s: State, n: nat) {
    s.shr.endChunk in s.mem && n < TWO_32 && PosGt(Add(s.shr.tail, n), ChunkEnd(s.mem[s.shr.endChunk]))
  }

  /** The chunk includes the position, as f_chunk_includes_pos sees it. */
  ghost predicate Here(s: State, c: Sptr, at: u32, o: nat) {
    c in s.mem && o < TWO_32 && IncludesPos(s.mem[c], Add(at, o))
  }

  /** What f_try_chunk_alloc gets: enough when no more than the largest chunk is missing, and
      never much more than was asked for. */
  ghost predicate Granted(missing: int, total: nat) {
    (missing <= MAX_SIZE ==> missing <= total) && (total <= 4 * MAX_SIZE || total <= missing + MAX_SIZE)
  }

  /** What ooo_segment_add and f_update_ooo_enq make of the producer's list and lookup. */
  ghost predicate Sought(s: State, m: Memory, t: Tree, c: Sptr, a: nat, b: nat, l: seq<Interval>)
    requires s.prod.PSeeking?
  {
    var v, p, e := s.v, s.v.tl + s.prod.o, s.v.tl + s.prod.o + s.prod.n;
    && |v.pos| == |v.chain| + 1 && v.chain != [] && v.pos[0] <= p && e <= End(v)
    && Chain(m, v.chain, v.pos) && OnlyFlags(s.mem, m, v.chain, true) && c == ChunkFor(v.chain, v.pos, p)
    && Index(m, t, v.chain, v.pos, true, a, b) && Anchored(v, s.enq.init, a, b, e)
    && Canonical(l) && Added(s.list, l, p, e)
  }

  /** What ooo_segment_try_collect and f_lookup_clear_enq_chunks make of them. */
  ghost predicate Cleared(s: State, m: Memory, t: Tree, c: Sptr, a: nat, tl: int, l: seq<Interval>)
    requires s.prod.PWriting?
  {
    var v := s.v;
    && |v.pos| == |v.chain| + 1 && v.chain != [] && v.pos[0] <= tl
    && Canonical(l) && Collected(s.list, l, v.tl + s.prod.n, tl)
    && if s.list == [] then
         m == s.mem && t == s.enq.tree && a == v.enqFrom && c == s.prod.wc
       else
         && Chain(m, v.chain, v.pos) && OnlyFlags(s.mem, m, v.chain, true) && Index(m, t, v.chain, v.pos, true, a, v.enqTo)
         && c == ChunkFor(v.chain, v.pos, tl)
         && (a < v.enqTo ==> v.enqFrom < v.enqTo && a < |v.chain| && v.pos[a] <= tl < v.pos[a + 1])
         && (l == [] ==> a == v.enqTo)
  }

  /** What f_update_ooo_deq makes of the consumer's lookup. */
  ghost predicate Found(s: State, m: Memory, t: Tree, c: Sptr, b: nat)
    requires s.cons.CSeeking?
  {
    var v := s.v;
    && |v.pos| == |v.chain| + 1 && v.chain != [] && v.pos[0] <= s.hd + s.cons.o
    && Chain(m, v.chain, v.pos) && OnlyFlags(s.mem, m, v.chain, false) && c == ChunkFor(v.chain, v.pos, s.hd + s.cons.o)
    && Index(m, t, v.chain, v.pos, false, 0, b) && (b > 0 ==> s.deq.init)
  }

  /** The write is complete, and the chunk for the next position is known. */
  ghost predicate Finished(s: State) {
    && s.prod.PWriting? && s.prod.w == s.prod.n <= |s.prod.src| && s.prod.o + s.prod.n < TWO_32
    && (s.prod.wc == NULL || Here(s, s.prod.wc, s.shr.tail, s.prod.o + s.prod.n))
  }

  ghost predicate ReadDone(s: State) {
    && s.cons.CReading? && s.cons.r == s.cons.n && s.cons.o + s.cons.n < TWO_32
    && (s.cons.c == NULL || Here(s, s.cons.c, s.head, s.cons.o + s.cons.n))
  }

  ghost predicate EnabledProd(s: State, a: Action) {
    match a
    case PLoad(src) => s.prod.PIdle?
    case PLoadAhead(o, src) => s.prod.PIdle? && o > 0 && src != []
    case PFit => s.prod.PLoaded? && s.shr.endChunk in s.mem && !NeedsMore(s, s.prod.o + s.prod.n)
    case PFail => s.prod.PLoaded? && NeedsMore(s, s.prod.o + s.prod.n)
    case PGrow(m, first, got) =>
      && s.prod.PLoaded? && NeedsMore(s, s.prod.o + s.prod.n) && s.v.chain != [] && |s.v.pos| == |s.v.chain| + 1
      && (forall x :: x in got ==> x in s.free) && Prepared(s.mem, m, first, got, End(s.v))
      && Granted(s.v.tl + s.prod.o + s.prod.n - End(s.v), TotalLength(m, got))
    case PLink => s.prod.PAlloced? && s.shr.endChunk in s.mem && s.prod.got != [] && |s.prod.q| == |s.prod.got| + 1
    case PSeek(m, t, c, x, b, l) => s.prod.PSeeking? && Sought(s, m, t, c, x, b, l)
    case PWrite => s.prod.PWriting? && s.prod.w < s.prod.n <= |s.prod.src| && Here(s, s.prod.wc, s.shr.tail, s.prod.o + s.prod.w)
                   && Sub(Add(s.shr.tail, s.prod.o + s.prod.w), s.mem[s.prod.wc].start) < |s.mem[s.prod.wc].data|
    case PMove => s.prod.PWriting? && s.prod.wc in s.mem && !Here(s, s.prod.wc, s.shr.tail, s.prod.o + s.prod.w)
    case PRecord => Finished(s) && s.prod.o > 0
    case PPublish(m, t, c, x, tl, l) => Finished(s) && s.prod.o == 0 && Cleared(s, m, t, c, x, tl, l)
    case _ => false
  }

  ghost predicate EnabledCons(s: State, a: Action) {
    match a
    case CLoad(len) => s.cons.CIdle? && s.deq.tree == Nil
    case CPeek(o, len) => s.cons.CIdle? && o < Sub(s.shr.tail, s.head)
    case CDrop(len) => s.cons.CIdle? && s.shr.startChunk in s.mem
    case CSeek(m, t, c, b) => s.cons.CSeeking? && Found(s, m, t, c, b)
    case CRead => s.cons.CReading? && s.cons.r < s.cons.n && Here(s, s.cons.c, s.head, s.cons.o + s.cons.r)
                  && Sub(Add(s.head, s.cons.o + s.cons.r), s.mem[s.cons.c].start) < |s.mem[s.cons.c].data|
    case CMove => s.cons.CReading? && s.cons.c in s.mem && !Here(s, s.cons.c, s.head, s.cons.o + s.cons.r)
    case CDone => ReadDone(s) && !s.cons.peek && s.shr.startChunk in s.mem
    case CPeeked => ReadDone(s) && s.cons.peek
    case CWalk => s.cons.CWalking? && s.cons.c in s.mem
    case CCut => s.cons.CCutting? && s.cons.c in s.mem && s.cons.n < TWO_32 && (s.cons.prev == NULL || s.cons.prev in s.mem)
                 && s.cons.k < |s.v.chain| && s.cons.k <= |s.v.pos|
    case CStore => s.cons.CStoring?
    case _ => false
  }

  ghost predicate Enabled(s: State, a: Action) {
    if a.Scribble? then
      a.x in s.free && a.x in s.mem && a.chunk.length == s.mem[a.x].length && |a.chunk.data| == |s.mem[a.x].data|
    else
      EnabledProd(s, a) || EnabledCons(s, a)
  }

  /** What is recorded at a position that is written again; a position not recorded stays so. */
  ghost function Rewrite(log: Log, p: int, b: u8): Log {
    if p in log then log[p := b] else log
  }

  /** A byte written. */
  ghost function Written(s: State): State
    requires EnabledProd(s, PWrite)
  {
    var p := s.prod;
    s.(mem := Store(s.mem, p.wc, Sub(Add(s.shr.tail, p.o + p.w), s.mem[p.wc].start), [p.src[p.w]]),
       v := s.v.(log := Rewrite(s.v.log, s.v.tl + p.o + p.w, p.src[p.w])), prod := p.(w := p.w + 1))
  }

  /** Where the producer goes once the chain has room. */
  ghost function Ready(s: State, tailC: Sptr): Prod
    requires s.prod.PLoaded? || s.prod.PAlloced?
  {
    if s.prod.o == 0 then PWriting(s.prod.src, s.prod.n, 0, 0, tailC) else PSeeking(s.prod.src, s.prod.n, s.prod.o)
  }

  /** The new chunks hang on the end of the chain. */
  ghost function Linked(s: State): State
    requires EnabledProd(s, PLink)
  {
    var p, end := s.prod, s.shr.endChunk;
    var shr := GrownShared(s.shr, p.first, p.got[|p.got| - 1]);
    s.(mem := s.mem[end := s.mem[end].(next := p.first)], shr := shr,
       v := s.v.(chain := s.v.chain + p.got, pos := s.v.pos + p.q[1..]), prod := Ready(s, shr.tailChunk))
  }

  ghost function ApplyProd(s: State, a: Action): State
    requires EnabledProd(s, a)
  {
    match a
    case PLoad(src) =>
      var n := Least(|src|, s.size - Sub(s.shr.tail, s.head));
      s.(prod := if n <= 0 then PIdle else PLoaded(src, n, 0))
    case PLoadAhead(o, src) =>
      s.(prod := if o + |src| > s.size - Sub(s.shr.tail, s.head) then PIdle else PLoaded(src, |src|, o))
    case PFit => s.(prod := Ready(s, s.shr.tailChunk))
    case PFail =>
      var n := Sub(ChunkEnd(s.mem[s.shr.endChunk]), s.shr.tail);
      s.(prod := if n == 0 || s.prod.o > 0 then PIdle else PWriting(s.prod.src, n, 0, 0, s.shr.tailChunk))
    case PGrow(m, first, got) =>
      s.(mem := m, free := s.free - (set x | x in got),
         prod := PAlloced(s.prod.src, s.prod.n, s.prod.o, first, got, Layout(m, got, End(s.v))))
    case PLink => Linked(s)
    case PSeek(m, t, c, x, b, l) =>
      s.(mem := m, enq := s.enq.(tree := t, cached := c), list := l, v := s.v.(enqFrom := x, enqTo := b),
         prod := PWriting(s.prod.src, s.prod.n, s.prod.o, 0, c))
    case PWrite => Written(s)
    case PMove => s.(prod := s.prod.(wc := s.mem[s.prod.wc].next))
    case PRecord =>
      s.(enq := s.enq.(cached := s.prod.wc), segs := s.list, prod := PIdle,
         v := s.v.(log := Overlay(s.v.log, s.v.tl + s.prod.o, s.prod.src[..s.prod.n])))
    case PPublish(m, t, c, x, tl, l) =>
      var log := Overlay(s.v.log, s.v.tl, s.prod.src[..s.prod.n]);
      s.(mem := m, enq := s.enq.(tree := t, cached := if s.list == [] then s.enq.cached else NULL), list := l, segs := l, prod := PIdle,
         shr := s.shr.(tail := Wrap(tl), tailChunk := c), v := s.v.(log := log, tl := tl, enqFrom := x),
         sent := s.sent + if tl >= s.v.tl then Bytes(log, s.v.tl, tl - s.v.tl) else [])
  }

  /** The consumer's own head moves on; what is left is to store it. */
  ghost function Moved(s: State, n: nat, dst: seq<u8>, headC: Sptr): State
    requires n < TWO_32
  {
    s.(shr := s.shr.(head := Add(s.head, n), headChunk := headC), v := s.v.(hd := s.hd + n), cons := CStoring(n, dst))
  }

  /** Whether the new head has left the start chunk. */
  ghost predicate Leaves(s: State, n: nat)
    requires s.shr.startChunk in s.mem && n < TWO_32
  {
    PosGeq(Add(s.head, n), ChunkEnd(s.mem[s.shr.startChunk]))
  }

  /** One step of the walk of f_unlink_chunks: the chunk leaves the dequeue tree if it is in it,
      and the next one is looked at. */
  ghost function Walked(s: State): State
    requires EnabledCons(s, CWalk)
  {
    var c := s.cons;
    var chunk := s.mem[c.c];
    var del := c.ooo && chunk.deq;
    var a := if del then c.a + 1 else c.a;
    var s1 := if del then s.(mem := s.mem[c.c := chunk.(deq := false)], deq := s.deq.(tree := Delete(s.deq.tree, chunk.start))) else s;
    s1.(cons :=
          if chunk.next == NULL then
            CCutting(c.n, c.prev, c.c, c.dst, c.k, a, c.ooo, c.headC)
          else if Here(s, chunk.next, s.head, c.n) then
            CCutting(c.n, c.c, chunk.next, c.dst, c.k + 1, a, c.ooo, c.headC)
          else
            CWalking(c.n, c.c, chunk.next, c.dst, c.k + 1, a, c.ooo, c.headC))
  }

  /** The chunks before the one that the walk has reached are cut off and go to the pool, the
      cached chunk is kept or forgotten, and the consumer's own head moves on. */
  ghost function CutChunks(s: State): State
    requires EnabledCons(s, CCut)
  {
    var c := s.cons;
    var keep := c.ooo && s.deq.cached != NULL && s.deq.cached in s.mem && !PosLt(s.mem[s.deq.cached].start, ChunkEnd(s.mem[c.c]));
    var headC := if c.ooo then if IncludesPos(s.mem[c.c], Add(s.head, c.n)) then c.c else NULL else c.headC;
    var d := if c.a < s.v.deqTo && c.k <= s.v.deqTo then s.v.deqTo - c.k else 0;
    s.(mem := if c.prev == NULL then s.mem else s.mem[c.prev := s.mem[c.prev].(next := NULL)],
       shr := s.shr.(startChunk := c.c, headChunk := headC, head := Add(s.head, c.n)),
       deq := s.deq.(cached := if keep then s.deq.cached else NULL),
       free := s.free + (set x | x in s.v.chain[..c.k]), v := Dropped(s.v, c.k, s.hd + c.n, d), cons := CStoring(c.n, c.dst))
  }

  ghost function ApplyCons(s: State, a: Action): State
    requires EnabledCons(s, a)
  {
    match a
    case CLoad(len) =>
      var n := Least(len, Sub(s.shr.tail, s.head));
      s.(cons := if n <= 0 then CIdle else CReading(0, n, 0, if s.shr.headChunk == NULL then s.shr.startChunk else s.shr.headChunk, [], false))
    case CPeek(o, len) => s.(cons := CSeeking(o, Least(len, Sub(s.shr.tail, s.head) - o)))
    case CDrop(len) =>
      var n := Least(len, Sub(s.shr.tail, s.head));
      if n <= 0 then s
      else if Leaves(s, n) then
        s.(cons := CWalking(n, NULL, s.shr.startChunk, Bytes(s.v.log, s.hd, n), 0, 0, true, NULL))
      else
        Moved(s, n, Bytes(s.v.log, s.hd, n), s.shr.headChunk)
    case CSeek(m, t, c, b) =>
      s.(mem := m, deq := s.deq.(tree := t, cached := c), v := s.v.(deqTo := b), cons := CReading(s.cons.o, s.cons.n, 0, c, [], true))
    case CRead =>
      var c := s.cons;
      s.(cons := c.(r := c.r + 1, dst := c.dst + [s.mem[c.c].data[Sub(Add(s.head, c.o + c.r), s.mem[c.c].start)]]))
    case CMove => s.(cons := CReading(s.cons.o, s.cons.n, s.cons.r, s.mem[s.cons.c].next, s.cons.dst, s.cons.peek))
    case CDone =>
      var c := s.cons;
      if Leaves(s, c.n) then
        s.(cons := CWalking(c.n, NULL, s.shr.startChunk, c.dst, 0, 0, false, c.c))
      else
        Moved(s, c.n, c.dst, c.c)
    case CPeeked => s.(deq := s.deq.(cached := s.cons.c), cons := CIdle)
    case CWalk => Walked(s)
    case CCut => CutChunks(s)
    case CStore => s.(head := s.shr.head, hd := s.v.hd, taken := s.taken + s.cons.dst, cons := CIdle)
  }

  ghost function Apply(s: State, a: Action): State
    requires Enabled(s, a)
  {
    if a.Scribble? then s.(mem := s.mem[a.x := a.chunk]) else if EnabledProd(s, a) then ApplyProd(s, a) else ApplyCons(s, a)
  }

  /** Chunk c of the chain reaches from at most p to at least p. */
  ghost predicate Around(v: View, c: Sptr, p: int) {
    exists i: nat :: i < |v.chain| && i + 1 < |v.pos| && AroundAt(v, c, p, i)
  }

  ghost predicate AroundAt(v: View, c: Sptr, p: int, i: nat)
    requires i < |v.chain| && i + 1 < |v.pos|
  {
    c == v.chain[i] && v.pos[i] <= p <= v.pos[i + 1]
  }

  /** Chunk c of the chain starts by p. */
  ghost predicate StartsBy(v: View, c: Sptr, p: int) {
    exists i: nat :: i < |v.chain| <= |v.pos| && StartsByAt(v, c, p, i)
  }

  ghost predicate StartsByAt(v: View, c: Sptr, p: int, i: nat)
    requires i < |v.chain| <= |v.pos|
  {
    c == v.chain[i] && v.pos[i] <= p
  }

  ghost predicate EnqOk(s: State) {
    EnqSide(s.mem, s.enq.tree, s.enq.init, s.v.chain, s.v.pos, s.v.enqFrom, s.v.enqTo, s.v.tl, s.list, s.enq.cached)
  }

  ghost predicate StreamOk(s: State) {
    Stream(s.mem, s.v.chain, s.v.pos, s.v.log, s.v.hd, s.v.tl, s.size, s.segs)
  }

  ghost predicate PointersOk(s: State) {
    Pointers(s.v.chain, s.v.pos, s.v.hd, s.v.tl, s.shr.startChunk, s.shr.endChunk, s.shr.headChunk, s.shr.tailChunk, s.shr.head, s.shr.tail)
  }

  /** The stream is stored, the shared fields say where, and the stored head is behind. */
  ghost predicate Base(s: State) {
    && StreamOk(s) && PointersOk(s) && EnqOk(s) && WellSized(s.mem) && NULL !in s.mem
    && s.head == Wrap(s.hd) && 0 <= s.hd <= s.v.hd && s.v.tl <= s.hd + s.size && Beyond(s.segs, s.v.tl, s.hd + s.size)
  }

  /** The bytes published and read are those at the positions before the tail and before the head. */
  ghost predicate Books(s: State) {
    && 0 <= s.hd <= s.v.tl && (forall p :: 0 <= p < s.v.tl ==> p in s.v.log)
    && s.sent == Bytes(s.v.log, 0, s.v.tl) && s.taken == Bytes(s.v.log, 0, s.hd)
  }

  ghost function Private(p: Prod): seq<Sptr> {
    if p.PAlloced? then p.got else []
  }

  /** Every chunk is in the chain, in the pool or with the producer, and in only one of them. */
  ghost predicate Pool(s: State) {
    && (forall x :: x in s.mem <==> x in s.v.chain || x in s.free || x in Private(s.prod))
    && (forall x :: x in s.free ==> x !in s.v.chain && x !in Private(s.prod))
    && (forall x :: x in Private(s.prod) ==> x !in s.v.chain)
  }

  /** A list that can be linked to the end of the chain. */
  ghost predicate Linkable(mem: Memory, first: Sptr, got: seq<Sptr>, q: seq<int>, end: int) {
    && got != [] && ListOk(mem, first, got) && |q| == |got| + 1 && q[0] == end
    && (forall i: nat :: i < |got| ==> LaidOutAt(mem, got, q, i))
    && (forall i: nat :: i < |got| ==> ExtentAt(mem, got, q, i))
  }

  /** A write of n bytes of src at offset o that the fifo has room for. */
  ghost predicate RoomFor(src: seq<u8>, n: nat, o: nat, room: int) {
    0 < n <= |src| && (o > 0 ==> n == |src|) && o + n <= room
  }

  /** The chain reaches to the end of the write. A growth by more than the largest chunk can be
      too short, which a fifo of at most that size never asks for. */
  ghost predicate Covered(s: State) {
    s.prod.PSeeking? || s.prod.PWriting? ==> |s.v.pos| == |s.v.chain| + 1 && s.v.tl + s.prod.o + s.prod.n <= End(s.v)
  }

  ghost predicate ProdOk(s: State)
    requires |s.v.pos| == |s.v.chain| + 1
  {
    && (s.size <= MAX_SIZE ==> Covered(s))
    && match s.prod
       case PIdle => s.list == s.segs
       case PLoaded(src, n, o) => s.list == s.segs && RoomFor(src, n, o, s.hd + s.size - s.v.tl)
       case PAlloced(src, n, o, first, got, q) =>
         && s.list == s.segs && RoomFor(src, n, o, s.hd + s.size - s.v.tl) && Linkable(s.mem, first, got, q, End(s.v))
         && q[|got|] <= s.hd + Reach(s.size) && (s.size <= MAX_SIZE ==> s.v.tl + o + n <= q[|got|])
       case PSeeking(src, n, o) => s.list == s.segs && RoomFor(src, n, o, s.hd + s.size - s.v.tl) && o > 0
       case PWriting(src, n, o, w, wc) =>
         && RoomFor(src, n, o, s.hd + s.size - s.v.tl) && w <= n && s.v.tl + o + w <= End(s.v)
         && Holds(s.mem, s.v.chain, s.v.pos, Overlay(s.v.log, s.v.tl + o, src[..w]))
         && (if wc == NULL then s.v.tl + o + w == End(s.v) else Around(s.v, wc, s.v.tl + o + w))
         && (o == 0 && w == 0 ==> wc == s.shr.tailChunk)
         && (if o == 0 then s.list == s.segs else Canonical(s.list) && Added(s.segs, s.list, s.v.tl + o, s.v.tl + o + n) && s.v.tl + o + n <= End(s.v))
  }

  /** The walk of f_unlink_chunks has come to the k-th chunk. */
  ghost predicate WalkAt(s: State, n: nat, prev: Sptr, c: Sptr, dst: seq<u8>, k: nat, a: nat, headC: Sptr) {
    var v := s.v;
    && v.hd == s.hd && s.hd + n <= v.tl && n > 0 && dst == Bytes(v.log, s.hd, n)
    && k < |v.chain| && |v.pos| == |v.chain| + 1 && c == v.chain[k] && prev == (if k == 0 then NULL else v.chain[k - 1])
    && v.pos[0] <= s.hd && (headC == NULL || headC == ChunkFor(v.chain, v.pos, s.hd + n))
    && Index(s.mem, s.deq.tree, v.chain, v.pos, false, a, v.deqTo) && (a < v.deqTo ==> s.deq.init)
    && (s.deq.cached == NULL || s.deq.cached in v.chain)
  }

  ghost predicate ConsOk(s: State) {
    match s.cons
    case CIdle => s.v.hd == s.hd && DeqInv(s.mem, s.v, s.deq)
    case CSeeking(o, n) => s.v.hd == s.hd && DeqInv(s.mem, s.v, s.deq) && s.hd + o < s.v.tl && s.hd + o + n <= s.v.tl
    case CReading(o, n, r, c, dst, peek) =>
      && s.v.hd == s.hd && DeqInv(s.mem, s.v, s.deq) && (!peek ==> o == 0 && n > 0 && s.deq.tree == Nil)
      && r <= n && s.hd + o < s.v.tl && s.hd + o + n <= s.v.tl && dst == Bytes(s.v.log, s.hd + o, r)
      && (c == NULL ==> r == n && r > 0) && (c != NULL && r > 0 ==> Around(s.v, c, s.hd + o + r)) && (r == 0 ==> StartsBy(s.v, c, s.hd + o))
      && (peek && r == 0 ==> Around(s.v, c, s.hd + o))
    case CWalking(n, prev, c, dst, k, a, ooo, headC) =>
      WalkAt(s, n, prev, c, dst, k, a, headC) && s.v.pos[k + 1] <= s.hd + n && (a < s.v.deqTo ==> a == k) && (!ooo ==> s.deq.tree == Nil)
    case CCutting(n, prev, c, dst, k, a, ooo, headC) =>
      WalkAt(s, n, prev, c, dst, k, a, headC) && s.v.pos[k] <= s.hd + n <= s.v.pos[k + 1] && (a < s.v.deqTo ==> a == k) && (!ooo ==> s.deq.tree == Nil)
    case CStoring(n, dst) =>
      s.v.hd == s.hd + n && s.v.hd <= s.v.tl && dst == Bytes(s.v.log, s.hd, n) && DeqInv(s.mem, s.v, s.deq)
  }

  ghost predicate Sound(s: State) {
    |s.v.pos| == |s.v.chain| + 1 && Base(s) && Books(s) && Pool(s) && ProdOk(s) && ConsOk(s)
  }

  lemma Numbers(s: State)
    requires Sound(s)
    ensures Chain(s.mem, s.v.chain, s.v.pos) && Holds(s.mem, s.v.chain, s.v.pos, s.v.log) && s.v.chain != [] && |s.v.pos| == |s.v.chain| + 1
    ensures s.v.pos[0] <= s.v.hd <= s.v.pos[1] && 0 <= s.hd <= s.v.hd <= s.v.tl <= End(s.v) && s.v.pos[0] < s.v.pos[1] <= End(s.v) < s.v.pos[0] + TWO_31
    ensures 0 < s.size <= MAX_FIFO < TWO_31 < TWO_32 && s.v.tl <= s.hd + s.size && s.v.pos[1] - s.v.pos[0] <= MAX_SIZE
    ensures s.shr.startChunk == s.v.chain[0] && s.shr.endChunk == s.v.chain[|s.v.chain| - 1] && s.shr.startChunk in s.mem && s.shr.endChunk in s.mem
    ensures s.shr.tail == Wrap(s.v.tl) && s.shr.head == Wrap(s.v.hd) && s.head == Wrap(s.hd) && Sub(s.shr.tail, s.head) == s.v.tl - s.hd
    ensures ChunkEnd(s.mem[s.shr.endChunk]) == Wrap(End(s.v)) && ChunkEnd(s.mem[s.shr.startChunk]) == Wrap(s.v.pos[1])
    ensures Sub(ChunkEnd(s.mem[s.shr.endChunk]), s.shr.tail) == End(s.v) - s.v.tl
    ensures End(s.v) - s.v.hd <= Reach(s.size) < TWO_31 - 2 * MAX_SIZE && WellSized(s.mem) && NULL !in s.mem
  {
    hide StreamOk, PointersOk, EnqOk, Books, Pool, ProdOk, ConsOk, Chain, Holds, ChunkEnd, Sub, Wrap;
    Core(s);
    ChainAscending(s.mem, s.v.chain, s.v.pos);
    ChainAt(s.mem, s.v.chain, s.v.pos, 0);
    SubWraps(s.hd, s.v.tl);
  }

  lemma Core(s: State)
    requires StreamOk(s) && PointersOk(s)
    ensures Chain(s.mem, s.v.chain, s.v.pos) && Holds(s.mem, s.v.chain, s.v.pos, s.v.log) && s.v.chain != [] && |s.v.pos| == |s.v.chain| + 1
    ensures s.v.pos[0] <= s.v.hd <= s.v.pos[1] && s.v.hd <= s.v.tl <= End(s.v) && s.v.pos[0] < End(s.v) < s.v.pos[0] + TWO_31 && 0 < s.size <= MAX_FIFO
    ensures End(s.v) - s.v.hd <= Reach(s.size) && s.shr.tail == Wrap(s.v.tl) && s.shr.head == Wrap(s.v.hd)
    ensures s.shr.endChunk == s.v.chain[|s.v.chain| - 1] && s.shr.endChunk in s.mem && ChunkEnd(s.mem[s.shr.endChunk]) == Wrap(End(s.v))
    ensures s.shr.startChunk == s.v.chain[0] && s.shr.startChunk in s.mem && ChunkEnd(s.mem[s.shr.startChunk]) == Wrap(s.v.pos[1])
    ensures Sub(ChunkEnd(s.mem[s.shr.endChunk]), s.shr.tail) == End(s.v) - s.v.tl && s.mem[s.shr.startChunk].length == s.v.pos[1] - s.v.pos[0]
  {
    hide Stream, Pointers, Chain, Holds, ChunkEnd, Sub, Wrap, Canonical, Within;
    CoreFacts(s.mem, s.v, s.shr, s.size, s.segs);
  }

  /** The links and bounds of the i-th chunk. */
  lemma NextInChain(s: State, i: nat)
    requires Sound(s) && i < |s.v.chain|
    ensures s.v.chain[i] in s.mem && s.v.chain[i] != NULL && s.mem[s.v.chain[i]].next == Nth(s.v.chain, i + 1)
    ensures s.v.pos[0] <= s.v.pos[i] < s.v.pos[i + 1] <= End(s.v) && s.mem[s.v.chain[i]].start == Wrap(s.v.pos[i])
  {
    hide *;
    Numbers(s);
    EndIs(s.v);
    LinkOf(s.mem, s.v.chain, s.v.pos, i);
  }

  lemma EndIs(v: View)
    requires |v.pos| == |v.chain| + 1
    ensures End(v) == v.pos[|v.chain|]
  {
  }

  lemma LinkOf(mem: Memory, chain: seq<Sptr>, pos: seq<int>, i: nat)
    requires Chain(mem, chain, pos) && i < |chain|
    ensures |pos| == |chain| + 1 && pos[0] <= pos[i] < pos[i + 1] <= pos[|chain|]
    ensures chain[i] in mem && chain[i] != NULL && mem[chain[i]].next == Nth(chain, i + 1) && mem[chain[i]].start == Wrap(pos[i])
  {
    hide Chain;
    ChainAt(mem, chain, pos, i);
  }

  /** What f_chunk_includes_pos says of a chunk of the chain. */
  lemma HereIs(s: State, i: nat, at: u32, base: int, o: nat)
    requires Sound(s) && i < |s.v.chain| && at == Wrap(base) && s.v.pos[0] <= base + o < s.v.pos[0] + TWO_31 && o < TWO_32
    ensures s.v.chain[i] in s.mem && (Here(s, s.v.chain[i], at, o) <==> s.v.pos[i] <= base + o < s.v.pos[i + 1]) && Add(at, o) == Wrap(base + o)
  {
    hide Sound, IncludesPos, Add, Chain, Wrap, Sub, ChunkEnd;
    Numbers(s);
    AddWraps(base, o);
    Includes(s.mem, s.v.chain, s.v.pos, i, base + o);
  }

  /** When the producer must grow the chain. */
  lemma NeedsMoreIs(s: State, n: nat)
    requires Sound(s) && s.v.tl + n <= s.hd + s.size
    ensures n < TWO_32 && (NeedsMore(s, n) <==> s.v.tl + n > End(s.v))
  {
    hide Sound, Chain, ChunkEnd, PosGt, Add, Sub, Wrap, Reach;
    Numbers(s);
    AddWraps(s.v.tl, n);
    Compare(s.v.tl + n, End(s.v));
  }

  /** A list that the producer has prepared survives changes to other chunks. */
  lemma LinkableSame(mem: Memory, m: Memory, first: Sptr, got: seq<Sptr>, q: seq<int>, end: int)
    requires Linkable(mem, first, got, q, end) && SameOn(mem, m, got)
    ensures Linkable(m, first, got, q, end)
  {
    hide ListOk;
    ListFrame(mem, m, first, got);
    forall i: nat | i < |got| ensures LaidOutAt(m, got, q, i) && ExtentAt(m, got, q, i) {
      assert got[i] in got && LaidOutAt(mem, got, q, i) && ExtentAt(mem, got, q, i);
    }
  }

  lemma HoldsSame(mem: Memory, m: Memory, chain: seq<Sptr>, pos: seq<int>, log: Log)
    requires |chain| <= |pos| && Holds(mem, chain, pos, log) && SameOn(mem, m, chain)
    ensures Holds(m, chain, pos, log)
  {
    forall i: nat | i < |chain| ensures HoldsAt(m, chain, pos, log, i) {
      assert chain[i] in chain && HoldsAt(mem, chain, pos, log, i);
    }
  }

  /** What the producer knows survives a change to chunks that are neither in the chain nor its own. */
  lemma ProdSame(s: State, m: Memory)
    requires |s.v.pos| == |s.v.chain| + 1 && ProdOk(s) && SameOn(s.mem, m, s.v.chain) && SameOn(s.mem, m, Private(s.prod))
    ensures ProdOk(s.(mem := m))
  {
    hide Linkable, Holds, Around, Overlay, SameOn, Canonical, Added, Reach;
    if s.prod.PAlloced? {
      LinkableSame(s.mem, m, s.prod.first, s.prod.got, s.prod.q, End(s.v));
    } else if s.prod.PWriting? {
      HoldsSame(s.mem, m, s.v.chain, s.v.pos, Overlay(s.v.log, s.v.tl + s.prod.o, s.prod.src[..s.prod.w]));
    }
  }

  /** What does not depend on the producer's own state and the pool. */
  lemma PartsFor(s: State, p: Prod, free: set<Sptr>)
    ensures Base(s) ==> Base(s.(prod := p, free := free))
    ensures ConsOk(s) ==> ConsOk(s.(prod := p, free := free))
    ensures Books(s) ==> Books(s.(prod := p, free := free))
  {
    hide Stream, Pointers, EnqSide, DeqSide, Index, Bytes, Around, StartsBy, ChunkFor, KeptFrom, WellSized;
  }

  lemma SoundIs(s: State)
    requires |s.v.pos| == |s.v.chain| + 1 && Base(s) && Books(s) && Pool(s) && ProdOk(s) && ConsOk(s)
    ensures Sound(s)
  {
  }

  lemma Parts(s: State)
    requires Sound(s)
    ensures |s.v.pos| == |s.v.chain| + 1 && ProdOk(s) && Base(s) && Pool(s) && ConsOk(s) && Books(s)
    ensures StreamOk(s) && PointersOk(s) && EnqOk(s)
  {
    hide StreamOk, PointersOk, EnqOk, WellSized, Books, Pool, ProdOk, ConsOk;
  }

  lemma ChunkForAround(mem: Memory, v: View, p: int)
    requires Chain(mem, v.chain, v.pos) && v.chain != [] && |v.pos| == |v.chain| + 1 && v.pos[0] <= p <= End(v)
    ensures ChunkFor(v.chain, v.pos, p) == NULL <==> p == End(v)
    ensures ChunkFor(v.chain, v.pos, p) != NULL ==> Around(v, ChunkFor(v.chain, v.pos, p), p) && StartsBy(v, ChunkFor(v.chain, v.pos, p), p)
  {
    hide Chain;
    ChunkForNull(mem, v.chain, v.pos, p);
    if p < End(v) {
      var i := Find(v.pos, p);
      assert AroundAt(v, v.chain[i], p, i) && StartsByAt(v, v.chain[i], p, i);
    }
  }

  /** An index depends only on the flags of the chunks. */
  lemma IndexFlags(mem: Memory, m: Memory, t: Tree, chain: seq<Sptr>, pos: seq<int>, enq: bool, a: nat, b: nat)
    requires Index(mem, t, chain, pos, enq, a, b)
    requires forall x :: x in chain ==> x in mem && x in m && Flag(m[x], enq) == Flag(mem[x], enq)
    ensures Index(m, t, chain, pos, enq, a, b)
  {
    hide TreeIs;
    forall i: nat | i < |chain| ensures chain[i] in m && (Flag(m[chain[i]], enq) <==> a <= i < b) {
      assert chain[i] in chain;
    }
  }

  lemma StreamMem(mem: Memory, m: Memory, chain: seq<Sptr>, pos: seq<int>, log: Log, log': Log, hd: int, tl: int, size: nat, segs: seq<Interval>)
    requires Stream(mem, chain, pos, log, hd, tl, size, segs)
    requires Chain(m, chain, pos) && Holds(m, chain, pos, log') && log'.Keys == log.Keys
    ensures Stream(m, chain, pos, log', hd, tl, size, segs)
  {
    hide Chain, Holds, Canonical, Beyond;
    assert forall p :: p in log <==> p in log';
  }

  /** The logs agree before p. */
  ghost predicate Agree(log: Log, log': Log, p: int) {
    forall q :: q < p ==> (q in log <==> q in log') && (q in log ==> log[q] == log'[q])
  }

  lemma BytesAgree(log: Log, log': Log, tl: int, p: int, n: nat)
    requires Agree(log, log', tl) && p + n <= tl
    ensures Bytes(log, p, n) == Bytes(log', p, n)
  {
  }

  /** What the consumer knows depends on the bytes before the tail and on its own flags. */
  lemma ConsFrame(s: State, s': State)
    requires ConsOk(s) && s'.cons == s.cons && s'.deq == s.deq && s'.hd == s.hd
    requires s'.v.chain == s.v.chain && s'.v.pos == s.v.pos && s'.v.hd == s.v.hd && s'.v.deqTo == s.v.deqTo
    requires s.v.tl <= s'.v.tl && Agree(s.v.log, s'.v.log, s.v.tl)
    requires forall x :: x in s.v.chain ==> x in s.mem && x in s'.mem && s'.mem[x].deq == s.mem[x].deq
    ensures ConsOk(s')
  {
    hide Index, Bytes, Around, StartsBy, ChunkFor, Agree;
    var c, log, log', tl, hd := s.cons, s.v.log, s'.v.log, s.v.tl, s.hd;
    if c.CWalking? || c.CCutting? {
      IndexFlags(s.mem, s'.mem, s.deq.tree, s.v.chain, s.v.pos, false, c.a, s.v.deqTo);
      BytesAgree(log, log', tl, hd, c.n);
    } else {
      IndexFlags(s.mem, s'.mem, s.deq.tree, s.v.chain, s.v.pos, false, 0, s.v.deqTo);
      if c.CReading? {
        BytesAgree(log, log', tl, hd + c.o, c.r);
      } else if c.CStoring? {
        BytesAgree(log, log', tl, hd, c.n);
      }
    }
    AroundFrame(s.v, s'.v);
  }

  lemma AroundFrame(v: View, v': View)
    requires v'.chain == v.chain && v'.pos == v.pos
    ensures forall c, p :: Around(v', c, p) == Around(v, c, p)
    ensures forall c, p :: StartsBy(v', c, p) == StartsBy(v, c, p)
  {
    forall c, p ensures Around(v', c, p) == Around(v, c, p) && StartsBy(v', c, p) == StartsBy(v, c, p) {
      assert forall i: nat :: i < |v.chain| && i + 1 < |v.pos| ==> AroundAt(v', c, p, i) == AroundAt(v, c, p, i);
      assert forall i: nat :: i < |v.chain| <= |v.pos| ==> StartsByAt(v', c, p, i) == StartsByAt(v, c, p, i);
    }
  }

  lemma BooksFrame(s: State, s': State)
    requires Books(s) && s'.hd == s.hd && s'.v.tl == s.v.tl && s'.sent == s.sent && s'.taken == s.taken && Agree(s.v.log, s'.v.log, s.v.tl)
    ensures Books(s')
  {
    hide Bytes;
    BytesAgree(s.v.log, s'.v.log, s.v.tl, 0, s.v.tl);
    BytesAgree(s.v.log, s'.v.log, s.v.tl, 0, s.hd);
  }

  lemma EnqFrame(s: State, s': State)
    requires EnqOk(s) && s'.enq == s.enq && s'.list == s.list
    requires s'.v.chain == s.v.chain && s'.v.pos == s.v.pos && s'.v.tl == s.v.tl && s'.v.enqFrom == s.v.enqFrom && s'.v.enqTo == s.v.enqTo
    requires forall x :: x in s.v.chain ==> x in s.mem && x in s'.mem && s'.mem[x].enq == s.mem[x].enq
    ensures EnqOk(s')
  {
    hide Index, NotPast;
    IndexFlags(s.mem, s'.mem, s.enq.tree, s.v.chain, s.v.pos, true, s.v.enqFrom, s.v.enqTo);
  }
}
