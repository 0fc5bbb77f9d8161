/** The stream that a fifo holds, and what each operation on it keeps: positions up to the
    tail and those of the out-of-order segments are written, and every one of them is stored
    in the chunk that holds it (src/svm/svm_fifo.c). */
module FifoState {
  import opened Position
  import opened OooSegments
  import opened Chunks
  import opened SizeClasses
  import opened FreeLists
  import opened SegmentState
  import opened ChunkTree
  import opened ChunkIndex
  import opened Chains

  /** From the head on, the written positions are those before the tail and those of the segments. */
  ghost predicate Logged(log: Log, hd: int, tl: int, segs: seq<Interval>) {
    forall p :: hd <= p ==> (p in log <==> p < tl || Covers(segs, p))
  }

  /** The segments lie strictly beyond the tail and end by limit. */
  ghost predicate Beyond(segs: seq<Interval>, tl: int, limit: int) {
    forall i :: 0 <= i < |segs| ==> tl < segs[i].lo && segs[i].hi <= limit
  }

  /** The largest fifo whose positions stand less than 2^31 apart whatever it has allocated. */
  const MAX_FIFO: nat := 0x7E00_0000

  /** How far past its head the chain of a fifo can reach. */
  function Reach(size: nat): nat {
    size + 4 * MAX_SIZE
  }

  ghost predicate Stream(mem: Memory, chain: seq<Sptr>, pos: seq<int>, log: Log, hd: int, tl: int, size: nat, segs: seq<Interval>) {
    && Chain(mem, chain, pos) && Holds(mem, chain, pos, log)
    && 0 < size <= MAX_FIFO
    && pos[0] <= hd <= pos[1] && hd <= tl <= pos[|chain|] && tl - hd <= size
    && pos[|chain|] - hd <= Reach(size)
    && Canonical(segs) && Beyond(segs, tl, pos[|chain|]) && Beyond(segs, tl, hd + size)
    && Logged(log, hd, tl, segs)
    && (forall p :: p in log ==> p < pos[|chain|])
  }

  lemma StreamFacts(mem: Memory, chain: seq<Sptr>, pos: seq<int>, log: Log, hd: int, tl: int, size: nat, segs: seq<Interval>)
    requires Stream(mem, chain, pos, log, hd, tl, size, segs)
    ensures Chain(mem, chain, pos) && Holds(mem, chain, pos, log) && Canonical(segs)
    ensures chain != [] && |pos| == |chain| + 1 && 0 < size <= MAX_FIFO
    ensures pos[0] <= hd <= pos[1] && hd <= tl <= pos[|chain|] && tl - hd <= size
    ensures pos[|chain|] - hd <= Reach(size) && pos[|chain|] < pos[0] + TWO_31
    ensures Within(segs, tl + 1, hd + size) && Within(segs, tl + 1, pos[|chain|])
  {
  }

  /** Everything from the head to the tail is written. */
  lemma Readable(mem: Memory, chain: seq<Sptr>, pos: seq<int>, log: Log, hd: int, tl: int, size: nat, segs: seq<Interval>, p: int, n: nat)
    requires Stream(mem, chain, pos, log, hd, tl, size, segs) && hd <= p && p + n <= tl
    ensures Recorded(log, p, n)
  {
  }

  /** The tail is the first position that is not written. */
  lemma TailUnwritten(mem: Memory, chain: seq<Sptr>, pos: seq<int>, log: Log, hd: int, tl: int, size: nat, segs: seq<Interval>)
    requires Stream(mem, chain, pos, log, hd, tl, size, segs)
    ensures tl !in log && Recorded(log, hd, tl - hd)
  {
    GapBefore(segs, 0, tl);
  }

  /** In-order write: n bytes at the tail, then the segments the tail has reached are taken in. */
  lemma EnqueueStream(mem: Memory, m: Memory, chain: seq<Sptr>, pos: seq<int>, log: Log, hd: int, tl: int, size: nat,
                      segs: seq<Interval>, src: seq<u8>, tl': int, segs': seq<Interval>)
    requires Stream(mem, chain, pos, log, hd, tl, size, segs)
    requires tl + |src| - hd <= size && tl + |src| <= pos[|chain|]
    requires Chain(m, chain, pos) && Holds(m, chain, pos, Overlay(log, tl, src))
    requires Canonical(segs') && Collected(segs, segs', tl + |src|, tl')
    ensures Stream(m, chain, pos, Overlay(log, tl, src), hd, tl', size, segs')
    ensures tl' !in Overlay(log, tl, src) && Recorded(Overlay(log, tl, src), hd, tl' - hd) && tl + |src| <= tl'
  {
    EnqueueLogged(log, hd, tl, segs, src, tl', segs');
    CollectBounds(segs, segs', tl, tl + |src|, tl', pos[|chain|]);
    CollectBounds(segs, segs', tl, tl + |src|, tl', hd + size);
    GapBefore(segs', 0, tl');
  }

  lemma EnqueueLogged(log: Log, hd: int, tl: int, segs: seq<Interval>, src: seq<u8>, tl': int, segs': seq<Interval>)
    requires Logged(log, hd, tl, segs) && hd <= tl && Collected(segs, segs', tl + |src|, tl')
    ensures Logged(Overlay(log, tl, src), hd, tl', segs')
  {
    var log' := Overlay(log, tl, src);
    forall p | hd <= p ensures p in log' <==> p < tl' || Covers(segs', p) {
      assert p in log <==> p < tl || Covers(segs, p);
      assert Covers(segs', p) ==> tl' <= p;
    }
  }

  /** Bounds of the intervals follow from the positions they cover. */
  lemma CoverBounds(segs: seq<Interval>, lo: int, hi: int)
    requires Canonical(segs) && (forall p :: Covers(segs, p) ==> lo <= p < hi)
    ensures forall i :: 0 <= i < |segs| ==> lo <= segs[i].lo && segs[i].hi <= hi
  {
    forall i | 0 <= i < |segs| ensures lo <= segs[i].lo && segs[i].hi <= hi {
      assert Covers(segs, segs[i].lo) && Covers(segs, segs[i].hi - 1);
    }
  }

  lemma CollectBounds(segs: seq<Interval>, segs': seq<Interval>, tl: int, t: int, tl': int, limit: int)
    requires Canonical(segs) && Canonical(segs') && Beyond(segs, tl, limit) && tl <= t <= limit && Collected(segs, segs', t, tl')
    ensures Beyond(segs', tl', limit) && tl' <= limit
  {
    forall p | Covers(segs', p) ensures tl' < p < limit {
      assert tl' <= p;
      assert Covers(segs, p);
    }
    CoverBounds(segs', tl' + 1, limit);
    if t < tl' {
      assert Covers(segs, tl' - 1);
    }
  }

  /** Collecting takes segments off the front, so the end of the last one stays or is reached. */
  lemma LastCollected(segs: seq<Interval>, segs': seq<Interval>, t: int, t': int)
    requires Canonical(segs) && Canonical(segs') && Collected(segs, segs', t, t') && segs != []
    ensures if segs' == [] then segs[|segs| - 1].hi <= t' else segs[|segs| - 1].hi <= segs'[|segs'| - 1].hi
  {
    var p := segs[|segs| - 1].hi - 1;
    assert Covers(segs, p);
    if segs' != [] {
      assert Covers(segs', segs'[0].lo);
      var i :| 0 <= i < |segs| && segs[i].lo <= segs'[0].lo < segs[i].hi;
      assert t' <= p && Covers(segs', p);
    }
  }

  lemma LastAdded(segs: seq<Interval>, segs': seq<Interval>, lo: int, hi: int)
    requires Canonical(segs) && Canonical(segs') && Added(segs, segs', lo, hi) && lo < hi
    ensures segs' != [] && hi <= segs'[|segs'| - 1].hi
    ensures segs != [] ==> segs[|segs| - 1].hi <= segs'[|segs'| - 1].hi
  {
    assert Covers(segs', hi - 1);
    if segs != [] {
      assert Covers(segs, segs[|segs| - 1].hi - 1);
    }
  }

  /** Out-of-order write: the tail stays, the positions written join the segments. */
  lemma OffsetStream(mem: Memory, m: Memory, chain: seq<Sptr>, pos: seq<int>, log: Log, hd: int, tl: int, size: nat,
                     segs: seq<Interval>, p: int, src: seq<u8>, segs': seq<Interval>)
    requires Stream(mem, chain, pos, log, hd, tl, size, segs)
    requires tl < p && p + |src| <= hd + size && p + |src| <= pos[|chain|]
    requires Chain(m, chain, pos) && Holds(m, chain, pos, Overlay(log, p, src))
    requires Canonical(segs') && Added(segs, segs', p, p + |src|)
    ensures Stream(m, chain, pos, Overlay(log, p, src), hd, tl, size, segs')
  {
    forall q | Covers(segs', q) ensures tl + 1 <= q < pos[|chain|] && q < hd + size {
      if Covers(segs, q) {
        var i :| 0 <= i < |segs| && segs[i].lo <= q < segs[i].hi;
      }
    }
    CoverBounds(segs', tl + 1, pos[|chain|]);
    CoverBounds(segs', tl + 1, hd + size);
    var log' := Overlay(log, p, src);
    forall q | hd <= q ensures q in log' <==> q < tl || Covers(segs', q) {
      assert q in log <==> q < tl || Covers(segs, q);
    }
  }

  /** The enqueue lookup tree indexes a run of chunks from the tail's on, and is empty when
      there are no segments; the cached chunk does not end before the tail. */
  ghost predicate EnqSide(mem: Memory, t: Tree, init: bool, chain: seq<Sptr>, pos: seq<int>, a: nat, b: nat,
                          tl: int, segs: seq<Interval>, cached: Sptr)
  {
    && Index(mem, t, chain, pos, true, a, b)
    && (a < b ==> init && segs != [] && pos[a] <= tl < pos[a + 1] && pos[b - 1] <= segs[|segs| - 1].hi)
    && (cached == NULL || (segs != [] && NotPast(chain, pos, cached, tl)))
  }

  ghost predicate NotPast(chain: seq<Sptr>, pos: seq<int>, c: Sptr, tl: int) {
    exists i: nat :: i < |chain| && i + 1 < |pos| && chain[i] == c && tl < pos[i + 1]
  }

  /** The dequeue lookup tree indexes a run of chunks from the start chunk on. */
  ghost predicate DeqSide(mem: Memory, t: Tree, init: bool, chain: seq<Sptr>, pos: seq<int>, b: nat, cached: Sptr) {
    Index(mem, t, chain, pos, false, 0, b) && (b > 0 ==> init) && (cached == NULL || cached in chain)
  }

  ghost predicate Pointers(chain: seq<Sptr>, pos: seq<int>, hd: int, tl: int, start: Sptr, end: Sptr,
                           headC: Sptr, tailC: Sptr, head: u32, tail: u32)
  {
    && chain != [] && |pos| == |chain| + 1 && pos[0] <= hd && pos[0] <= tl
    && start == chain[0] && end == chain[|chain| - 1] && head == Wrap(hd) && tail == Wrap(tl)
    && tailC == ChunkFor(chain, pos, tl) && (headC == NULL || headC == ChunkFor(chain, pos, hd))
  }

  lemma SameStream(mem: Memory, m: Memory, chain: seq<Sptr>, pos: seq<int>, log: Log, hd: int, tl: int, size: nat, segs: seq<Interval>)
    requires Stream(mem, chain, pos, log, hd, tl, size, segs) && SameOn(mem, m, chain)
    ensures Stream(m, chain, pos, log, hd, tl, size, segs)
  {
    forall i: nat | i < |chain| ensures ChunkAt(m, chain, pos, i) && HoldsAt(m, chain, pos, log, i) {
      ChainAt(mem, chain, pos, i);
      assert chain[i] in chain && HoldsAt(mem, chain, pos, log, i);
    }
  }

  lemma SameIndex(mem: Memory, m: Memory, t: Tree, chain: seq<Sptr>, pos: seq<int>, enq: bool, a: nat, b: nat)
    requires Index(mem, t, chain, pos, enq, a, b) && SameOn(mem, m, chain)
    ensures Index(m, t, chain, pos, enq, a, b)
  {
    hide TreeIs;
    forall i: nat | i < |chain| ensures chain[i] in m && (Flag(m[chain[i]], enq) <==> a <= i < b) {
      assert chain[i] in chain;
    }
  }

  lemma SameSides(mem: Memory, m: Memory, et: Tree, ei: bool, dt: Tree, di: bool, chain: seq<Sptr>, pos: seq<int>,
                  a: nat, b: nat, d: nat, tl: int, segs: seq<Interval>, ec: Sptr, dc: Sptr)
    requires SameOn(mem, m, chain)
    ensures EnqSide(mem, et, ei, chain, pos, a, b, tl, segs, ec) ==> EnqSide(m, et, ei, chain, pos, a, b, tl, segs, ec)
    ensures DeqSide(mem, dt, di, chain, pos, d, dc) ==> DeqSide(m, dt, di, chain, pos, d, dc)
  {
    hide Index, NotPast;
    if Index(mem, et, chain, pos, true, a, b) {
      IndexBounds(mem, et, chain, pos, true, a, b);
      SameIndex(mem, m, et, chain, pos, true, a, b);
    }
    if Index(mem, dt, chain, pos, false, 0, d) {
      SameIndex(mem, m, dt, chain, pos, false, 0, d);
    }
  }

  /** f_try_chunk_alloc: a laid-out list is linked to the end of the chain. */
  lemma GrownStream(mem0: Memory, mem: Memory, chain: seq<Sptr>, pos: seq<int>, first: Sptr, got: seq<Sptr>, q: seq<int>,
                    log: Log, hd: int, tl: int, size: nat, segs: seq<Interval>)
    requires Stream(mem0, chain, pos, log, hd, tl, size, segs)
    requires Appendable(mem, chain, pos, first, got, q) && OnlyStart(mem0, mem, got) && q[|got|] - hd <= Reach(size)
    ensures var end := chain[|chain| - 1];
            end in mem && Stream(mem[end := mem[end].(next := first)], chain + got, pos + q[1..], log, hd, tl, size, segs)
  {
    hide Chain, Holds, Logged, Canonical, OnlyStart, ListOk, LaidOutAt;
    ChainAscending(mem, chain, pos);
    assert (pos + q[1..])[|chain| + |got|] == q[|got|];
    OnlyStartHolds(mem0, mem, chain, pos, got, log);
    ExtentsAscend(mem, got, q, 0, |got|);
    Appended(mem, chain, pos, first, got, q);
    AppendedHolds(mem, chain, pos, first, got, q, log);
  }

  lemma GrownSides(mem0: Memory, mem: Memory, chain: seq<Sptr>, pos: seq<int>, first: Sptr, got: seq<Sptr>, q: seq<int>,
                   et: Tree, ei: bool, dt: Tree, di: bool, a: nat, b: nat, d: nat, tl: int, segs: seq<Interval>, ec: Sptr, dc: Sptr)
    requires EnqSide(mem0, et, ei, chain, pos, a, b, tl, segs, ec) && DeqSide(mem0, dt, di, chain, pos, d, dc)
    requires Appendable(mem, chain, pos, first, got, q) && OnlyStart(mem0, mem, got)
    ensures var end := chain[|chain| - 1];
            && end in mem
            && EnqSide(mem[end := mem[end].(next := first)], et, ei, chain + got, pos + q[1..], a, b, tl, segs, ec)
            && DeqSide(mem[end := mem[end].(next := first)], dt, di, chain + got, pos + q[1..], d, dc)
  {
    hide EnqSide, Index, OnlyStart, Appendable;
    assert Chain(mem, chain, pos) && (forall x :: x in got ==> x !in chain) by { AppendableIs(mem, chain, pos, first, got, q); }
    hide Chain;
    GrownEnq(mem0, mem, chain, pos, first, got, q, et, ei, a, b, tl, segs, ec);
    OnlyStartIndex(mem0, mem, chain, pos, got, dt, false, 0, d);
    AppendedIndex(mem, chain, pos, first, got, q, dt, false, 0, d);
  }

  lemma AppendableIs(mem: Memory, chain: seq<Sptr>, pos: seq<int>, first: Sptr, got: seq<Sptr>, q: seq<int>)
    requires Appendable(mem, chain, pos, first, got, q)
    ensures Chain(mem, chain, pos) && (forall x :: x in got ==> x !in chain) && got != [] && |q| == |got| + 1
  {
    hide Chain, ListOk, LaidOutAt, ExtentAt;
  }

  lemma GrownEnq(mem0: Memory, mem: Memory, chain: seq<Sptr>, pos: seq<int>, first: Sptr, got: seq<Sptr>, q: seq<int>,
                 et: Tree, ei: bool, a: nat, b: nat, tl: int, segs: seq<Interval>, ec: Sptr)
    requires EnqSide(mem0, et, ei, chain, pos, a, b, tl, segs, ec)
    requires Appendable(mem, chain, pos, first, got, q) && OnlyStart(mem0, mem, got)
    ensures var end := chain[|chain| - 1];
            end in mem && EnqSide(mem[end := mem[end].(next := first)], et, ei, chain + got, pos + q[1..], a, b, tl, segs, ec)
  {
    hide Chain, Index, OnlyStart, ListOk, LaidOutAt, ExtentAt, NotPast;
    ChainAscending(mem, chain, pos);
    IndexBounds(mem0, et, chain, pos, true, a, b);
    OnlyStartIndex(mem0, mem, chain, pos, got, et, true, a, b);
    AppendedIndex(mem, chain, pos, first, got, q, et, true, a, b);
    if ec != NULL {
      NotPastGrown(chain, pos, got, q, ec, tl);
    }
  }

  lemma NotPastGrown(chain: seq<Sptr>, pos: seq<int>, got: seq<Sptr>, q: seq<int>, c: Sptr, tl: int)
    requires NotPast(chain, pos, c, tl) && |pos| == |chain| + 1 && |q| == |got| + 1
    ensures NotPast(chain + got, pos + q[1..], c, tl)
  {
    var i: nat :| i < |chain| && i + 1 < |pos| && chain[i] == c && tl < pos[i + 1];
    var all, r := chain + got, pos + q[1..];
    assert all[i] == c && r[i + 1] == pos[i + 1];
  }

  lemma GrownPointers(mem: Memory, chain: seq<Sptr>, pos: seq<int>, first: Sptr, got: seq<Sptr>, q: seq<int>,
                      hd: int, tl: int, start: Sptr, end: Sptr, headC: Sptr, tailC: Sptr, head: u32, tail: u32)
    requires Pointers(chain, pos, hd, tl, start, end, headC, tailC, head, tail)
    requires Appendable(mem, chain, pos, first, got, q) && hd <= tl <= pos[|chain|]
    ensures Pointers(chain + got, pos + q[1..], hd, tl, start, got[|got| - 1], headC, if tailC == NULL then first else tailC, head, tail)
  {
    hide Chain, ChunkFor, ListOk, LaidOutAt, ExtentAt;
    AppendedFor(mem, chain, pos, first, got, q, tl);
    AppendedFor(mem, chain, pos, first, got, q, hd);
    ChunkForNull(mem, chain, pos, tl);
    ChunkForNull(mem, chain, pos, hd);
  }

  lemma ChunkForNull(mem: Memory, chain: seq<Sptr>, pos: seq<int>, p: int)
    requires Chain(mem, chain, pos) && pos[0] <= p
    ensures ChunkFor(chain, pos, p) == NULL <==> pos[|chain|] <= p
  {
    hide Chain;
    ChainAscending(mem, chain, pos);
    if p < pos[|chain|] {
      ChainAt(mem, chain, pos, Find(pos, p));
    }
  }

  /** Writing bytes into chunks of the chain leaves the lookup trees alone. */
  lemma DataIndex(mem: Memory, m: Memory, t: Tree, chain: seq<Sptr>, pos: seq<int>, enq: bool, a: nat, b: nat)
    requires Index(mem, t, chain, pos, enq, a, b) && OnlyData(mem, m, chain)
    ensures Index(m, t, chain, pos, enq, a, b)
  {
    hide TreeIs;
    forall i: nat | i < |chain| ensures chain[i] in m && Flag(m[chain[i]], enq) == Flag(mem[chain[i]], enq) {
      assert m[chain[i]].(data := []) == mem[chain[i]].(data := []);
    }
  }

  lemma DataOwn(mem: Memory, m: Memory, chain: seq<Sptr>, pos: seq<int>)
    requires Chain(mem, chain, pos) && Chain(m, chain, pos) && OnlyData(mem, m, chain)
    ensures OwnWrite(mem, m, chain)
  {
    forall x | x in m ensures m[x].length == mem[x].length && |m[x].data| == |mem[x].data| {
      assert m[x].(data := []) == mem[x].(data := []);
      if x in chain {
        var i :| 0 <= i < |chain| && chain[i] == x;
        ChainAt(mem, chain, pos, i);
        ChainAt(m, chain, pos, i);
      }
    }
  }

  lemma FlagsOwn(mem: Memory, m: Memory, chain: seq<Sptr>, enq: bool)
    requires OnlyFlags(mem, m, chain, enq)
    ensures OwnWrite(mem, m, chain)
  {
    forall x | x in m ensures m[x].length == mem[x].length && |m[x].data| == |mem[x].data| {
      assert SetFlag(m[x], enq, false) == SetFlag(mem[x], enq, false);
    }
  }

  lemma OwnWriteRefl(mem: Memory, own: seq<Sptr>)
    ensures OwnWrite(mem, mem, own)
  {
  }

  lemma OwnWriteTrans(m0: Memory, m1: Memory, m2: Memory, own: seq<Sptr>)
    requires OwnWrite(m0, m1, own) && OwnWrite(m1, m2, own)
    ensures OwnWrite(m0, m2, own)
  {
  }

  /** Flags of one tree leave the other tree's index alone. */
  lemma OtherIndex(mem: Memory, m: Memory, t: Tree, chain: seq<Sptr>, pos: seq<int>, enq: bool, a: nat, b: nat)
    requires Index(mem, t, chain, pos, !enq, a, b) && OnlyFlags(mem, m, chain, enq)
    ensures Index(m, t, chain, pos, !enq, a, b)
  {
    hide TreeIs, OnlyFlags, Flags;
    OnlyFlagsOther(mem, m, chain, enq, a, b);
  }

  /** The memory after the link into the k-th chunk is cut. */
  ghost function Cut(mem: Memory, chain: seq<Sptr>, k: nat): Memory
    requires 0 < k < |chain| && chain[k - 1] in mem
  {
    mem[chain[k - 1] := mem[chain[k - 1]].(next := NULL)]
  }

  /** What is cut off is a list of its own. */
  lemma CutList(mem: Memory, chain: seq<Sptr>, pos: seq<int>, k: nat)
    requires Chain(mem, chain, pos) && 0 < k < |chain|
    ensures chain[k - 1] in mem && ListOk(Cut(mem, chain, k), chain[0], chain[..k]) && OwnWrite(mem, Cut(mem, chain, k), chain)
  {
    ChainAt(mem, chain, pos, k - 1);
    forall i: nat | i < k ensures LinkAt(Cut(mem, chain, k), chain[..k], i) {
      ChainAt(mem, chain, pos, i);
    }
  }

  /** The head advances and the chunks before the k-th, all behind it, are cut off. */
  lemma UnlinkedStream(mem: Memory, m: Memory, chain: seq<Sptr>, pos: seq<int>, log: Log, hd: int, tl: int, size: nat,
                       segs: seq<Interval>, k: nat, e: int)
    requires Stream(mem, chain, pos, log, hd, tl, size, segs) && 0 < k < |chain|
    requires hd <= e <= tl && pos[k] <= e <= pos[k + 1]
    requires Chain(m, chain[k..], pos[k..]) && Holds(m, chain[k..], pos[k..], log)
    ensures Stream(m, chain[k..], pos[k..], log, e, tl, size, segs)
  {
    hide Chain, Holds, Canonical;
    ChainAscending(mem, chain, pos);
    assert pos[k..][|chain| - k] == pos[|chain|] && pos[k..][1] == pos[k + 1];
  }

  lemma AdvancedStream(mem: Memory, chain: seq<Sptr>, pos: seq<int>, log: Log, hd: int, tl: int, size: nat, segs: seq<Interval>, e: int)
    requires Stream(mem, chain, pos, log, hd, tl, size, segs) && hd <= e <= tl && |pos| > 1 && e <= pos[1]
    ensures Stream(mem, chain, pos, log, e, tl, size, segs)
  {
    hide Chain, Holds, Canonical;
  }

  /** Nothing the producer uses is behind the tail. */
  lemma UnlinkedEnq(mem: Memory, m: Memory, t: Tree, init: bool, chain: seq<Sptr>, pos: seq<int>, a: nat, b: nat,
                    tl: int, segs: seq<Interval>, cached: Sptr, k: nat)
    requires Chain(mem, chain, pos) && EnqSide(mem, t, init, chain, pos, a, b, tl, segs, cached) && k < |chain| && pos[k] <= tl
    requires forall x :: x in mem ==> x in m && m[x].enq == mem[x].enq
    ensures a < b ==> k <= a
    ensures EnqSide(m, t, init, chain[k..], pos[k..], if a < b then a - k else 0, if a < b then b - k else 0, tl, segs, cached)
  {
    hide Chain, Index, NotPast;
    ChainAscending(mem, chain, pos);
    IndexBounds(mem, t, chain, pos, true, a, b);
    if a < b {
      NotBefore(mem, chain, pos, a, k, tl);
    }
    UnlinkedIndex(mem, m, t, chain, pos, true, a, b, k);
    if cached != NULL {
      UnlinkedNotPast(mem, chain, pos, cached, tl, k);
    }
  }

  lemma UnlinkedNotPast(mem: Memory, chain: seq<Sptr>, pos: seq<int>, c: Sptr, tl: int, k: nat)
    requires Chain(mem, chain, pos) && NotPast(chain, pos, c, tl) && k < |chain| && pos[k] <= tl
    ensures NotPast(chain[k..], pos[k..], c, tl)
  {
    hide Chain;
    ChainAscending(mem, chain, pos);
    var i: nat :| i < |chain| && i + 1 < |pos| && chain[i] == c && tl < pos[i + 1];
    NotBefore(mem, chain, pos, i, k, tl);
    assert chain[k..][i - k] == c && pos[k..][i - k + 1] == pos[i + 1];
  }

  lemma UnlinkedPointers(mem: Memory, m: Memory, chain: seq<Sptr>, pos: seq<int>, hd: int, tl: int, start: Sptr, end: Sptr,
                         headC: Sptr, tailC: Sptr, head: u32, tail: u32, k: nat, e: int, headC': Sptr)
    requires Chain(mem, chain, pos) && Pointers(chain, pos, hd, tl, start, end, headC, tailC, head, tail)
    requires k < |chain| && pos[k] <= e <= tl && Chain(m, chain[k..], pos[k..])
    requires headC' == NULL || (pos[0] <= e && headC' == ChunkFor(chain, pos, e))
    ensures Pointers(chain[k..], pos[k..], e, tl, chain[k], end, headC', tailC, Wrap(e), tail)
  {
    hide Chain, ChunkFor;
    ChainAscending(mem, chain, pos);
    UnlinkedFor(mem, chain, pos, m, k, tl);
    UnlinkedFor(mem, chain, pos, m, k, e);
  }

  /** The memory after f_try_chunk_alloc has linked the list that starts at first and ends at last. */
  function Link(mem: Memory, end: Sptr, first: Sptr, last: Sptr): Memory
    requires end in mem && last in mem
  {
    var m := mem[end := mem[end].(next := first)];
    m[last := m[last].(next := NULL)]
  }

  lemma LinkIs(mem: Memory, chain: seq<Sptr>, pos: seq<int>, first: Sptr, got: seq<Sptr>, q: seq<int>)
    requires Appendable(mem, chain, pos, first, got, q)
    ensures var end, last := chain[|chain| - 1], got[|got| - 1];
            end in mem && last in mem && Link(mem, end, first, last) == mem[end := mem[end].(next := first)]
  {
    var end, last := chain[|chain| - 1], got[|got| - 1];
    ChainAt(mem, chain, pos, |chain| - 1);
    assert LinkAt(mem, got, |got| - 1);
    assert last in got && end in chain;
  }

  lemma GrownOwn(mem0: Memory, mem: Memory, chain: seq<Sptr>, got: seq<Sptr>, end: Sptr, first: Sptr)
    requires OnlyStart(mem0, mem, got) && end in chain && end in mem
    ensures OwnWrite(mem0, mem[end := mem[end].(next := first)], chain + got)
  {
    var m := mem[end := mem[end].(next := first)];
    forall x | x in m ensures m[x].length == mem0[x].length && |m[x].data| == |mem0[x].data| {
      assert mem[x].(start := 0, enq := false, deq := false) == mem0[x].(start := 0, enq := false, deq := false);
    }
  }

  lemma StartOwn(mem0: Memory, mem: Memory, got: seq<Sptr>)
    requires OnlyStart(mem0, mem, got)
    ensures OwnWrite(mem0, mem, got)
  {
    forall x | x in mem ensures mem[x].length == mem0[x].length && |mem[x].data| == |mem0[x].data| {
      assert mem[x].(start := 0, enq := false, deq := false) == mem0[x].(start := 0, enq := false, deq := false);
    }
  }

  /** How many bytes f_try_chunk_alloc asks for. */
  function AllocSize(minAlloc: nat, room: int, missing: int): int {
    var a := if minAlloc < room then minAlloc else room;
    if a < missing then missing else a
  }

  /** The smallest growth of a fifo, set by svm_fifo_init. */
  function MinAlloc(size: nat): nat {
    var a := if size > 32 * 1024 then size / 8 else 4096;
    if a < 64 * 1024 then a else 64 * 1024
  }

  /** What is asked for covers what is missing, is no smaller than the smallest growth unless there
      is less room, and is larger than what is missing only up to both. */
  lemma AllocSizeIs(minAlloc: nat, room: int, missing: int)
    ensures var a := AllocSize(minAlloc, room, missing);
            a >= missing && (a >= minAlloc || a >= room) && (a > missing ==> a <= minAlloc && a <= room)
  {
  }

  /** The smallest growth is an eighth of the fifo, but 4096 bytes for fifos of up to 32 KB and never
      more than 64 KB. */
  lemma MinAllocIs(size: nat)
    ensures var m := MinAlloc(size);
            && 4096 <= m <= 65536 && (size <= 32768 ==> m == 4096) && (size >= 524288 ==> m == 65536)
            && (32768 < size < 524288 ==> 8 * m <= size < 8 * m + 8)
  {
  }

  /** svm_fifo_init: a laid-out list is a chain. */
  lemma LaidOutChain(mem0: Memory, mem: Memory, first: Sptr, got: seq<Sptr>)
    requires got != [] && ListOk(mem0, first, got) && OnlyStart(mem0, mem, got)
    requires forall x :: x in got ==> x in mem0 && mem0[x].length == |mem0[x].data| > 0
    requires TotalLength(mem0, got) < TWO_31
    requires forall i: nat :: i < |got| ==> LaidOutAt(mem, got, Layout(mem0, got, 0), i)
    ensures Chain(mem, got, Layout(mem0, got, 0)) && Layout(mem0, got, 0)[|got|] == TotalLength(mem0, got)
  {
    hide Layout;
    var q := Layout(mem0, got, 0);
    LayoutTotal(mem0, got, 0);
    forall i: nat | i < |got| ensures ExtentAt(mem, got, q, i) && ChunkAt(mem, got, q, i) {
      assert got[i] in got;
      LayoutStep(mem0, got, 0, i);
      OnlyStartAt(mem0, mem, got, got[i]);
      assert LaidOutAt(mem, got, q, i) && LinkAt(mem0, got, i);
    }
    forall i: nat, j: nat | i < j < |q| ensures q[i] < q[j] {
      ExtentsAscend(mem, got, q, i, j);
    }
  }

  lemma InitialSides(mem: Memory, chain: seq<Sptr>, pos: seq<int>, first: Sptr, size: nat)
    requires Chain(mem, chain, pos) && pos[0] == 0 && pos[|chain|] <= Reach(size) && 0 < size <= MAX_FIFO && first == chain[0]
    requires forall i: nat :: i < |chain| ==> LaidOutAt(mem, chain, pos, i)
    ensures Stream(mem, chain, pos, map[], 0, 0, size, [])
    ensures Pointers(chain, pos, 0, 0, first, chain[|chain| - 1], first, first, 0, 0)
    ensures EnqSide(mem, Nil, false, chain, pos, 0, 0, 0, [], NULL) && DeqSide(mem, Nil, false, chain, pos, 0, NULL)
  {
    forall i: nat | i < |chain| ensures HoldsAt(mem, chain, pos, map[], i) && chain[i] in mem && !mem[chain[i]].enq && !mem[chain[i]].deq {
      assert LaidOutAt(mem, chain, pos, i);
    }
    ChunkForIs(mem, chain, pos, 0, 0);
  }

  lemma ZeroWraps()
    ensures Wrap(0) == 0
  {
  }

  /** A growth asks for at least what is missing and at most the largest class, and its
      result keeps the chain within reach. */
  lemma AllocBounds(size: nat, hd: int, tl: int, first: int, end: int, len: nat)
    requires 0 < size <= MAX_FIFO && first <= hd <= tl <= end < tl + len <= hd + size && hd - first <= MAX_SIZE
    ensures var a := AllocSize(MinAlloc(size), size - (tl - hd), len - (end - tl));
            && 0 < tl + len - end <= a < TWO_32 && (a <= MAX_SIZE || a == tl + len - end)
            && end + Cap(a) - hd <= Reach(size) && end + Cap(a) - first < TWO_31
    ensures end - tl < TWO_32
  {
  }

  lemma ExtendsSame(mem0: Memory, place0: Places, mem: Memory, place: Places, own: seq<Sptr>, s: nat)
    requires Extends(mem0, place0, mem, place) && HandedOut(place0, own, s) && place0.Keys <= mem0.Keys
    ensures HandedOut(place, own, s) && SameOn(mem0, mem, own)
  {
  }


  lemma Prefix(chain: seq<Sptr>, pos: seq<int>, got: seq<Sptr>, q: seq<int>)
    requires |pos| == |chain| + 1 && |q| == |got| + 1
    ensures (pos + q[1..])[..|pos|] == pos && |pos + q[1..]| == |chain + got| + 1
    ensures got != [] ==> (pos + q[1..])[|chain + got|] == q[|got|]
  {
  }

  lemma HandedOutPart(place: Places, own: seq<Sptr>, got: seq<Sptr>, s: nat)
    requires HandedOut(place, own + got, s)
    ensures HandedOut(place, own, s) && HandedOut(place, got, s)
  {
    forall x | x in own || x in got ensures x in own + got {
    }
  }

  lemma ListNotNull(mem: Memory, head: Sptr, list: seq<Sptr>)
    requires ListOk(mem, head, list) && list != []
    ensures head != NULL
  {
    assert LinkAt(mem, list, 0);
  }

  /** What an enqueue leaves does not depend on how it was done: from the same segments and the
      same end of the written bytes, the tail and the segments are determined. */
  lemma CollectedUnique(segs: seq<Interval>, t: int, t1: int, segs1: seq<Interval>, t2: int, segs2: seq<Interval>)
    requires Canonical(segs1) && Canonical(segs2) && Collected(segs, segs1, t, t1) && Collected(segs, segs2, t, t2)
    ensures t1 == t2 && segs1 == segs2
  {
    assert t1 == t2;
    forall p ensures Covers(segs1, p) <==> Covers(segs2, p) {
      if p >= t1 {
        assert Covers(segs1, p) <==> Covers(segs, p);
        assert Covers(segs2, p) <==> Covers(segs, p);
      }
    }
    CanonicalUnique(segs1, segs2);
  }
}
