/** Chains of chunks in the shared memory of a segment, and the copies between a
    chain and a flat buffer (src/svm/svm_fifo.c, src/svm/fifo_types.h). */
module Chunks {
  import opened Sequences
  import opened Position

  /** An offset into the segment; 0 is the null pointer. */
  type Sptr = nat
  const NULL: Sptr := 0

  type u8 = x: int | 0 <= x < 256

  /** enq and deq tell whether the chunk has a node in the enqueue or dequeue lookup tree. */
  datatype Chunk = Chunk(start: u32, length: u32, next: Sptr, enq: bool, deq: bool, data: seq<u8>)

  type Memory = map<Sptr, Chunk>

  function ChunkEnd(c: Chunk): u32 {
    Add(c.start, c.length)
  }

  predicate IncludesPos(c: Chunk, pos: u32) {
    PosGeq(pos, c.start) && PosLt(pos, ChunkEnd(c))
  }


  ghost predicate Ascending(pos: seq<int>) {
    forall i, j :: 0 <= i < j < |pos| ==> pos[i] < pos[j]
  }

  /** The i-th element of a chain, or null past its end. */
  ghost function Nth(chain: seq<Sptr>, i: nat): Sptr {
    if i < |chain| then chain[i] else NULL
  }

  /** The i-th chunk of the chain holds the positions pos[i]..pos[i + 1]. */
  ghost predicate ChunkAt(mem: Memory, chain: seq<Sptr>, pos: seq<int>, i: nat)
    requires i < |chain| && |pos| == |chain| + 1
  {
    && chain[i] != NULL && chain[i] in mem
    && mem[chain[i]].start == Wrap(pos[i])
    && mem[chain[i]].length == pos[i + 1] - pos[i] == |mem[chain[i]].data|
    && mem[chain[i]].next == Nth(chain, i + 1)
  }

  /** A null-terminated chain of adjacent chunks whose bounds stand less than 2^31 apart. */
  ghost predicate Chain(mem: Memory, chain: seq<Sptr>, pos: seq<int>) {
    && chain != [] && |pos| == |chain| + 1
    && NoRepeats(chain) && Ascending(pos)
    && pos[|chain|] - pos[0] < TWO_31
    && (forall i: nat :: i < |chain| ==> ChunkAt(mem, chain, pos, i))
  }

  lemma ChainAt(mem: Memory, chain: seq<Sptr>, pos: seq<int>, i: nat)
    requires Chain(mem, chain, pos) && i < |chain|
    ensures |pos| == |chain| + 1 && pos[0] <= pos[i] < pos[i + 1] <= pos[|chain|] < pos[0] + TWO_31
    ensures ChunkAt(mem, chain, pos, i)
  {
  }

  /** The index of the chunk that holds position p. */
  ghost function Find(pos: seq<int>, p: int): (i: nat)
    requires |pos| >= 2 && pos[0] <= p < pos[|pos| - 1]
    ensures i < |pos| - 1 && pos[i] <= p < pos[i + 1]
  {
    if p < pos[1] then 0 else 1 + Find(pos[1..], p)
  }

  lemma FindUnique(pos: seq<int>, p: int, i: nat)
    requires Ascending(pos) && i < |pos| - 1 && pos[i] <= p < pos[i + 1]
    ensures pos[0] <= p < pos[|pos| - 1] && Find(pos, p) == i
  {
    assert pos[0] <= pos[i] && pos[i + 1] <= pos[|pos| - 1];
    var j := Find(pos, p);
    var before, after := pos[j], pos[j + 1];
    assert before <= p < after;
  }

  /** What a linear scan for position p finds: the chunk that holds it, or null at the chain's end. */
  ghost function ChunkFor(chain: seq<Sptr>, pos: seq<int>, p: int): Sptr
    requires |pos| == |chain| + 1 && chain != [] && pos[0] <= p
  {
    if p < pos[|chain|] then chain[Find(pos, p)] else NULL
  }

  lemma Includes(mem: Memory, chain: seq<Sptr>, pos: seq<int>, i: nat, p: int)
    requires Chain(mem, chain, pos) && i < |chain|
    requires pos[0] <= p < pos[0] + TWO_31
    ensures chain[i] in mem
    ensures ChunkEnd(mem[chain[i]]) == Wrap(pos[i + 1])
    ensures IncludesPos(mem[chain[i]], Wrap(p)) <==> pos[i] <= p < pos[i + 1]
  {
    ChainAt(mem, chain, pos, i);
    AddWraps(pos[i], pos[i + 1] - pos[i]);
    Compare(p, pos[i]);
    Compare(p, pos[i + 1]);
  }

  /** svm_fifo_find_next_chunk: the scan along next pointers from the i-th chunk. */
  method FindNextChunk(mem: Memory, start: Sptr, pos32: u32,
                       ghost chain: seq<Sptr>, ghost pos: seq<int>, ghost i0: nat, ghost p: int)
    returns (c: Sptr)
    requires Chain(mem, chain, pos) && i0 < |chain| && start == chain[i0]
    requires pos[i0] <= p < pos[0] + TWO_31 && pos[0] <= p && pos32 == Wrap(p)
    ensures c == ChunkFor(chain, pos, p)
  {
    hide Chain, IncludesPos;
    c := start;
    ghost var i := i0;
    ChainAt(mem, chain, pos, i0);
    while c != NULL && !IncludesPos(mem[c], pos32)
      invariant i <= |chain| && c == Nth(chain, i) && (c != NULL ==> i < |chain| && c in mem)
      invariant pos[i] <= p
      decreases |chain| - i
    {
      ChainAt(mem, chain, pos, i);
      Includes(mem, chain, pos, i, p);
      c := mem[c].next;
      i := i + 1;
      if i < |chain| {
        ChainAt(mem, chain, pos, i);
      }
    }
    if i < |chain| {
      ChainAt(mem, chain, pos, i);
      Includes(mem, chain, pos, i, p);
      ChainAscending(mem, chain, pos);
      FindUnique(pos, p, i);
    }
  }

  lemma ChainAscending(mem: Memory, chain: seq<Sptr>, pos: seq<int>)
    requires Chain(mem, chain, pos)
    ensures chain != [] && |pos| == |chain| + 1 && Ascending(pos) && NoRepeats(chain)
    ensures pos[0] < pos[|chain|] < pos[0] + TWO_31
  {
  }

  lemma NotBefore(mem: Memory, chain: seq<Sptr>, pos: seq<int>, i: nat, k: nat, p: int)
    requires Chain(mem, chain, pos) && i < |chain| && k <= |chain| && p < pos[i + 1] && pos[k] <= p
    ensures k <= i
  {
  }

  /** A record of what was last written at each position. */
  type Log = map<int, u8>

  /** Writing src from position p on. */
  ghost function Overlay(log: Log, p: int, src: seq<u8>): Log {
    map q | q in log.Keys + Range(p, p + |src|) :: if p <= q < p + |src| then src[q - p] else log[q]
  }

  ghost function Range(lo: int, hi: int): (r: set<int>)
    ensures forall x :: x in r <==> lo <= x < hi
    decreases hi - lo
  {
    if lo < hi then Range(lo, hi - 1) + {hi - 1} else {}
  }

  lemma OverlayAppend(log: Log, p: int, a: seq<u8>, b: seq<u8>)
    ensures Overlay(Overlay(log, p, a), p + |a|, b) == Overlay(log, p, a + b)
  {
  }

  ghost predicate HoldsAt(mem: Memory, chain: seq<Sptr>, pos: seq<int>, log: Log, i: nat)
    requires i < |chain| <= |pos|
  {
    && chain[i] in mem
    && (forall o :: 0 <= o < |mem[chain[i]].data| && pos[i] + o in log ==>
          mem[chain[i]].data[o] == log[pos[i] + o])
  }

  /** Every position recorded in the log is stored in the chunk that holds it. */
  ghost predicate Holds(mem: Memory, chain: seq<Sptr>, pos: seq<int>, log: Log)
    requires |chain| <= |pos|
  {
    forall i: nat :: i < |chain| ==> HoldsAt(mem, chain, pos, log, i)
  }

  /** mem differs from mem0 only in the bytes stored in chunks of the chain. */
  ghost predicate OnlyData(mem0: Memory, mem: Memory, chain: seq<Sptr>) {
    && mem.Keys == mem0.Keys
    && (forall x :: x in mem ==> mem[x].(data := []) == mem0[x].(data := []))
    && (forall x :: x in mem && x !in chain ==> mem[x] == mem0[x])
  }

  /** The memories agree on the chunks of a chain. */
  ghost predicate SameOn(mem: Memory, m: Memory, chain: seq<Sptr>) {
    forall x :: x in chain ==> x in mem && x in m && m[x] == mem[x]
  }

  function Splice(data: seq<u8>, o: nat, piece: seq<u8>): (r: seq<u8>)
    requires o + |piece| <= |data|
    ensures |r| == |data|
    ensures forall k :: 0 <= k < |data| ==> r[k] == if o <= k < o + |piece| then piece[k - o] else data[k]
  {
    data[..o] + piece + data[o + |piece|..]
  }

  /** memcpy of piece to offset o of a chunk. */
  function Store(mem: Memory, c: Sptr, o: nat, piece: seq<u8>): Memory
    requires c in mem && o + |piece| <= |mem[c].data|
  {
    mem[c := mem[c].(data := Splice(mem[c].data, o, piece))]
  }

  lemma StoreHoldsAt(mem: Memory, chain: seq<Sptr>, pos: seq<int>, log: Log, i: nat, o: nat, piece: seq<u8>, j: nat)
    requires Chain(mem, chain, pos) && i < |chain| && j < |chain| && HoldsAt(mem, chain, pos, log, j)
    requires chain[i] in mem && o + |piece| <= |mem[chain[i]].data|
    ensures HoldsAt(Store(mem, chain[i], o, piece), chain, pos, Overlay(log, pos[i] + o, piece), j)
  {
    ChainAt(mem, chain, pos, i);
    ChainAt(mem, chain, pos, j);
    if i != j {
      assert i < j ==> pos[i + 1] <= pos[j];
      assert j < i ==> pos[j + 1] <= pos[i];
    }
  }

  /** Storing a piece at offset o of the i-th chunk writes it from position pos[i] + o on. */
  lemma StoreHolds(mem: Memory, chain: seq<Sptr>, pos: seq<int>, log: Log, i: nat, o: nat, piece: seq<u8>)
    requires Chain(mem, chain, pos) && Holds(mem, chain, pos, log) && i < |chain|
    requires o + |piece| <= pos[i + 1] - pos[i]
    ensures chain[i] in mem && o + |piece| <= |mem[chain[i]].data|
    ensures var m := Store(mem, chain[i], o, piece);
            && Chain(m, chain, pos) && Holds(m, chain, pos, Overlay(log, pos[i] + o, piece))
            && OnlyData(mem, m, chain)
  {
    hide Overlay, HoldsAt;
    ChainAt(mem, chain, pos, i);
    var m := Store(mem, chain[i], o, piece);
    forall j: nat | j < |chain| ensures ChunkAt(m, chain, pos, j) {
      ChainAt(mem, chain, pos, j);
    }
    var log' := Overlay(log, pos[i] + o, piece);
    forall j: nat | j < |chain| ensures HoldsAt(m, chain, pos, log', j) {
      StoreHoldsAt(mem, chain, pos, log, i, o, piece, j);
    }
  }

  lemma OnlyDataTransitive(m0: Memory, m1: Memory, m2: Memory, chain: seq<Sptr>)
    requires OnlyData(m0, m1, chain) && OnlyData(m1, m2, chain)
    ensures OnlyData(m0, m2, chain)
  {
  }

  /** svm_fifo_copy_to_chunk: writes src from position p on, starting in the i0-th chunk.
      The pointer that follows the write is returned when the write filled that chunk. */
  method CopyToChunk(mem0: Memory, c0: Sptr, tailIdx: u32, src: seq<u8>,
                     ghost chain: seq<Sptr>, ghost pos: seq<int>, ghost log: Log, ghost i0: nat, ghost p: int)
    returns (mem: Memory, moved: bool, last: Sptr)
    requires Chain(mem0, chain, pos) && Holds(mem0, chain, pos, log)
    requires i0 < |chain| && c0 == chain[i0] && pos[i0] <= p < pos[i0 + 1] && tailIdx == Wrap(p)
    requires p + |src| <= pos[|chain|]
    ensures Chain(mem, chain, pos) && Holds(mem, chain, pos, Overlay(log, p, src)) && OnlyData(mem0, mem, chain)
    ensures pos[0] <= p && (if moved then last else c0) == ChunkFor(chain, pos, p + |src|)
  {
    hide Chain, Holds, OnlyData, Overlay, Store, ChunkFor;
    mem := mem0;
    var c := c0;
    ChainAt(mem, chain, pos, i0);
    SubWraps(pos[i0], p);
    var o := Sub(tailIdx, mem[c].start);
    var n := mem[c].length - o;
    if n <= |src| {
      StoreHolds(mem, chain, pos, log, i0, o, src[..n]);
      mem := Store(mem, c, o, src[..n]);
      ghost var i := i0 + 1;
      ChainAt(mem, chain, pos, i0);
      c := mem[c].next;
      var toCopy := |src| - n;
      if i < |chain| {
        ChainAt(mem, chain, pos, i);
      }
      while toCopy != 0
        invariant 0 <= toCopy <= |src| && i <= |chain| && c == Nth(chain, i)
        invariant Chain(mem, chain, pos) && Holds(mem, chain, pos, Overlay(log, p, src[..|src| - toCopy]))
        invariant OnlyData(mem0, mem, chain)
        invariant toCopy > 0 ==> p + |src| - toCopy == pos[i]
        invariant toCopy == 0 ==> pos[i] <= p + |src| && (i < |chain| ==> p + |src| < pos[i + 1])
      {
        ChainAt(mem, chain, pos, i);
        n := if mem[c].length < toCopy then mem[c].length else toCopy;
        ghost var done := |src| - toCopy;
        StoreHolds(mem, chain, pos, Overlay(log, p, src[..done]), i, 0, src[done..done + n]);
        OverlayAppend(log, p, src[..done], src[done..done + n]);
        assert src[..done] + src[done..done + n] == src[..done + n];
        OnlyDataTransitive(mem0, mem, Store(mem, c, 0, src[done..done + n]), chain);
        mem := Store(mem, c, 0, src[|src| - toCopy..|src| - toCopy + n]);
        ChainAt(mem, chain, pos, i);
        if mem[c].length <= toCopy {
          c := mem[c].next;
          i := i + 1;
        }
        toCopy := toCopy - n;
        if i < |chain| {
          ChainAt(mem, chain, pos, i);
        }
      }
      assert src[..|src|] == src;
      moved, last := true, c;
      ChunkForIs(mem, chain, pos, i, p + |src|);
    } else {
      StoreHolds(mem, chain, pos, log, i0, o, src);
      mem := Store(mem, c, o, src);
      moved, last := false, c;
      ChunkForIs(mem, chain, pos, i0, p + |src|);
    }
  }

  lemma ChunkForIs(mem: Memory, chain: seq<Sptr>, pos: seq<int>, i: nat, p: int)
    requires Chain(mem, chain, pos) && i <= |chain| && pos[i] <= p && (i < |chain| ==> p < pos[i + 1])
    ensures pos[0] <= p && ChunkFor(chain, pos, p) == Nth(chain, i)
  {
    if i < |chain| {
      FindUnique(pos, p, i);
    }
  }

  /** n positions from p on are recorded in the log. */
  ghost predicate Recorded(log: Log, p: int, n: int) {
    forall q :: p <= q < p + n ==> q in log
  }

  /** The n bytes recorded from position p on; 0 stands for positions never written. */
  ghost function Bytes(log: Log, p: int, n: nat): (r: seq<u8>)
    ensures |r| == n
  {
    seq(n, k requires 0 <= k < n => if p + k in log then log[p + k] else 0)
  }

  lemma BytesAppend(log: Log, p: int, m: nat, n: nat)
    ensures Bytes(log, p, m) + Bytes(log, p + m, n) == Bytes(log, p, m + n)
  {
  }

  lemma LoadHolds(mem: Memory, chain: seq<Sptr>, pos: seq<int>, log: Log, i: nat, o: nat, n: nat)
    requires Chain(mem, chain, pos) && Holds(mem, chain, pos, log) && i < |chain|
    requires o + n <= pos[i + 1] - pos[i] && Recorded(log, pos[i] + o, n)
    ensures chain[i] in mem && o + n <= |mem[chain[i]].data|
    ensures mem[chain[i]].data[o..o + n] == Bytes(log, pos[i] + o, n)
  {
    ChainAt(mem, chain, pos, i);
    assert HoldsAt(mem, chain, pos, log, i);
    var data := mem[chain[i]].data;
    var r := Bytes(log, pos[i] + o, n);
    forall k | 0 <= k < n ensures data[o..o + n][k] == r[k] {
      assert data[o + k] == log[pos[i] + (o + k)];
    }
  }

  lemma RecordedPart(log: Log, p: int, n: int, o: nat, m: nat)
    requires Recorded(log, p, n) && o + m <= n
    ensures Recorded(log, p + o, m)
  {
  }

  /** svm_fifo_copy_from_chunk: reads len bytes from position p on, starting in the i0-th chunk. */
  method CopyFromChunk(mem: Memory, c0: Sptr, headIdx: u32, len: nat,
                       ghost chain: seq<Sptr>, ghost pos: seq<int>, ghost log: Log, ghost i0: nat, ghost p: int)
    returns (dst: seq<u8>, moved: bool, last: Sptr)
    requires Chain(mem, chain, pos) && Holds(mem, chain, pos, log)
    requires i0 < |chain| && c0 == chain[i0] && pos[i0] <= p < pos[i0 + 1] && headIdx == Wrap(p)
    requires p + len <= pos[|chain|] && Recorded(log, p, len)
    ensures dst == Bytes(log, p, len)
    ensures pos[0] <= p && (if moved then last else c0) == ChunkFor(chain, pos, p + len)
  {
    hide Chain, Holds, ChunkFor, Bytes, Recorded, Wrap, Sub, Ascending, NoRepeats;
    var c := c0;
    ChainAt(mem, chain, pos, i0);
    SubWraps(pos[i0], p);
    var o := Sub(headIdx, mem[c].start);
    var n := mem[c].length - o;
    if n <= len {
      RecordedPart(log, p, len, 0, n);
      LoadHolds(mem, chain, pos, log, i0, o, n);
      dst := mem[c].data[o..o + n];
      ghost var i := i0 + 1;
      c := mem[c].next;
      var toCopy := len - n;
      if i < |chain| {
        ChainAt(mem, chain, pos, i);
      }
      while toCopy != 0
        invariant 0 <= toCopy <= len && i <= |chain| && c == Nth(chain, i)
        invariant dst == Bytes(log, p, len - toCopy)
        invariant toCopy > 0 ==> p + len - toCopy == pos[i]
        invariant toCopy == 0 ==> pos[i] <= p + len && (i < |chain| ==> p + len < pos[i + 1])
      {
        ChainAt(mem, chain, pos, i);
        n := if mem[c].length < toCopy then mem[c].length else toCopy;
        RecordedPart(log, p, len, len - toCopy, n);
        BytesAppend(log, p, len - toCopy, n);
        LoadHolds(mem, chain, pos, log, i, 0, n);
        dst := dst + mem[c].data[0..n];
        if mem[c].length <= toCopy {
          c := mem[c].next;
          i := i + 1;
        }
        toCopy := toCopy - n;
        if i < |chain| {
          ChainAt(mem, chain, pos, i);
        }
      }
      moved, last := true, c;
      ChunkForIs(mem, chain, pos, i, p + len);
    } else {
      LoadHolds(mem, chain, pos, log, i0, o, len);
      dst := mem[c].data[o..o + len];
      moved, last := false, c;
      ChunkForIs(mem, chain, pos, i0, p + len);
    }
  }
}
