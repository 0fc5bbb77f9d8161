/** The chunk allocator of a fifo segment (src/svm/fifo_segment.c): a bump allocator that
    carves chunks, free lists per slice and size class, and byte counters. Each push and
    pop is one step here; TaggedStack shows that the lock-free code makes it one. */
module Segments {
  import opened Position
  import opened Chunks
  import opened SizeClasses
  import opened FreeLists
  import opened SegmentState
  import opened SegmentBounds

  class Segment {
    const nSlices: nat
    var mem: Memory
    var byteIndex: nat
    var maxByteIndex: nat
    var heads: map<Key, Sptr>
    var nFl: seq<int>
    var nCached: int
    var numChunks: map<Key, int>
    ghost var lists: map<Key, seq<Sptr>>
    ghost var place: Places

    ghost predicate ValidOwing(s: nat, n: int)
      reads this
    {
      Inv(mem, byteIndex, heads, nFl, nCached, numChunks, lists, place, s, n) && 0 < byteIndex < maxByteIndex <= SEGMENT_LIMIT && |nFl| == nSlices
    }

    ghost predicate Valid()
      reads this
    {
      ValidOwing(0, 0)
    }

    /** What is left to serve requests from. */
    ghost function Left(): (p: Supply)
      reads this
      ensures p.byteIndex == byteIndex && p.maxByteIndex == maxByteIndex
    {
      Supply(lists, nFl, byteIndex, maxByteIndex)
    }

    lemma OwnKeys(s: nat)
      requires Valid() && s < nSlices
      ensures Supplied(Left(), s)
    {
      hide Structure, Counted, Regions, Owing;
    }

    /** fifo_segment_init: a segment of n slices whose header ends at base. */
    constructor (n: nat, base: nat, size: nat)
      requires 0 < base < size <= SEGMENT_LIMIT
      ensures Valid() && nSlices == (if n == 0 then 1 else n) && mem == map[] && byteIndex == base && maxByteIndex == size
    {
      var slices := if n == 0 then 1 else n;
      nSlices := slices;
      mem, byteIndex, maxByteIndex, nCached := map[], base, size, 0;
      nFl := seq(slices, i => 0);
      heads := map k | k in Keys(slices) :: NULL;
      numChunks := map k | k in Keys(slices) :: 0;
      lists := map k | k in Keys(slices) :: [];
      place := map[];
      new;
      EmptyInv(base, heads, nFl, numChunks, lists);
    }

    lemma ChunkSizes()
      requires Valid()
      ensures place.Keys == mem.Keys && WellSized(mem)
    {
      hide Owing, Counted, Regions, ListsOk, Membership, IndexToSize;
      forall x | x in mem ensures MIN_SIZE <= mem[x].length <= MAX_SIZE && |mem[x].data| == mem[x].length {
        ClassBounds(place[x].key.fl);
      }
    }

    /** A write to chunks that are handed out, by their owner. */
    method Write(m: Memory, ghost own: seq<Sptr>, ghost s: nat)
      requires Valid() && HandedOut(place, own, s) && OwnWrite(mem, m, own)
      modifies this`mem
      ensures Valid() && mem == m
    {
      hide Inv;
      InvKeys(mem, byteIndex, heads, nFl, nCached, numChunks, lists, place, 0, 0);
      WriteInv(mem, m, byteIndex, heads, nFl, nCached, numChunks, lists, place, 0, 0);
      mem := m;
    }

    /** fss_chunk_free_list_pop. */
    method Pop(k: Key, ghost n: int) returns (c: Sptr)
      requires ValidOwing(k.slice, n) && k in lists
      modifies this`heads, this`lists, this`place
      ensures c == NULL ==> old(lists[k]) == [] && ValidOwing(k.slice, n) && unchanged(this)
      ensures c != NULL ==>
                && ValidOwing(k.slice, n + IndexToSize(k.fl))
                && c in old(place) && old(place)[c] == Place(k, true) && old(lists)[k] != [] && c == old(lists)[k][0]
                && lists == old(lists)[k := old(lists)[k][1..]]
                && place == old(place)[c := Place(k, false)]
    {
      hide Inv, IndexToSize;
      PopInv(mem, byteIndex, heads, nFl, nCached, numChunks, lists, place, k, n);
      c := heads[k];
      if c != NULL {
        heads := heads[k := mem[c].next];
        lists := lists[k := lists[k][1..]];
        place := place[c := Place(k, false)];
      }
    }

    /** fss_chunk_free_list_push. */
    method Push(k: Key, c: Sptr, ghost n: int)
      requires ValidOwing(k.slice, n) && k in lists && c in place && place[c] == Place(k, false)
      modifies this`mem, this`heads, this`lists, this`place
      ensures ValidOwing(k.slice, n - IndexToSize(k.fl))
      ensures lists == old(lists)[k := [c] + old(lists)[k]]
      ensures place == old(place)[c := Place(k, true)]
      ensures OnlyNext(old(mem), mem, [c])
    {
      hide Inv, IndexToSize;
      PushInv(mem, byteIndex, heads, nFl, nCached, numChunks, lists, place, k, n, c);
      mem := mem[c := mem[c].(next := heads[k])];
      heads := heads[k := c];
      lists := lists[k := [c] + lists[k]];
      place := place[c := Place(k, true)];
    }

    /** A write to the next pointer of a chunk that is handed out. */
    method SetNext(c: Sptr, next: Sptr, ghost s: nat, ghost n: int)
      requires ValidOwing(s, n) && c in place && !place[c].free
      modifies this`mem
      ensures ValidOwing(s, n) && c in old(mem) && mem == old(mem)[c := old(mem)[c].(next := next)]
    {
      hide Inv;
      InvKeys(mem, byteIndex, heads, nFl, nCached, numChunks, lists, place, s, n);
      WriteInv(mem, mem[c := mem[c].(next := next)], byteIndex, heads, nFl, nCached, numChunks, lists, place, s, n);
      mem := mem[c := mem[c].(next := next)];
    }

    /** The loop that puts a chain of chunks back, each on the list of its own size. */
    method PushChain(s: nat, first: Sptr, ghost chain: seq<Sptr>, ghost n: int) returns (total: nat)
      requires ValidOwing(s, n) && ListOk(mem, first, chain) && HandedOut(place, chain, s)
      modifies this`mem, this`heads, this`lists, this`place
      ensures ValidOwing(s, n - total)
      ensures place == Marked(old(place), chain, true)
      ensures OnlyNext(old(mem), mem, chain)
      ensures (forall x :: x in chain ==> x in old(mem)) && total == TotalLength(old(mem), chain)
    {
      hide Inv, ListOk, Marked, OnlyNext, IndexToSize, FreelistForSize, TotalLength;
      ghost var mem0, place0 := mem, place;
      ListFacts(mem, first, chain);
      MarkedEnds(place, chain, true);
      OnlyNextNone(mem, chain);
      assert chain[0..] == chain;
      var c := first;
      ghost var i := 0;
      total := 0;
      while c != NULL
        invariant i <= |chain| && c == Nth(chain, i) && ListOk(mem, c, chain[i..])
        invariant ValidOwing(s, n - total)
        invariant place == Marked(place0, chain[..i], true) && OnlyNext(mem0, mem, chain[..i])
        invariant total + TotalLength(mem0, chain[i..]) == TotalLength(mem0, chain)
        decreases |chain| - i
      {
        InvKeys(mem, byteIndex, heads, nFl, nCached, numChunks, lists, place, s, n - total);
        RestUnmarked(place0, chain, i, true);
        OnlyNextLength(mem0, mem, chain[..i], c);
        TotalLengthStep(mem0, chain, i);
        MarkedStep(place0, chain, i, true);
        ghost var m := mem;
        var next := mem[c].next;
        var k := Key(s, FreelistForSize(mem[c].length));
        ClassOfSize(place[c].key.fl);
        Push(k, c, n - total);
        ListRest(m, mem, chain, i);
        OnlyNextStep(mem0, m, mem, chain, i);
        total := total + IndexToSize(k.fl);
        c := next;
        i := i + 1;
        ListFacts(mem, c, chain[i..]);
      }
      ListHead(mem, c, chain[i..]);
      MarkedEnds(place0, chain, true);
      assert chain[..i] == chain;
      TotalLengthEmpty(mem0, chain[i..]);
    }

    lemma Rest(s: nat, t: nat)
      requires ValidOwing(s, 0)
      ensures ValidOwing(t, 0)
    {
      OwingAny(lists, nFl, nCached, s, t);
    }

    /** Takes m bytes of slice s off its counters. */
    method Settle(s: nat, m: int, ghost n: int)
      requires ValidOwing(s, n) && s < |nFl|
      modifies this`nFl, this`nCached
      ensures ValidOwing(s, n - m) && |nFl| == old(|nFl|)
      ensures nFl == old(nFl)[s := old(nFl)[s] - m] && nCached == old(nCached) - m
    {
      OwingSettle(lists, nFl, nCached, s, n, m);
      nFl := nFl[s := nFl[s] - m];
      nCached := nCached - m;
    }

    /** fsh_slice_collect_chunks: a chain that was handed out goes back to the free lists. */
    method CollectChunks(s: nat, first: Sptr, ghost chain: seq<Sptr>)
      requires Valid() && s < nSlices && ListOk(mem, first, chain) && HandedOut(place, chain, s)
      modifies this`mem, this`heads, this`lists, this`place, this`nFl, this`nCached
      ensures Valid()
      ensures place == Marked(old(place), chain, true) && OnlyNext(old(mem), mem, chain)
    {
      hide Inv, ListOk, Marked, OnlyNext, IndexToSize, TotalLength;
      Rest(0, s);
      var total: int := PushChain(s, first, chain, 0);
      Settle(s, -total, -total);
      Rest(s, 0);
    }

    /** The last attempt of fs_try_alloc_multi_chunk: one chunk of the next larger class. */
    method TryLarger(s: nat, data: nat) returns (first: Sptr, ghost got: seq<Sptr>, ghost total: nat)
      requires ValidOwing(s, 0) && s < |nFl|
      modifies this`mem, this`heads, this`lists, this`place, this`nFl, this`nCached
      ensures ValidOwing(s, 0) && |nFl| == old(|nFl|)
      ensures first == NULL ==> unchanged(this)
      ensures first == NULL <==> LargerEmpty(old(lists), s, data)
      ensures first != NULL ==> data <= total <= Cap(data) && Took(old(mem), old(place), mem, place, first, got, s, total)
      ensures first != NULL ==> got == [first] && total == IndexToSize(FreelistForSize(data) + 1)
    {
      hide Inv, Took, IndexToSize, FreelistForSize;
      first, got, total := NULL, [], 0;
      var fl := FreelistForSize(data) + 1;
      if fl >= VEC_LEN {
        return;
      }
      InvKeys(mem, byteIndex, heads, nFl, nCached, numChunks, lists, place, s, 0);
      ghost var mem0, place0 := mem, place;
      first := Pop(Key(s, fl), 0);
      if first != NULL {
        TookNothing(mem0, place0, s);
        TookStep(mem0, place0, mem0, place0, NULL, [], s, 0, first);
        LargerClass(data);
        SetNext(first, NULL, s, IndexToSize(fl));
        got, total := [first], IndexToSize(fl);
        assert [first] + [] == got;
        Settle(s, IndexToSize(fl), IndexToSize(fl));
      }
    }

    /** The failure path of fs_try_alloc_multi_chunk: puts back what was taken, then tries a larger chunk. */
    method GiveBack(s: nat, data: nat, first0: Sptr, ghost got0: seq<Sptr>, ghost total0: nat,
                    ghost mem0: Memory, ghost heads0: map<Key, Sptr>, ghost lists0: map<Key, seq<Sptr>>, ghost place0: Places)
      returns (first: Sptr, ghost got: seq<Sptr>, ghost total: nat)
      requires ValidOwing(s, total0) && s < |nFl|
      requires Took(mem0, place0, mem, place, first0, got0, s, total0)
      requires Inv(mem0, byteIndex, heads0, nFl, nCached, numChunks, lists0, place0, s, 0)
      modifies this`mem, this`heads, this`lists, this`place, this`nFl, this`nCached
      ensures ValidOwing(s, 0) && |nFl| == old(|nFl|)
      ensures first == NULL ==> place == place0 && nFl == old(nFl) && nCached == old(nCached) && FreeFrame(mem0, mem, place0)
      ensures first == NULL <==> LargerEmpty(lists0, s, data)
      ensures first != NULL ==> data <= total <= Cap(data) && Took(mem0, place0, mem, place, first, got, s, total)
      ensures first != NULL ==> got == [first] && total == IndexToSize(FreelistForSize(data) + 1)
    {
      hide Inv, Took, FreeFrame, OnlyNext, Marked, LargerEmpty;
      TookHandedOut(mem0, place0, mem, place, first0, got0, s, total0);
      ghost var m := mem;
      var n := PushChain(s, first0, got0, total0);
      TookUndone(mem0, place0, m, old(place), first0, got0, s, total0, mem);
      ghost var m1 := mem;
      LargerEmptySame(mem0, byteIndex, heads0, nFl, nCached, numChunks, lists0, place0, s, mem, heads, lists, data);
      first, got, total := TryLarger(s, data);
      if first != NULL {
        TookAfter(mem0, place0, m1, mem, place, first, got, s, total);
      }
    }

    /** One round of fs_try_alloc_multi_chunk: takes a chunk off a list and puts it in front of first. */
    method TakeOne(k: Key, first: Sptr, ghost got: seq<Sptr>, ghost total: nat, ghost mem0: Memory, ghost place0: Places) returns (c: Sptr)
      requires ValidOwing(k.slice, total) && k.slice < |nFl| && k.fl < VEC_LEN && Took(mem0, place0, mem, place, first, got, k.slice, total)
      modifies this`mem, this`heads, this`lists, this`place
      ensures k in old(lists)
      ensures c == NULL ==> unchanged(this) && lists[k] == []
      ensures c != NULL ==> ValidOwing(k.slice, total + IndexToSize(k.fl)) && old(lists)[k] != [] && lists == old(lists)[k := old(lists)[k][1..]]
      ensures c != NULL ==> Took(mem0, place0, mem, place, c, [c] + got, k.slice, total + IndexToSize(k.fl)) && c in place0 && place0[c].key == k
    {
      hide Inv, Took, IndexToSize;
      InvKeys(mem, byteIndex, heads, nFl, nCached, numChunks, lists, place, k.slice, total);
      ghost var m, p := mem, place;
      c := Pop(k, total);
      if c != NULL {
        TookStep(mem0, place0, m, p, first, got, k.slice, total, c);
        TookKey(mem0, place0, m, p, first, got, k.slice, total, c);
        SetNext(c, first, k.slice, total + IndexToSize(k.fl));
      }
    }

    /** fs_try_alloc_multi_chunk: covers the request with chunks of smaller classes, or
        gives them all back and tries one larger chunk. */
    method TryAllocMulti(s: nat, data: nat) returns (first: Sptr, ghost got: seq<Sptr>, ghost total: nat)
      requires ValidOwing(s, 0) && s < |nFl| && 0 < data < TWO_32
      modifies this`mem, this`heads, this`lists, this`place, this`nFl, this`nCached
      ensures ValidOwing(s, 0) && |nFl| == old(|nFl|)
      ensures first == NULL ==>
                place == old(place) && nFl == old(nFl) && nCached == old(nCached) && FreeFrame(old(mem), mem, old(place))
      ensures (forall i :: 0 <= i < VEC_LEN ==> Key(s, i) in old(lists))
      ensures first == NULL <==> MultiBytes(old(lists), s, data) < data && LargerEmpty(old(lists), s, data)
      ensures first != NULL ==> data <= total <= Cap(data) && Took(old(mem), old(place), mem, place, first, got, s, total)
      ensures MultiBytes(old(lists), s, data) >= data ==>
                LargestFirst(place, lists, got, s, MultiStart(data)) && got != [] && got[0] in mem && total < data + mem[got[0]].length
      ensures first != NULL && MultiBytes(old(lists), s, data) < data ==> got == [first] && total == IndexToSize(FreelistForSize(data) + 1)
    {
      hide Inv, Took, IndexToSize, FreelistForSize, Draining, Combined, LargestFirst, MultiBytes, ListBytes, LargerEmpty, FreeFrame, Cap, MultiStart;
      ghost var mem0, place0, lists0, heads0 := mem, place, lists, heads;
      MultiSizes(data);
      ghost var start := MultiStart(data);
      InvKeys(mem, byteIndex, heads, nFl, nCached, numChunks, lists, place, s, 0);
      TookNothing(mem, place, s);
      DrainInit(lists, |nFl|, s, start);
      AllKeys(lists, |nFl|, s);
      MultiBytesIs(lists, s, data);
      var fl := MultiStart(data);
      var size := IndexToSize(fl);
      var req := data;
      first, got, total := NULL, [], 0;
      CombinedNone(place0, fl, start, data);
      var nAlloc := 0;
      while req != 0
        invariant ValidOwing(s, nAlloc) && nAlloc == total && |nFl| == old(|nFl|)
        invariant Took(mem0, place0, mem, place, first, got, s, total)
        invariant fl <= start && size == IndexToSize(fl) && Draining(lists0, lists, s, fl, start, total)
        invariant req == if total < data then data - total else 0
        invariant total < data + IndexToSize(start)
        invariant Combined(place0, got, fl, start, total, data)
        invariant nFl == old(nFl) && nCached == old(nCached)
        decreases fl, if Key(s, fl) in lists then |lists[Key(s, fl)]| else 0
      {
        ghost var l := lists;
        var c := TakeOne(Key(s, fl), first, got, total, mem0, place0);
        if c != NULL {
          DrainStep(lists0, l, s, fl, start, total);
          ClassMonotone(fl, start);
          CombinedMore(place0, got, c, fl, start, total, data);
          first, got, total := c, [c] + got, total + size;
          nAlloc := nAlloc + size;
          req := req - (if size < req then size else req);
        } else if fl == 0 {
          DrainedAll(lists0, lists, s, start, total);
          first, got, total := GiveBack(s, data, first, got, total, mem0, heads0, lists0, place0);
          return;
        } else {
          DrainNext(lists0, lists, s, fl, start, total);
          CombinedDown(place0, got, fl, start, total, data);
          fl := fl - 1;
          size := size / 2;
        }
      }
      TookHandedOut(mem0, place0, mem, place, first, got, s, total);
      DrainedPart(lists0, lists, s, fl, start, total);
      InvKeys(mem, byteIndex, heads, nFl, nCached, numChunks, lists, place, s, total);
      CombinedAll(mem0, place0, mem, place, first, got, s, total, lists0, lists, fl, start, data);
      Settle(s, nAlloc, nAlloc);
    }

    /** fsh_alloc_aligned without contention: the next free bytes, or null when they do not fit. */
    method AllocAligned(size: nat) returns (p: Sptr)
      requires byteIndex > 0
      modifies this`byteIndex
      ensures p == NULL ==> byteIndex == old(byteIndex) && RoundUp8(byteIndex) + RoundUp8(size) >= maxByteIndex
      ensures p != NULL ==> p % 8 == 0 && old(byteIndex) <= p && p + size <= byteIndex < maxByteIndex
      ensures p != NULL ==> p == RoundUp8(old(byteIndex)) && byteIndex == p + RoundUp8(size)
    {
      var cur := RoundUp8(byteIndex);
      var newPos := cur + RoundUp8(size);
      if newPos >= maxByteIndex {
        return NULL;
      }
      byteIndex := newPos;
      p := cur;
    }

    /** Puts freshly carved chunks on list k and accounts for them. */
    method PushCarved(k: Key, base: Sptr, head: Sptr, carved: Memory, n: nat, size: nat,
                      ghost items: seq<Sptr>, ghost end: nat, ghost byteIndex0: nat)
      requires Inv(mem, byteIndex0, heads, nFl, nCached, numChunks, lists, place, k.slice, 0) && k in lists && 0 < byteIndex < maxByteIndex <= SEGMENT_LIMIT && |nFl| == nSlices
      requires n == |items| > 0 && size == IndexToSize(k.fl) && CarvedList(carved, head, items, base, end, size)
      requires 0 < base && byteIndex0 <= base && end <= byteIndex
      modifies this`mem, this`heads, this`nFl, this`nCached, this`numChunks, this`lists, this`place
      ensures ValidOwing(k.slice, 0) && |nFl| == old(|nFl|)
      ensures carved.Keys !! old(mem).Keys
      ensures lists == old(lists)[k := items + old(lists)[k]]
      ensures place == PlacedAt(old(place), carved, k)
      ensures mem.Keys == old(mem).Keys + carved.Keys && (forall x :: x in old(mem) ==> mem[x] == old(mem)[x])
      ensures k.slice < |nFl| && nFl[k.slice] == old(nFl)[k.slice] + BatchBytes(n, k.fl)
    {
      hide Inv, CarvedList, IndexToSize, Installed, PlacedAt, BatchBytes;
      CarveInv(mem, byteIndex0, heads, nFl, nCached, numChunks, lists, place, k, carved, head, items, base, end, byteIndex);
      InstalledKeys(mem, carved, base, heads[k]);
      mem := Installed(mem, carved, base, heads[k]);
      heads := heads[k := head];
      nFl := nFl[k.slice := nFl[k.slice] + BatchBytes(n, k.fl)];
      nCached := nCached + BatchBytes(n, k.fl);
      numChunks := numChunks[k := numChunks[k] + n];
      lists := lists[k := items + lists[k]];
      place := PlacedAt(place, carved, k);
    }

    /** fsh_try_alloc_chunk_batch: carves n chunks of a class and puts them on its free list. */
    method TryAllocBatch(k: Key, n: nat) returns (ok: bool, ghost carved: Memory, ghost items: seq<Sptr>)
      requires ValidOwing(k.slice, 0) && k in lists && n > 0
      modifies this
      ensures ValidOwing(k.slice, 0) && |nFl| == old(|nFl|) && maxByteIndex == old(maxByteIndex)
      ensures !ok ==> unchanged(this)
      ensures ok <==> Fits(old(byteIndex), maxByteIndex, n, IndexToSize(k.fl))
      ensures ok ==> byteIndex == RoundUp8(old(byteIndex)) + RoundUp8(BatchRoom(n, IndexToSize(k.fl)))
      ensures ok ==>
                && byteIndex > old(byteIndex) && |items| == n && carved.Keys !! old(mem).Keys
                && lists == old(lists)[k := items + old(lists)[k]]
                && place == PlacedAt(old(place), carved, k)
                && mem.Keys == old(mem).Keys + carved.Keys && (forall x :: x in old(mem) ==> mem[x] == old(mem)[x])
                && k.slice < |nFl| && nFl[k.slice] == old(nFl)[k.slice] + BatchBytes(n, k.fl)
    {
      hide Inv, CarvedList, IndexToSize, RoundUp8, PlacedAt, BatchBytes, BatchRoom;
      KeyBounds(mem, byteIndex, heads, nFl, nCached, numChunks, lists, place, k);
      ok, carved, items := false, map[], [];
      var size := IndexToSize(k.fl);
      ghost var byteIndex0 := byteIndex;
      BatchRoomPositive(n, size);
      var base := AllocAligned(BatchRoom(n, size));
      if base != NULL {
        var head, m;
        head, m, items := CarveChunks(base, size, n);
        PushCarved(k, base, head, m, n, size, items, base + BatchRoom(n, size), byteIndex0);
        carved, ok := m, true;
      }
    }

    /** The first attempt of fsh_try_alloc_chunk: one chunk of the request's own class. */
    method TryExact(s: nat, fl: nat) returns (c: Sptr, ghost got: seq<Sptr>, ghost total: nat)
      requires ValidOwing(s, 0) && s < |nFl| && fl < VEC_LEN
      modifies this`mem, this`heads, this`lists, this`place, this`nFl, this`nCached
      ensures ValidOwing(s, 0) && |nFl| == old(|nFl|)
      ensures c == NULL ==> unchanged(this)
      ensures Key(s, fl) in old(lists) && (c == NULL <==> old(lists)[Key(s, fl)] == [])
      ensures c != NULL ==> total == IndexToSize(fl) && Took(old(mem), old(place), mem, place, c, got, s, total)
      ensures c != NULL ==> c == old(lists)[Key(s, fl)][0] && got == [c] && lists == old(lists)[Key(s, fl) := old(lists)[Key(s, fl)][1..]]
    {
      hide Inv, Took, IndexToSize;
      InvKeys(mem, byteIndex, heads, nFl, nCached, numChunks, lists, place, s, 0);
      ghost var mem0, place0 := mem, place;
      got, total := [], 0;
      c := Pop(Key(s, fl), 0);
      if c != NULL {
        TookNothing(mem0, place0, s);
        TookStep(mem0, place0, mem0, place0, NULL, [], s, 0, c);
        SetNext(c, NULL, s, IndexToSize(fl));
        got, total := [c], IndexToSize(fl);
        assert [c] + [] == got;
        Settle(s, IndexToSize(fl), IndexToSize(fl));
      }
    }

    /** Whether the request's own class has a chunk or can be refilled. */
    method OwnClassServes(s: nat, data: nat) returns (yes: bool)
      requires Valid() && s < nSlices && 0 < data
      ensures Supplied(Left(), s) && (yes <==> OwnServes(Left(), s, data))
      ensures Key(s, FreelistForSize(data)) in lists && (yes <==> lists[Key(s, FreelistForSize(data))] != [] || CanRefill(Left(), data))
    {
      hide Inv, IndexToSize, FreelistForSize, Refillable, CanRefill;
      RefillableIs(Left(), data);
      OwnClass(data);
      Rest(0, s);
      InvKeys(mem, byteIndex, heads, nFl, nCached, numChunks, lists, place, s, 0);
      var k := Key(s, FreelistForSize(data));
      HeadIs(mem, byteIndex, heads, nFl, nCached, numChunks, lists, place, s, k);
      yes := heads[k] != NULL || Refillable(byteIndex, maxByteIndex, data);
    }

    /** fsh_try_alloc_chunk once the request's own class can neither serve nor be refilled. */
    method Fallback(s: nat, data: nat, nFree: nat) returns (c: Sptr, ghost got: seq<Sptr>, ghost total: nat)
      requires ValidOwing(s, 0) && s < |nFl| && 0 < data < TWO_32 && nFree == maxByteIndex - byteIndex
      requires Key(s, FreelistForSize(data)) in lists && lists[Key(s, FreelistForSize(data))] == []
      modifies this
      ensures ValidOwing(s, 0) && |nFl| == old(|nFl|) && maxByteIndex == old(maxByteIndex)
      ensures c == NULL ==> Extends(old(mem), old(place), mem, place)
      ensures c != NULL ==> Allocated(old(mem), old(place), mem, place, c, got, s)
      ensures c != NULL ==> (forall x :: x in got ==> x in mem) && data <= TotalLength(mem, got) == total <= Cap(data)
      ensures Supplied(old(Left()), s) && (c != NULL <==> FallsBack(old(Left()), s, data))
      ensures old(nFl)[s] < data ==> CarvesSmallest(old(Left()), s, data, nFree, byteIndex)
      ensures old(nFl)[s] >= data ==> CarvesRest(old(Left()), c, byteIndex)
    {
      hide CarvesSmallest, CarvesRest, Inv, Took, Extends, Allocated, IndexToSize, FreelistForSize, LastBatch, Cap, ListBytes, LargerEmpty, KeysOk, TotalLength,
           Fits, MultiBytes, BatchBytes, RoundUp8, BatchRoom, LastServes;
      ghost var mem0, place0 := mem, place;
      InvKeys(mem, byteIndex, heads, nFl, nCached, numChunks, lists, place, s, 0);
      ExtendsRefl(mem, place);
      if data <= nFl[s] {
        ghost var lists0 := lists;
        FreeBytesBound(mem, byteIndex, heads, nFl, nCached, numChunks, lists, place, s);
        c, got, total := TryAllocMulti(s, data);
        if c != NULL {
          ExtendsTook(mem0, place0, mem0, place0, mem, place, c, got, s, total);
          CarvesNothing(old(Left()), c);
          return;
        }
        MultiBytesIs(lists0, s, data);
        BytesBeyond(lists0, s, data, VEC_LEN);
        ExtendsFrame(mem0, place0, mem0, place0, mem);
        var batch := Wrap(nFree / MIN_SIZE);
        CarvesRestIs(old(Left()), nFree);
        if batch == 0 {
          return;
        }
        ghost var byteIndex0 := byteIndex;
        var ok := Refill(s, 0, batch, mem0, place0);
        if !ok {
          return;
        }
        NothingLeft(byteIndex0, maxByteIndex, byteIndex);
        FreeBytesBound(mem, byteIndex, heads, nFl, nCached, numChunks, lists, place, s);
        LastTooSmall(Left(), s, data, nFree);
      }
      FreeBytesBound(mem, byteIndex, heads, nFl, nCached, numChunks, lists, place, s);
      c, got, total := LastAttempt(s, data, nFree, mem0, place0);
    }

    /** The end of fsh_try_alloc_chunk: carves as many of the smallest chunks as are missing,
        going by the free bytes nFree that were read before, and combines chunks once more. */
    method LastAttempt(s: nat, data: nat, nFree: nat, ghost mem0: Memory, ghost place0: Places) returns (c: Sptr, ghost got: seq<Sptr>, ghost total: nat)
      requires ValidOwing(s, 0) && s < |nFl| && 0 < data < TWO_32 && 0 <= nFl[s] <= SEGMENT_LIMIT
      requires (nFl[s] <= data || nFl[s] > data + MIN_SIZE) && Extends(mem0, place0, mem, place) && place0.Keys == mem0.Keys
      modifies this
      ensures ValidOwing(s, 0) && |nFl| == old(|nFl|) && maxByteIndex == old(maxByteIndex)
      ensures c == NULL ==> Extends(mem0, place0, mem, place)
      ensures c != NULL ==> Allocated(mem0, place0, mem, place, c, got, s)
      ensures c != NULL ==> (forall x :: x in got ==> x in mem) && data <= TotalLength(mem, got) == total <= Cap(data)
      ensures Supplied(old(Left()), s) && (c != NULL <==> LastServes(old(Left()), s, data, nFree))
      ensures old(nFl)[s] <= data ==> CarvesSmallest(old(Left()), s, data, nFree, byteIndex)
      ensures maxByteIndex < old(byteIndex) + MIN_SIZE ==> byteIndex == old(byteIndex)
    {
      hide CarvesSmallest, Inv, Took, Extends, Allocated, IndexToSize, FreelistForSize, LastBatch, Cap, ListBytes, LargerEmpty, TotalLength,
           Fits, MultiBytes, BatchBytes, RoundUp8, BatchRoom;
      InvKeys(mem, byteIndex, heads, nFl, nCached, numChunks, lists, place, s, 0);
      AllKeys(lists, |nFl|, s);
      c, got, total := NULL, [], 0;
      CarvesSmallestIs(Left(), s, data, nFree);
      if data <= nFl[s] + nFree {
        if nFree < MIN_SIZE {
          return;
        }
        LastBatchPositive(data, nFl[s], nFree);
        ghost var lists1 := lists;
        NoneFits(byteIndex, maxByteIndex, LastBatch(data, nFl[s], nFree));
        var ok := Refill(s, 0, LastBatch(data, nFl[s], nFree), mem0, place0);
        if !ok {
          return;
        }
        ghost var mem1, place1 := mem, place;
        MultiMore(lists1, lists, s, data);
        c, got, total := TryAllocMulti(s, data);
        if c != NULL {
          ExtendsTook(mem0, place0, mem1, place1, mem, place, c, got, s, total);
        } else {
          ExtendsFrame(mem0, place0, mem1, place1, mem);
        }
      }
    }

    /** Carves n chunks of a class. */
    method Refill(s: nat, fl: nat, n: nat, ghost mem0: Memory, ghost place0: Places) returns (ok: bool)
      requires ValidOwing(s, 0) && s < |nFl| && fl < VEC_LEN && n > 0
      requires Extends(mem0, place0, mem, place) && place0.Keys == mem0.Keys
      modifies this
      ensures ValidOwing(s, 0) && |nFl| == old(|nFl|) && maxByteIndex == old(maxByteIndex)
      ensures Extends(mem0, place0, mem, place) && Key(s, fl) in old(lists)
      ensures ok <==> Fits(old(byteIndex), maxByteIndex, n, IndexToSize(fl))
      ensures ok ==> byteIndex == RoundUp8(old(byteIndex)) + RoundUp8(BatchRoom(n, IndexToSize(fl))) && byteIndex > old(byteIndex)
      ensures ok ==> Key(s, fl) in lists && lists == old(lists)[Key(s, fl) := lists[Key(s, fl)]] && |lists[Key(s, fl)]| == |old(lists)[Key(s, fl)]| + n
      ensures ok ==> nFl[s] == old(nFl)[s] + BatchBytes(n, fl)
      ensures !ok ==> unchanged(this)
    {
      hide Inv, Extends, BatchBytes, PlacedAt, IndexToSize, BatchRoom, RoundUp8, Fits;
      InvKeys(mem, byteIndex, heads, nFl, nCached, numChunks, lists, place, s, 0);
      ghost var m, p := mem, place;
      ghost var carved, items;
      ok, carved, items := TryAllocBatch(Key(s, fl), n);
      if ok {
        ExtendsCarve(mem0, place0, m, p, mem, carved, Key(s, fl));
      }
    }

    /** The refill of the request's own list once it is empty. */
    method RefillOwn(s: nat, data: nat, ghost mem0: Memory, ghost place0: Places) returns (ok: bool)
      requires ValidOwing(s, 0) && s < |nFl| && 0 < data && Extends(mem0, place0, mem, place) && place0.Keys == mem0.Keys
      requires Key(s, FreelistForSize(data)) in lists && lists[Key(s, FreelistForSize(data))] == []
      modifies this
      ensures ValidOwing(s, 0) && |nFl| == old(|nFl|) && maxByteIndex == old(maxByteIndex) && Extends(mem0, place0, mem, place)
      ensures ok <==> old(byteIndex) <= maxByteIndex && Refillable(old(byteIndex), maxByteIndex, data)
      ensures ok ==> Refilled(old(Left()), s, data, lists, byteIndex) && old(byteIndex) < byteIndex <= old(byteIndex) + MAX_REFILL
      ensures !ok ==> unchanged(this)
    {
      hide Inv, Extends, IndexToSize, FreelistForSize, Fits, RoundUp8, BatchRoom, BatchBytes, OwnBatch, Refilled;
      var fl := FreelistForSize(data);
      OwnClass(data);
      var size, nFree := IndexToSize(fl), maxByteIndex - byteIndex;
      ok := false;
      if size <= nFree {
        OwnBatchBounds(size, nFree);
        RefillBytes(byteIndex, fl, OwnBatch(size, nFree));
        ok := Refill(s, fl, OwnBatch(size, nFree), mem0, place0);
        if ok {
          RefilledIs(old(Left()), s, data, lists, byteIndex);
        }
      }
    }

    /** fsh_try_alloc_chunk: null with nothing handed out, or a chain of chunks of slice s
        that covers the request when the request is at most 4 MB. */
    method TryAllocChunk(s: nat, data: nat) returns (c: Sptr, ghost got: seq<Sptr>)
      requires Valid() && s < nSlices && 0 < data < TWO_32
      modifies this
      ensures Valid() && maxByteIndex == old(maxByteIndex)
      ensures c == NULL ==> Extends(old(mem), old(place), mem, place)
      ensures c != NULL ==> Allocated(old(mem), old(place), mem, place, c, got, s)
      ensures c != NULL ==> (forall x :: x in got ==> x in mem) && TotalLength(mem, got) <= Cap(data)
      ensures c != NULL ==> data <= TotalLength(mem, got) || TotalLength(mem, got) == MAX_SIZE < data
      ensures Supplied(old(Left()), s) && (c != NULL ==> (data <= TotalLength(mem, got) <==> data <= MAX_SIZE || !OwnServes(old(Left()), s, data)))
      ensures Supplied(old(Left()), s) && (c != NULL <==> Served(old(Left()), s, data))
      ensures Refillable(old(byteIndex), maxByteIndex, data) ==> byteIndex <= old(byteIndex) + MAX_REFILL
      ensures Handles(old(Left()), s, data, c, got, lists, byteIndex)
    {
      hide Inv, Took, Extends, Allocated, IndexToSize, FreelistForSize, Cap, TotalLength, PlacedAt, BatchBytes, FallsBack, Fits, RoundUp8, BatchRoom,
           Handles, Refilled, CarvesSmallest, CarvesRest, OwnBatch, Refillable;
      Rest(0, s);
      ghost var mem0, place0, p := mem, place, Left();
      ghost var total;
      var fl := FreelistForSize(data);
      OwnClass(data);
      ExtendsRefl(mem, place);
      InvKeys(mem, byteIndex, heads, nFl, nCached, numChunks, lists, place, s, 0);
      while true
        invariant ValidOwing(s, 0) && |nFl| == old(|nFl|) && maxByteIndex == old(maxByteIndex)
        invariant Extends(mem0, place0, mem, place)
        invariant p.byteIndex <= p.maxByteIndex && (Left() == p || Refillable(p.byteIndex, p.maxByteIndex, data))
        invariant Left() == p || Refilled(p, s, data, lists, byteIndex)
        invariant byteIndex <= p.byteIndex + MAX_REFILL
        decreases maxByteIndex - byteIndex
      {
        ghost var mem1, place1, lists1 := mem, place, lists;
        c, got, total := TryExact(s, fl);
        if c != NULL {
          ExtendsTook(mem0, place0, mem1, place1, mem, place, c, got, s, total);
          HandlesOwn(p, s, data, lists1, c, lists, byteIndex);
          Rest(s, 0);
          return;
        }
        RefilledHas(p, s, data, lists, byteIndex);
        var nFree := maxByteIndex - byteIndex;
        var ok := RefillOwn(s, data, mem0, place0);
        if !ok {
          ghost var mem2, place2 := mem, place;
          c, got, total := Fallback(s, data, nFree);
          InvKeys(mem, byteIndex, heads, nFl, nCached, numChunks, lists, place, s, 0);
          HandlesFallback(p, s, data, c, got, lists, byteIndex);
          if c == NULL {
            ExtendsTrans(mem0, place0, mem2, place2, mem, place);
          } else {
            ExtendsAllocated(mem0, place0, mem2, place2, mem, place, c, got, s);
          }
          Rest(s, 0);
          return;
        }
      }
    }
  }
}
