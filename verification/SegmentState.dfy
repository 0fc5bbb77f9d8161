/** The state of a fifo segment's chunk allocator and what each of its steps keeps
    (src/svm/fifo_segment.c). */
module SegmentState {
  import opened Sequences
  import opened Position
  import opened Chunks
  import opened SizeClasses
  import opened FreeLists

  const CHUNK_HDR: nat := 24
  const BATCH_SIZE: nat := 32

  /** Lists exist for every slice and size class. */
  ghost predicate KeysOk(lists: map<Key, seq<Sptr>>, n: nat) {
    forall k :: k in lists <==> k.slice < n && k.fl < VEC_LEN
  }

  /** The lists of a segment of n slices. */
  function Keys(n: nat): (ks: set<Key>)
    ensures forall k :: k in ks <==> k.slice < n && k.fl < VEC_LEN
  {
    set i: nat, f: nat | i < n && f < VEC_LEN :: Key(i, f)
  }

  lemma {:induction false} ZeroSum(q: seq<int>)
    requires forall i :: 0 <= i < |q| ==> q[i] == 0
    ensures Sum(q) == 0
  {
    if q != [] {
      ZeroSum(q[1..]);
    }
  }

  /** num_chunks counts the chunks of each list, free or handed out. */
  ghost predicate Counted(place: Places, numChunks: map<Key, int>, lists: map<Key, seq<Sptr>>) {
    numChunks.Keys == lists.Keys && (forall k :: k in numChunks ==> numChunks[k] == |Members(place, k)|)
  }

  /** Chunks occupy disjoint regions below the bump index. */
  ghost predicate Regions(mem: Memory, byteIndex: nat) {
    && (forall x :: x in mem ==> 0 < x && x + CHUNK_HDR + mem[x].length <= byteIndex)
    && (forall x, y :: x in mem && y in mem && x < y ==> x + CHUNK_HDR + mem[x].length <= y)
  }

  /** The counters show the bytes on the free lists, and n more bytes for slice s. */
  ghost predicate Owing(lists: map<Key, seq<Sptr>>, nFl: seq<int>, nCached: int, s: nat, n: int)
    requires KeysOk(lists, |nFl|)
  {
    && nCached == Sum(nFl)
    && (forall i: nat :: i < |nFl| ==> nFl[i] == ListBytes(lists, i, VEC_LEN) + (if i == s then n else 0))
  }

  lemma OwingUpdate(lists: map<Key, seq<Sptr>>, nFl: seq<int>, nCached: int, s: nat, n: int, k: Key, l: seq<Sptr>)
    requires KeysOk(lists, |nFl|) && Owing(lists, nFl, nCached, s, n) && k in lists && k.slice == s
    ensures KeysOk(lists[k := l], |nFl|)
    ensures Owing(lists[k := l], nFl, nCached, s, n - (|l| - |lists[k]|) * IndexToSize(k.fl))
  {
    forall i: nat | i < |nFl|
      ensures nFl[i] == ListBytes(lists[k := l], i, VEC_LEN) + (if i == s then n - (|l| - |lists[k]|) * IndexToSize(k.fl) else 0)
    {
      ListBytesUpdate(lists, i, VEC_LEN, k, l);
    }
  }

  lemma OwingPush(lists: map<Key, seq<Sptr>>, nFl: seq<int>, nCached: int, s: nat, n: int, k: Key, c: Sptr)
    requires KeysOk(lists, |nFl|) && Owing(lists, nFl, nCached, s, n) && k in lists && k.slice == s
    ensures KeysOk(lists[k := [c] + lists[k]], |nFl|)
    ensures Owing(lists[k := [c] + lists[k]], nFl, nCached, s, n - IndexToSize(k.fl))
  {
    hide Owing, KeysOk, IndexToSize;
    OwingUpdate(lists, nFl, nCached, s, n, k, [c] + lists[k]);
    assert (|[c] + lists[k]| - |lists[k]|) * IndexToSize(k.fl) == IndexToSize(k.fl);
  }

  lemma OwingPop(lists: map<Key, seq<Sptr>>, nFl: seq<int>, nCached: int, s: nat, n: int, k: Key)
    requires KeysOk(lists, |nFl|) && Owing(lists, nFl, nCached, s, n) && k in lists && k.slice == s && lists[k] != []
    ensures KeysOk(lists[k := lists[k][1..]], |nFl|)
    ensures Owing(lists[k := lists[k][1..]], nFl, nCached, s, n + IndexToSize(k.fl))
  {
    OwingUpdate(lists, nFl, nCached, s, n, k, lists[k][1..]);
  }

  lemma OwingSettle(lists: map<Key, seq<Sptr>>, nFl: seq<int>, nCached: int, s: nat, n: int, m: int)
    requires KeysOk(lists, |nFl|) && Owing(lists, nFl, nCached, s, n) && s < |nFl|
    ensures Owing(lists, nFl[s := nFl[s] - m], nCached - m, s, n - m)
  {
    SumUpdate(nFl, s, nFl[s] - m);
  }

  lemma MembersMove(place: Places, numChunks: map<Key, int>, lists: map<Key, seq<Sptr>>, c: Sptr, free: bool)
    requires Counted(place, numChunks, lists) && c in place
    ensures Counted(place[c := Place(place[c].key, free)], numChunks, lists)
  {
    var p := place[c := Place(place[c].key, free)];
    forall k | k in numChunks ensures numChunks[k] == |Members(p, k)| {
      assert Members(p, k) == Members(place, k);
    }
  }

  /** mem differs from mem0 only in the next pointers of the given chunks. */
  ghost predicate OnlyNext(mem0: Memory, mem: Memory, s: seq<Sptr>) {
    && mem.Keys == mem0.Keys
    && (forall x :: x in mem ==> mem[x].(next := NULL) == mem0[x].(next := NULL))
    && (forall x :: x in mem && x !in s ==> mem[x] == mem0[x])
  }

  /** The places after the given chunks have been put on or taken off their lists. */
  ghost function Marked(place: Places, s: seq<Sptr>, free: bool): Places {
    map x | x in place :: if x in s then Place(place[x].key, free) else place[x]
  }

  lemma KeysMatch(mem: Memory, heads: map<Key, Sptr>, lists: map<Key, seq<Sptr>>, place: Places)
    requires Structure(mem, heads, lists, place)
    ensures heads.Keys == lists.Keys && place.Keys == mem.Keys
    ensures forall x :: x in place ==> x != NULL && place[x].key in lists && place[x].key.fl < VEC_LEN
    ensures forall x :: x in place ==> mem[x].length == IndexToSize(place[x].key.fl)
  {
  }

  lemma PlaceKeys(mem: Memory, heads: map<Key, Sptr>, lists: map<Key, seq<Sptr>>, place: Places)
    requires Structure(mem, heads, lists, place)
    ensures heads.Keys == lists.Keys && place.Keys == mem.Keys
  {
  }

  lemma NullHead(mem: Memory, heads: map<Key, Sptr>, lists: map<Key, seq<Sptr>>, place: Places, k: Key)
    requires Structure(mem, heads, lists, place) && k in lists && k in heads && heads[k] == NULL
    ensures lists[k] == []
  {
    ListHead(mem, heads[k], lists[k]);
  }

  lemma CountedKeys(place: Places, numChunks: map<Key, int>, lists: map<Key, seq<Sptr>>, lists': map<Key, seq<Sptr>>)
    requires Counted(place, numChunks, lists) && lists'.Keys == lists.Keys
    ensures Counted(place, numChunks, lists')
  {
  }

  lemma RegionsFrame(mem: Memory, m: Memory, byteIndex: nat)
    requires Regions(mem, byteIndex) && m.Keys == mem.Keys
    requires forall x :: x in m ==> m[x].length == mem[x].length
    ensures Regions(m, byteIndex)
  {
  }

  /** The invariant of a segment, but for n bytes of slice s that its counters still show. */
  ghost predicate Inv(mem: Memory, byteIndex: nat, heads: map<Key, Sptr>, nFl: seq<int>, nCached: int,
                      numChunks: map<Key, int>, lists: map<Key, seq<Sptr>>, place: Places, s: nat, n: int)
  {
    && Structure(mem, heads, lists, place)
    && KeysOk(lists, |nFl|)
    && Counted(place, numChunks, lists)
    && Regions(mem, byteIndex)
    && Owing(lists, nFl, nCached, s, n)
  }

  lemma InvKeys(mem: Memory, byteIndex: nat, heads: map<Key, Sptr>, nFl: seq<int>, nCached: int,
                numChunks: map<Key, int>, lists: map<Key, seq<Sptr>>, place: Places, s: nat, n: int)
    requires Inv(mem, byteIndex, heads, nFl, nCached, numChunks, lists, place, s, n)
    ensures heads.Keys == lists.Keys == numChunks.Keys && place.Keys == mem.Keys
    ensures forall k :: k in lists <==> k.slice < |nFl| && k.fl < VEC_LEN
    ensures forall x :: x in place ==> x != NULL && place[x].key in lists
    ensures forall x :: x in place ==> mem[x].length == IndexToSize(place[x].key.fl)
  {
    KeysMatch(mem, heads, lists, place);
  }

  lemma PopInv(mem: Memory, byteIndex: nat, heads: map<Key, Sptr>, nFl: seq<int>, nCached: int,
               numChunks: map<Key, int>, lists: map<Key, seq<Sptr>>, place: Places, k: Key, n: int)
    requires Inv(mem, byteIndex, heads, nFl, nCached, numChunks, lists, place, k.slice, n) && k in lists
    ensures k in heads
    ensures heads[k] == NULL ==> lists[k] == []
    ensures heads[k] != NULL ==>
              && lists[k] != [] && heads[k] == lists[k][0] && heads[k] in mem
              && heads[k] in place && place[heads[k]] == Place(k, true)
              && Inv(mem, byteIndex, heads[k := mem[heads[k]].next], nFl, nCached, numChunks,
                     lists[k := lists[k][1..]], place[heads[k] := Place(k, false)], k.slice, n + IndexToSize(k.fl))
  {
    hide Structure, Counted, Regions, Owing, IndexToSize, KeysOk;
    PlaceKeys(mem, heads, lists, place);
    var c := heads[k];
    if c == NULL {
      NullHead(mem, heads, lists, place, k);
    } else {
      PopStructure(mem, heads, lists, place, k);
      OwingPop(lists, nFl, nCached, k.slice, n, k);
      MembersMove(place, numChunks, lists, c, false);
      CountedKeys(place[c := Place(k, false)], numChunks, lists, lists[k := lists[k][1..]]);
    }
  }

  lemma PushInv(mem: Memory, byteIndex: nat, heads: map<Key, Sptr>, nFl: seq<int>, nCached: int,
                numChunks: map<Key, int>, lists: map<Key, seq<Sptr>>, place: Places, k: Key, n: int, c: Sptr)
    requires Inv(mem, byteIndex, heads, nFl, nCached, numChunks, lists, place, k.slice, n) && k in lists
    requires c in place && place[c] == Place(k, false)
    ensures k in heads && c in mem
    ensures Inv(mem[c := mem[c].(next := heads[k])], byteIndex, heads[k := c], nFl, nCached, numChunks,
                lists[k := [c] + lists[k]], place[c := Place(k, true)], k.slice, n - IndexToSize(k.fl))
  {
    hide Structure, Counted, Regions, Owing, IndexToSize, KeysOk;
    PlaceKeys(mem, heads, lists, place);
    PushStructure(mem, heads, lists, place, k, c);
    OwingPush(lists, nFl, nCached, k.slice, n, k, c);
    MembersMove(place, numChunks, lists, c, true);
    CountedKeys(place[c := Place(k, true)], numChunks, lists, lists[k := [c] + lists[k]]);
    RegionsFrame(mem, mem[c := mem[c].(next := heads[k])], byteIndex);
  }

  /** Writes to chunks that are handed out, other than to their lengths, keep the invariant. */
  lemma WriteInv(mem: Memory, m: Memory, byteIndex: nat, heads: map<Key, Sptr>, nFl: seq<int>, nCached: int,
                 numChunks: map<Key, int>, lists: map<Key, seq<Sptr>>, place: Places, s: nat, n: int)
    requires Inv(mem, byteIndex, heads, nFl, nCached, numChunks, lists, place, s, n) && m.Keys == mem.Keys
    requires forall x :: x in m ==> m[x].length == mem[x].length && |m[x].data| == |mem[x].data|
    requires forall x :: x in m && x in place && place[x].free ==> m[x].next == mem[x].next
    ensures Inv(m, byteIndex, heads, nFl, nCached, numChunks, lists, place, s, n)
  {
    hide Structure, Counted, Regions, Owing;
    StructureFrame(mem, m, heads, lists, place);
    RegionsFrame(mem, m, byteIndex);
  }

  /** The state that fifo_segment_init sets up. */
  lemma EmptyInv(byteIndex: nat, heads: map<Key, Sptr>, nFl: seq<int>, numChunks: map<Key, int>, lists: map<Key, seq<Sptr>>)
    requires heads.Keys == numChunks.Keys == lists.Keys == Keys(|nFl|)
    requires forall k :: k in heads ==> heads[k] == NULL && numChunks[k] == 0 && lists[k] == []
    requires forall i :: 0 <= i < |nFl| ==> nFl[i] == 0
    ensures Inv(map[], byteIndex, heads, nFl, 0, numChunks, lists, map[], 0, 0)
  {
    ZeroSum(nFl);
    forall k | k in numChunks ensures numChunks[k] == |Members(map[], k)| {
      assert Members(map[], k) == {};
    }
    forall i: nat | i < |nFl| ensures nFl[i] == ListBytes(lists, i, VEC_LEN) {
      EmptyBytes(lists, i, VEC_LEN);
    }
  }

  /** Every chunk has the size of a class. */
  ghost predicate WellSized(mem: Memory) {
    forall x :: x in mem ==> MIN_SIZE <= mem[x].length <= MAX_SIZE && |mem[x].data| == mem[x].length
  }

  /** m differs from mem only in fields of own chunks, and not in their sizes. */
  ghost predicate OwnWrite(mem: Memory, m: Memory, own: seq<Sptr>) {
    && m.Keys == mem.Keys
    && (forall x :: x in m ==> m[x].length == mem[x].length && |m[x].data| == |mem[x].data|)
    && (forall x :: x in m && x !in own ==> m[x] == mem[x])
  }

  /** The chunks of a list are handed out and belong to slice s. */
  ghost predicate HandedOut(place: Places, list: seq<Sptr>, s: nat) {
    forall x :: x in list ==> x in place && !place[x].free && place[x].key.slice == s
  }

  /** The chunks of a list are on their free lists. */
  ghost predicate Freed(place: Places, list: seq<Sptr>) {
    forall x :: x in list ==> x in place && place[x].free
  }

  lemma MarkedStep(place: Places, list: seq<Sptr>, i: nat, free: bool)
    requires i < |list| && list[i] in place
    ensures Marked(place, list[..i], free)[list[i] := Place(place[list[i]].key, free)] == Marked(place, list[..i + 1], free)
  {
    assert list[..i + 1] == list[..i] + [list[i]];
  }

  lemma MarkedEnds(place: Places, list: seq<Sptr>, free: bool)
    ensures Marked(place, list[..0], free) == place
    ensures Marked(place, list[..|list|], free) == Marked(place, list, free)
  {
    assert list[..0] == [] && list[..|list|] == list;
  }

  /** The rest of a list of distinct chunks is not touched by work on its first i chunks. */
  lemma RestUnmarked(place: Places, list: seq<Sptr>, i: nat, free: bool)
    requires NoRepeats(list) && i < |list| && list[i] in place
    ensures list[i] !in list[..i] && Marked(place, list[..i], free)[list[i]] == place[list[i]]
  {
  }

  lemma OnlyNextStep(m0: Memory, m1: Memory, m2: Memory, list: seq<Sptr>, i: nat)
    requires i < |list| && OnlyNext(m0, m1, list[..i]) && OnlyNext(m1, m2, [list[i]])
    ensures OnlyNext(m0, m2, list[..i + 1])
  {
    assert list[..i + 1] == list[..i] + [list[i]];
  }

  lemma TotalLengthStep(mem: Memory, list: seq<Sptr>, i: nat)
    requires (forall x :: x in list ==> x in mem) && i < |list|
    ensures TotalLength(mem, list[i..]) == mem[list[i]].length + TotalLength(mem, list[i + 1..])
  {
    assert list[i..][1..] == list[i + 1..];
  }

  lemma ListRest(mem: Memory, m: Memory, list: seq<Sptr>, i: nat)
    requires i < |list| && ListOk(mem, list[i], list[i..]) && NoRepeats(list)
    requires OnlyNext(mem, m, [list[i]])
    ensures list[i] in mem && ListOk(m, mem[list[i]].next, list[i + 1..])
  {
    ListHead(mem, list[i], list[i..]);
    assert list[i..][1..] == list[i + 1..];
    ListFrame(mem, m, mem[list[i]].next, list[i + 1..]);
  }

  /** Chunks handed out are untouched, and of the others only the next pointers differ. */
  ghost predicate FreeFrame(mem0: Memory, mem: Memory, place0: Places) {
    && mem.Keys == mem0.Keys
    && (forall x :: x in mem ==> mem[x].(next := NULL) == mem0[x].(next := NULL))
    && (forall x :: x in mem && x in place0 && !place0[x].free ==> mem[x] == mem0[x])
  }

  /** From places place0 and memory mem0, the chunks of got have been taken off lists of
      slice s and chained from first; their lengths add up to total. */
  ghost predicate Took(mem0: Memory, place0: Places, mem: Memory, place: Places, first: Sptr, got: seq<Sptr>, s: nat, total: nat) {
    && ListOk(mem, first, got)
    && FreeFrame(mem0, mem, place0)
    && place == Marked(place0, got, false)
    && (forall x :: x in got ==> x in place0 && place0[x].free && place0[x].key.slice == s)
    && (forall x :: x in got ==> x in mem) && TotalLength(mem, got) == total
  }

  lemma TookNothing(mem: Memory, place: Places, s: nat)
    ensures Took(mem, place, mem, place, NULL, [], s, 0)
  {
  }

  lemma TookStep(mem0: Memory, place0: Places, mem: Memory, place: Places, first: Sptr, got: seq<Sptr>, s: nat, total: nat, c: Sptr)
    requires Took(mem0, place0, mem, place, first, got, s, total)
    requires c in place && place[c].free && place[c].key.slice == s && c in mem && c != NULL
    ensures Took(mem0, place0, mem[c := mem[c].(next := first)], place[c := Place(place[c].key, false)],
                 c, [c] + got, s, total + mem[c].length)
  {
    hide ListOk;
    var m := mem[c := mem[c].(next := first)];
    assert c !in got && place[c] == place0[c];
    ListPush(mem, first, got, c);
    TotalLengthFrame(mem, m, got);
    assert ([c] + got)[1..] == got;
  }

  lemma TookHandedOut(mem0: Memory, place0: Places, mem: Memory, place: Places, first: Sptr, got: seq<Sptr>, s: nat, total: nat)
    requires Took(mem0, place0, mem, place, first, got, s, total)
    ensures HandedOut(place, got, s) && ListOk(mem, first, got)
    ensures Marked(place, got, true) == place0
    ensures first == NULL <==> got == []
    ensures (forall x :: x in got ==> x in mem) && total == TotalLength(mem, got)
  {
    hide ListOk;
    ListHead(mem, first, got);
  }

  lemma TookUndone(mem0: Memory, place0: Places, mem: Memory, place: Places, first: Sptr, got: seq<Sptr>, s: nat, total: nat, m: Memory)
    requires Took(mem0, place0, mem, place, first, got, s, total) && OnlyNext(mem, m, got)
    ensures FreeFrame(mem0, m, place0)
  {
  }

  /** The most that is handed out for a request. */
  function Cap(data: nat): nat {
    if data <= 2048 then 8192 else if data <= MAX_SIZE then 4 * data else data + MAX_SIZE
  }

  lemma OwingAny(lists: map<Key, seq<Sptr>>, nFl: seq<int>, nCached: int, s: nat, t: nat)
    requires KeysOk(lists, |nFl|) && Owing(lists, nFl, nCached, s, 0)
    ensures Owing(lists, nFl, nCached, t, 0)
  {
  }

  /** The list one class above the request's own has no chunk. */
  ghost predicate LargerEmpty(lists: map<Key, seq<Sptr>>, s: nat, data: nat) {
    var k := Key(s, FreelistForSize(data) + 1);
    k.fl < VEC_LEN ==> k in lists && lists[k] == []
  }

  /** The largest class that fs_try_alloc_multi_chunk combines for a request. */
  function MultiStart(data: nat): nat {
    if FreelistForSize(data) > 0 then FreelistForSize(data) - 1 else 0
  }

  lemma {:induction false} EmptyBytes(lists: map<Key, seq<Sptr>>, s: nat, f: nat)
    requires forall i :: 0 <= i < f ==> Key(s, i) in lists && lists[Key(s, i)] == []
    ensures ListBytes(lists, s, f) == 0
  {
    if f > 0 {
      EmptyBytes(lists, s, f - 1);
    }
  }

  /** The lists of slice s have given total bytes from classes up to start, and those
      between fl and start are used up. */
  ghost predicate Draining(lists0: map<Key, seq<Sptr>>, lists: map<Key, seq<Sptr>>, s: nat, fl: nat, start: nat, total: nat) {
    && (forall f: nat :: f < VEC_LEN ==> Key(s, f) in lists0 && Key(s, f) in lists)
    && fl <= start < VEC_LEN
    && (forall f: nat :: fl < f <= start ==> lists[Key(s, f)] == [])
    && ListBytes(lists, s, start + 1) + total == ListBytes(lists0, s, start + 1)
  }

  /** Chunks of classes from fl to start. */
  ghost predicate OfClasses(place: Places, got: seq<Sptr>, fl: nat, start: nat) {
    forall x :: x in got ==> x in place && fl <= place[x].key.fl <= start
  }

  /** Larger chunks are used up before smaller ones are taken. */
  ghost predicate LargestFirst(place: Places, lists: map<Key, seq<Sptr>>, got: seq<Sptr>, s: nat, start: nat) {
    && OfClasses(place, got, 0, start)
    && (forall x, j: nat :: x in got && place[x].key.fl < j <= start ==> Key(s, j) in lists && lists[Key(s, j)] == [])
  }

  lemma DrainedLargestFirst(lists0: map<Key, seq<Sptr>>, lists: map<Key, seq<Sptr>>, s: nat, fl: nat, start: nat, total: nat, place: Places, got: seq<Sptr>)
    requires Draining(lists0, lists, s, fl, start, total) && OfClasses(place, got, fl, start)
    ensures LargestFirst(place, lists, got, s, start)
  {
  }

  lemma TookClasses(mem0: Memory, place0: Places, mem: Memory, place: Places, first: Sptr, got: seq<Sptr>, s: nat, total: nat, fl: nat, start: nat)
    requires Took(mem0, place0, mem, place, first, got, s, total) && OfClasses(place0, got, fl, start)
    ensures OfClasses(place, got, fl, start)
  {
  }

  /** Chunks of classes from fl to start, and without the last one taken they are too few. */
  ghost predicate Combined(place: Places, got: seq<Sptr>, fl: nat, start: nat, total: nat, data: nat) {
    OfClasses(place, got, fl, start) && (got != [] ==> got[0] in place && total < data + IndexToSize(place[got[0]].key.fl))
  }

  lemma CombinedNone(place: Places, fl: nat, start: nat, data: nat)
    ensures Combined(place, [], fl, start, 0, data)
  {
  }

  lemma CombinedMore(place: Places, got: seq<Sptr>, c: Sptr, fl: nat, start: nat, total: nat, data: nat)
    requires Combined(place, got, fl, start, total, data) && c in place && fl == place[c].key.fl <= start && total < data
    ensures Combined(place, [c] + got, fl, start, total + IndexToSize(fl), data)
  {
    hide IndexToSize;
  }

  lemma CombinedDown(place: Places, got: seq<Sptr>, fl: nat, start: nat, total: nat, data: nat)
    requires Combined(place, got, fl, start, total, data) && fl > 0
    ensures Combined(place, got, fl - 1, start, total, data)
  {
    hide IndexToSize;
  }

  /** What was combined when the request is covered. */
  lemma CombinedAll(mem0: Memory, place0: Places, mem: Memory, place: Places, first: Sptr, got: seq<Sptr>, s: nat, total: nat,
                    lists0: map<Key, seq<Sptr>>, lists: map<Key, seq<Sptr>>, fl: nat, start: nat, data: nat)
    requires Took(mem0, place0, mem, place, first, got, s, total) && Combined(place0, got, fl, start, total, data) && got != []
    requires Draining(lists0, lists, s, fl, start, total)
    requires forall x :: x in place ==> x in mem && mem[x].length == IndexToSize(place[x].key.fl)
    ensures LargestFirst(place, lists, got, s, start) && got[0] in mem && total < data + mem[got[0]].length
  {
    hide IndexToSize, Took, Draining, LargestFirst;
    TookClasses(mem0, place0, mem, place, first, got, s, total, fl, start);
    DrainedLargestFirst(lists0, lists, s, fl, start, total, place, got);
    TookSize(mem0, place0, mem, place, first, got, s, total);
  }

  /** A chunk that is still free has the place it had. */
  lemma TookKey(mem0: Memory, place0: Places, mem: Memory, place: Places, first: Sptr, got: seq<Sptr>, s: nat, total: nat, c: Sptr)
    requires Took(mem0, place0, mem, place, first, got, s, total) && c in place && place[c].free
    ensures c in place0 && place0[c].key == place[c].key
  {
  }

  lemma TookSize(mem0: Memory, place0: Places, mem: Memory, place: Places, first: Sptr, got: seq<Sptr>, s: nat, total: nat)
    requires Took(mem0, place0, mem, place, first, got, s, total) && got != []
    ensures got[0] in mem && got[0] in place && place[got[0]].key == place0[got[0]].key
  {
    assert got[0] in got;
  }

  lemma DrainStep(lists0: map<Key, seq<Sptr>>, lists: map<Key, seq<Sptr>>, s: nat, fl: nat, start: nat, total: nat)
    requires Draining(lists0, lists, s, fl, start, total) && lists[Key(s, fl)] != []
    ensures Draining(lists0, lists[Key(s, fl) := lists[Key(s, fl)][1..]], s, fl, start, total + IndexToSize(fl))
  {
    hide ListBytes, IndexToSize;
    ListBytesUpdate(lists, s, start + 1, Key(s, fl), lists[Key(s, fl)][1..]);
    var size: int := IndexToSize(fl);
    assert (|lists[Key(s, fl)][1..]| - |lists[Key(s, fl)]|) * size == -size;
  }

  lemma DrainedAll(lists0: map<Key, seq<Sptr>>, lists: map<Key, seq<Sptr>>, s: nat, start: nat, total: nat)
    requires Draining(lists0, lists, s, 0, start, total) && lists[Key(s, 0)] == []
    ensures ListBytes(lists0, s, start + 1) == total
  {
    EmptyBytes(lists, s, start + 1);
  }

  /** What was taken was there. */
  lemma DrainedPart(lists0: map<Key, seq<Sptr>>, lists: map<Key, seq<Sptr>>, s: nat, fl: nat, start: nat, total: nat)
    requires Draining(lists0, lists, s, fl, start, total)
    ensures total <= ListBytes(lists0, s, start + 1)
  {
  }

  lemma SameNonEmpty(mem: Memory, heads: map<Key, Sptr>, lists: map<Key, seq<Sptr>>, place: Places,
                     mem': Memory, heads': map<Key, Sptr>, lists': map<Key, seq<Sptr>>, k: Key)
    requires Structure(mem, heads, lists, place) && Structure(mem', heads', lists', place)
    requires k in lists && k in lists' && lists[k] != []
    ensures lists'[k] != []
  {
    var x := lists[k][0];
    assert x in lists[k];
    assert place[x] == Place(k, true);
    assert x in lists'[k];
  }

  lemma MultiSizes(data: nat)
    requires data > 0
    ensures MultiStart(data) < VEC_LEN
    ensures data + IndexToSize(MultiStart(data)) <= Cap(data) + 1
  {
    ClassCovers(data);
    ClassBounds(MultiStart(data));
    Pow2Values();
    if FreelistForSize(data) > 0 {
      ClassTight(data);
    } else {
      ClassClamped(data);
    }
  }

  /** round_pow2 to the 8 bytes that chunks are aligned to. */
  function RoundUp8(x: nat): (r: nat)
    ensures x <= r < x + 8 && r % 8 == 0
  {
    (x + 7) / 8 * 8
  }

  /** total_chunk_bytes: the data bytes of n chunks of a class. */
  function BatchBytes(n: nat, fl: nat): nat {
    n * IndexToSize(fl)
  }

  /** The bytes that n chunks of a size take with their headers. */
  function BatchRoom(n: nat, size: nat): nat {
    n * (CHUNK_HDR + size)
  }

  /** Carved chunks fill the region from base on, each with room for its header and size bytes. */
  ghost predicate CarvedRegion(carved: Memory, base: nat, end: nat, size: nat) {
    && (forall x :: x in carved ==> base <= x && x + CHUNK_HDR + size <= end)
    && (forall x :: x in carved ==> carved[x].length == size == |carved[x].data|)
    && (forall x, y :: x in carved && y in carved && x < y ==> x + CHUNK_HDR + size <= y)
  }

  /** A list of chunks carved out of base..end. */
  ghost predicate CarvedList(carved: Memory, head: Sptr, items: seq<Sptr>, base: nat, end: nat, size: nat) {
    && ListOk(carved, head, items) && |items| == |carved| && (forall x :: x in items <==> x in carved)
    && CarvedRegion(carved, base, end, size)
    && (items != [] ==> items[|items| - 1] == base)
  }

  lemma CarveStep(carved: Memory, head: Sptr, items: seq<Sptr>, base: nat, c: nat, size: nat, chunk: Chunk)
    requires CarvedList(carved, head, items, base, c, size) && 0 < base <= c && (items == [] ==> c == base)
    requires chunk.length == size == |chunk.data| && chunk.next == head
    ensures CarvedList(carved[c := chunk], c, [c] + items, base, c + CHUNK_HDR + size, size)
  {
    CarveRegionStep(carved, base, c, size, chunk);
    hide CarvedRegion, ListOk;
    CarveListStep(carved, head, items, c, chunk);
    assert |[c] + items| == |carved[c := chunk]|;
  }

  lemma CarveListStep(carved: Memory, head: Sptr, items: seq<Sptr>, c: nat, chunk: Chunk)
    requires ListOk(carved, head, items) && (forall x :: x in items <==> x in carved) && c !in carved && c != NULL && chunk.next == head
    ensures ListOk(carved[c := chunk], c, [c] + items) && (forall x :: x in [c] + items <==> x in carved[c := chunk])
  {
    hide ListOk;
    var m := carved[c := chunk];
    ListFrame(carved, m, head, items);
    ListPush(m, head, items, c);
    assert m[c := m[c].(next := head)] == m;
  }

  lemma CarveRegionStep(carved: Memory, base: nat, c: nat, size: nat, chunk: Chunk)
    requires CarvedRegion(carved, base, c, size) && 0 < base <= c && chunk.length == size == |chunk.data|
    ensures c !in carved && CarvedRegion(carved[c := chunk], base, c + CHUNK_HDR + size, size)
  {
  }

  /** The loop of fsh_try_alloc_chunk_batch: carves n chunks out of the region from base on. */
  method CarveChunks(base: nat, size: nat, n: nat) returns (head: Sptr, carved: Memory, ghost items: seq<Sptr>)
    requires base > 0 && size < TWO_32
    ensures |items| == n && CarvedList(carved, head, items, base, base + BatchRoom(n, size), size)
  {
    hide CarvedList, BatchRoom;
    head, carved, items := NULL, map[], [];
    CarveNothing(base, size);
    BatchRoomStep(0, size);
    var c := base;
    for i := 0 to n
      invariant |items| == i && base <= c == base + BatchRoom(i, size) && (i == 0 ==> c == base)
      invariant CarvedList(carved, head, items, base, c, size)
    {
      var chunk := Chunk(0, size, head, false, false, seq(size, _ => 0));
      CarveStep(carved, head, items, base, c, size, chunk);
      carved := carved[c := chunk];
      head, items := c, [c] + items;
      BatchRoomStep(i, size);
      c := c + CHUNK_HDR + size;
    }
  }

  lemma BatchRoomStep(i: nat, size: nat)
    ensures BatchRoom(i + 1, size) == BatchRoom(i, size) + CHUNK_HDR + size && BatchRoom(0, size) == 0
  {
    assert (i + 1) * (CHUNK_HDR + size) == i * (CHUNK_HDR + size) + (CHUNK_HDR + size);
  }

  lemma CarveNothing(base: nat, size: nat)
    ensures CarvedList(map[], NULL, [], base, base, size)
  {
  }

  lemma MembersPlaced(place: Places, k: Key, carved: Memory, j: Key)
    requires carved.Keys !! place.Keys
    ensures Members(PlacedAt(place, carved, k), j) == Members(place, j) + if j == k then carved.Keys else {}
    ensures Members(place, j) !! carved.Keys
  {
  }

  lemma CarveMembers(place: Places, k: Key, carved: Memory, j: Key)
    requires carved.Keys !! place.Keys
    ensures |Members(PlacedAt(place, carved, k), j)| == |Members(place, j)| + if j == k then |carved| else 0
  {
    hide Members, PlacedAt;
    MembersPlaced(place, k, carved, j);
    assert |Members(place, j) + carved.Keys| == |Members(place, j)| + |carved.Keys|;
  }

  lemma CarveCounted(place: Places, numChunks: map<Key, int>, lists: map<Key, seq<Sptr>>, k: Key, carved: Memory, l: seq<Sptr>)
    requires Counted(place, numChunks, lists) && k in lists && carved.Keys !! place.Keys
    ensures k in numChunks
    ensures Counted(PlacedAt(place, carved, k), numChunks[k := numChunks[k] + |carved|], lists[k := l])
  {
    hide Members;
    var p := PlacedAt(place, carved, k);
    forall j | j in numChunks ensures numChunks[k := numChunks[k] + |carved|][j] == |Members(p, j)| {
      CarveMembers(place, k, carved, j);
    }
  }

  lemma CarveRegions(mem: Memory, byteIndex: nat, carved: Memory, base: nat, end: nat, size: nat,
                     tail: Sptr, next: Sptr, byteIndex': nat)
    requires Regions(mem, byteIndex) && CarvedRegion(carved, base, end, size) && 0 < base && byteIndex <= base
    requires tail in carved
    requires end <= byteIndex' && byteIndex <= byteIndex'
    ensures carved.Keys !! mem.Keys
    ensures Regions(Installed(mem, carved, tail, next), byteIndex')
  {
    var m := Installed(mem, carved, tail, next);
    forall x | x in carved ensures x !in mem {
      assert x in mem ==> x + CHUNK_HDR + mem[x].length <= byteIndex;
    }
    forall x, y | x in m && y in m && x < y ensures x + CHUNK_HDR + m[x].length <= y {
    }
  }

  lemma OwingCarve(lists: map<Key, seq<Sptr>>, nFl: seq<int>, nCached: int, s: nat, k: Key, items: seq<Sptr>)
    requires KeysOk(lists, |nFl|) && Owing(lists, nFl, nCached, s, 0) && k in lists && k.slice == s
    ensures s < |nFl| && KeysOk(lists[k := items + lists[k]], |nFl|)
    ensures var bytes := BatchBytes(|items|, k.fl);
            Owing(lists[k := items + lists[k]], nFl[s := nFl[s] + bytes], nCached + bytes, s, 0)
  {
    hide Owing, ListBytes, IndexToSize;
    var bytes: int := BatchBytes(|items|, k.fl);
    OwingUpdate(lists, nFl, nCached, s, 0, k, items + lists[k]);
    OwingSettle(lists[k := items + lists[k]], nFl, nCached, s, -bytes, -bytes);
  }

  /** Chunks carved out of fresh bytes of the segment join list k. */
  lemma CarveInv(mem: Memory, byteIndex: nat, heads: map<Key, Sptr>, nFl: seq<int>, nCached: int,
                 numChunks: map<Key, int>, lists: map<Key, seq<Sptr>>, place: Places, k: Key,
                 carved: Memory, head: Sptr, items: seq<Sptr>, base: nat, end: nat, byteIndex': nat)
    requires Inv(mem, byteIndex, heads, nFl, nCached, numChunks, lists, place, k.slice, 0) && k in lists
    requires CarvedList(carved, head, items, base, end, IndexToSize(k.fl)) && items != []
    requires 0 < base && byteIndex <= base && end <= byteIndex'
    ensures k in heads && k in numChunks && k.slice < |nFl| && base in carved && byteIndex <= byteIndex'
    ensures carved.Keys !! mem.Keys && place.Keys == mem.Keys
    ensures var bytes := BatchBytes(|items|, k.fl);
            Inv(Installed(mem, carved, base, heads[k]), byteIndex', heads[k := head],
                nFl[k.slice := nFl[k.slice] + bytes], nCached + bytes, numChunks[k := numChunks[k] + |items|],
                lists[k := items + lists[k]], PlacedAt(place, carved, k), k.slice, 0)
  {
    hide Structure, Counted, Regions, Owing, ListOk, IndexToSize, BatchBytes, Installed, PlacedAt, KeysOk, CarvedRegion;
    KeyBounds(mem, byteIndex, heads, nFl, nCached, numChunks, lists, place, k);
    assert base in items;
    PlaceKeys(mem, heads, lists, place);
    CarvedSized(carved, base, end, k);
    CarveRegions(mem, byteIndex, carved, base, end, IndexToSize(k.fl), base, heads[k], byteIndex');
    CarveStructure(mem, heads, lists, place, k, carved, head, items);
    CarveCounted(place, numChunks, lists, k, carved, items + lists[k]);
    OwingCarve(lists, nFl, nCached, k.slice, k, items);
  }

  lemma CarvedSized(carved: Memory, base: nat, end: nat, k: Key)
    requires CarvedRegion(carved, base, end, IndexToSize(k.fl)) && 0 < base && k.fl < VEC_LEN
    ensures forall x :: x in carved ==> Sized(carved, x, k)
    ensures carved != map[] ==> base <= end
  {
  }


  lemma BatchRoomPositive(n: nat, size: nat)
    requires n > 0
    ensures BatchRoom(n, size) > 0
  {
    assert BatchRoom(n, size) == (n - 1) * (CHUNK_HDR + size) + CHUNK_HDR + size;
  }

  lemma InstalledKeys(mem: Memory, carved: Memory, tail: Sptr, next: Sptr)
    requires tail in carved && carved.Keys !! mem.Keys
    ensures Installed(mem, carved, tail, next).Keys == mem.Keys + carved.Keys
    ensures forall x :: x in mem ==> Installed(mem, carved, tail, next)[x] == mem[x]
  {
  }

  lemma KeyBounds(mem: Memory, byteIndex: nat, heads: map<Key, Sptr>, nFl: seq<int>, nCached: int,
                  numChunks: map<Key, int>, lists: map<Key, seq<Sptr>>, place: Places, k: Key)
    requires Inv(mem, byteIndex, heads, nFl, nCached, numChunks, lists, place, k.slice, 0) && k in lists
    ensures k.slice < |nFl| && k.fl < VEC_LEN && MIN_SIZE <= IndexToSize(k.fl) <= MAX_SIZE
  {
    ClassBounds(k.fl);
  }

  lemma TookAfter(mem0: Memory, place0: Places, mem1: Memory, mem: Memory, place: Places, first: Sptr, got: seq<Sptr>, s: nat, total: nat)
    requires FreeFrame(mem0, mem1, place0) && Took(mem1, place0, mem, place, first, got, s, total)
    ensures Took(mem0, place0, mem, place, first, got, s, total)
  {
    hide ListOk, TotalLength;
  }

  /** Lists with the same chunks are empty together. */
  lemma LargerEmptySame(mem0: Memory, byteIndex: nat, heads0: map<Key, Sptr>, nFl: seq<int>, nCached: int,
                        numChunks: map<Key, int>, lists0: map<Key, seq<Sptr>>, place: Places, s: nat,
                        mem: Memory, heads: map<Key, Sptr>, lists: map<Key, seq<Sptr>>, data: nat)
    requires Inv(mem0, byteIndex, heads0, nFl, nCached, numChunks, lists0, place, s, 0)
    requires Inv(mem, byteIndex, heads, nFl, nCached, numChunks, lists, place, s, 0)
    ensures LargerEmpty(lists, s, data) <==> LargerEmpty(lists0, s, data)
  {
    hide Structure, Counted, Regions, Owing, FreelistForSize;
    var k := Key(s, FreelistForSize(data) + 1);
    if k in lists && lists0[k] != [] {
      SameNonEmpty(mem0, heads0, lists0, place, mem, heads, lists, k);
    }
    if k in lists && lists[k] != [] {
      SameNonEmpty(mem, heads, lists, place, mem0, heads0, lists0, k);
    }
  }

  lemma DrainInit(lists: map<Key, seq<Sptr>>, n: nat, s: nat, start: nat)
    requires KeysOk(lists, n) && s < n && start < VEC_LEN
    ensures Draining(lists, lists, s, start, start, 0)
  {
  }

  lemma DrainNext(lists0: map<Key, seq<Sptr>>, lists: map<Key, seq<Sptr>>, s: nat, fl: nat, start: nat, total: nat)
    requires Draining(lists0, lists, s, fl, start, total) && fl > 0 && lists[Key(s, fl)] == []
    ensures Draining(lists0, lists, s, fl - 1, start, total) && IndexToSize(fl) / 2 == IndexToSize(fl - 1)
  {
    ClassBounds(fl - 1);
  }

  lemma ClassMonotone(a: nat, b: nat)
    requires a <= b
    ensures 0 < IndexToSize(a) <= IndexToSize(b)
  {
    Pow2Monotone(0, a + 12);
    Pow2Monotone(a + 12, b + 12);
  }

  lemma LargerClass(data: nat)
    requires FreelistForSize(data) + 1 < VEC_LEN
    ensures data <= IndexToSize(FreelistForSize(data) + 1) <= Cap(data)
  {
    var fl := FreelistForSize(data);
    ClassBounds(fl);
    ClassBounds(fl + 1);
    ClassCovers(data);
    ClassClamped(data);
    Pow2Values();
    if fl > 0 {
      ClassTight(data);
      ClassBounds(fl - 1);
    }
  }

  lemma OnlyNextNone(mem: Memory, list: seq<Sptr>)
    ensures OnlyNext(mem, mem, list[..0])
  {
  }

  lemma OnlyNextLength(m0: Memory, m1: Memory, list: seq<Sptr>, c: Sptr)
    requires OnlyNext(m0, m1, list) && c in m0
    ensures c in m1 && m1[c].length == m0[c].length
  {
  }

  lemma TotalLengthEmpty(mem: Memory, list: seq<Sptr>)
    requires list == []
    ensures TotalLength(mem, list) == 0
  {
  }

  /** Nothing has been handed out: known chunks keep their places, new ones are free. */
  ghost predicate Extends(mem0: Memory, place0: Places, mem: Memory, place: Places) {
    && (forall x :: x in place0 ==> x in place && place[x] == place0[x])
    && (forall x :: x in place && x !in place0 ==> place[x].free)
    && OldChunks(mem0, place0, mem)
  }

  /** Chunks known before keep their contents, and all of their fields if they were handed out. */
  ghost predicate OldChunks(mem0: Memory, place0: Places, mem: Memory) {
    && (forall x :: x in mem0 ==> x in mem && mem[x].(next := NULL) == mem0[x].(next := NULL))
    && (forall x :: x in mem0 && x in place0 && !place0[x].free ==> x in mem && mem[x] == mem0[x])
  }

  /** Exactly the chunks of got, all of slice s, have been handed out, chained from first. */
  ghost predicate Allocated(mem0: Memory, place0: Places, mem: Memory, place: Places, first: Sptr, got: seq<Sptr>, s: nat) {
    && got != [] && ListOk(mem, first, got)
    && place0.Keys <= place.Keys
    && (forall x :: x in got ==> x in place && !place[x].free && place[x].key.slice == s)
    && (forall x :: x in got && x in place0 ==> place0[x].free && place[x].key == place0[x].key)
    && (forall x :: x in place && x !in got ==> if x in place0 then place[x] == place0[x] else place[x].free)
    && OldChunks(mem0, place0, mem)
  }

  lemma ExtendsRefl(mem: Memory, place: Places)
    ensures Extends(mem, place, mem, place)
  {
  }

  lemma ExtendsCarve(mem0: Memory, place0: Places, mem1: Memory, place1: Places, mem: Memory, carved: Memory, k: Key)
    requires Extends(mem0, place0, mem1, place1) && carved.Keys !! mem1.Keys && place1.Keys == mem1.Keys && place0.Keys == mem0.Keys
    requires forall x :: x in mem1 ==> x in mem && mem[x] == mem1[x]
    ensures Extends(mem0, place0, mem, PlacedAt(place1, carved, k))
  {
  }

  lemma ExtendsFrame(mem0: Memory, place0: Places, mem1: Memory, place1: Places, mem: Memory)
    requires Extends(mem0, place0, mem1, place1) && FreeFrame(mem1, mem, place1)
    ensures Extends(mem0, place0, mem, place1)
  {
  }

  lemma ExtendsTook(mem0: Memory, place0: Places, mem1: Memory, place1: Places, mem: Memory, place: Places,
                    first: Sptr, got: seq<Sptr>, s: nat, total: nat)
    requires Extends(mem0, place0, mem1, place1) && Took(mem1, place1, mem, place, first, got, s, total) && first != NULL
    ensures Allocated(mem0, place0, mem, place, first, got, s)
    ensures (forall x :: x in got ==> x in mem) && TotalLength(mem, got) == total
  {
    hide ListOk;
    ListHead(mem, first, got);
  }

  const TWO_64: int := 0x1_0000_0000_0000_0000

  /** The batch of a last attempt, (data - nFl) / MIN_SIZE + 1, in the source's widths:
      the difference is unsigned, the quotient is cut to 32 bits. */
  function LastBatch(data: nat, nFl: int, nFree: nat): nat {
    var batch := Wrap((data - nFl) % TWO_64 / MIN_SIZE);
    var batch := Wrap(batch + 1);
    if batch < nFree / MIN_SIZE then batch else nFree / MIN_SIZE
  }

  /** With 32-bit and 64-bit wrap-around out of the way: as many of the smallest chunks as are
      missing and one more, or as many as the free bytes hold. */
  lemma LastBatchIs(data: nat, nFl: nat, nFree: nat)
    requires nFl <= data < TWO_32
    ensures LastBatch(data, nFl, nFree) == Least((data - nFl) / 4096 + 1, nFree / 4096)
  {
    var n := (data - nFl) / MIN_SIZE;
    assert (data - nFl) % TWO_64 == data - nFl;
    assert n < TWO_32 / MIN_SIZE + 1;
  }

  lemma LastBatchPositive(data: nat, nFl: int, nFree: nat)
    requires nFree >= MIN_SIZE && data < TWO_32 && 0 <= nFl <= SEGMENT_LIMIT
    requires nFl <= data || nFl > data + MIN_SIZE
    ensures LastBatch(data, nFl, nFree) > 0
  {
    if nFl <= data {
      LastBatchIs(data, nFl, nFree);
    } else {
      var d := data - nFl;
      var q := d / MIN_SIZE;
      assert d % TWO_64 == TWO_64 + d;
      assert (TWO_64 + d) / MIN_SIZE == 0x10_0000_0000_0000 + q;
      assert -TWO_32 < q < -1;
      WrapIs(0x10_0000_0000_0000 + q, 0xF_FFFF, TWO_32 + q);
      WrapIs(TWO_32 + q + 1, 0, TWO_32 + q + 1);
    }
  }

  lemma WrapIs(x: int, k: int, r: int)
    requires x == k * TWO_32 + r && 0 <= r < TWO_32
    ensures Wrap(x) == r
  {
    var d := k - x / TWO_32;
    assert d * TWO_32 == x % TWO_32 - r;
  }

  /** A segment is at most one terabyte. */
  const SEGMENT_LIMIT: int := 0x100_0000_0000

  /** The lists of slice s from the request's class up: if those below hold less than the
      request and the next two are empty, a slice with enough bytes has a much larger chunk. */
  lemma {:induction false} BytesBeyond(lists: map<Key, seq<Sptr>>, s: nat, data: nat, f: nat)
    requires f <= VEC_LEN && (forall i :: 0 <= i < VEC_LEN ==> Key(s, i) in lists)
    requires 0 < data && MultiStart(data) < VEC_LEN && ListBytes(lists, s, MultiStart(data) + 1) < data
    requires FreelistForSize(data) < VEC_LEN && lists[Key(s, FreelistForSize(data))] == [] && LargerEmpty(lists, s, data)
    requires MultiStart(data) < f
    ensures ListBytes(lists, s, f) < data || ListBytes(lists, s, f) > data + MIN_SIZE
  {
    hide IndexToSize, FreelistForSize, ListBytes;
    if f > MultiStart(data) + 1 {
      BytesBeyond(lists, s, data, f - 1);
      ListBytesNext(lists, s, f);
      if f - 1 > FreelistForSize(data) + 1 {
        MuchLarger(data, f - 1);
      }
    }
  }

  lemma ListBytesNext(lists: map<Key, seq<Sptr>>, s: nat, f: nat)
    requires f > 0 && (forall i :: 0 <= i < f ==> Key(s, i) in lists)
    ensures lists[Key(s, f - 1)] == [] ==> ListBytes(lists, s, f) == ListBytes(lists, s, f - 1)
    ensures lists[Key(s, f - 1)] != [] ==> ListBytes(lists, s, f) >= ListBytes(lists, s, f - 1) + IndexToSize(f - 1)
  {
    hide IndexToSize;
    var n, size := |lists[Key(s, f - 1)]|, IndexToSize(f - 1);
    if n > 0 {
      assert n * size == size + (n - 1) * size;
    }
  }

  lemma MuchLarger(data: nat, f: nat)
    requires FreelistForSize(data) + 1 < f < VEC_LEN
    ensures IndexToSize(f) > data + MIN_SIZE
  {
    var fl := FreelistForSize(data);
    ClassClamped(data);
    ClassCovers(data);
    ClassBounds(fl);
    ClassBounds(fl + 1);
    ClassMonotone(fl + 2, f);
  }

  lemma AllKeys(lists: map<Key, seq<Sptr>>, n: nat, s: nat)
    requires KeysOk(lists, n) && s < n
    ensures forall i :: 0 <= i < VEC_LEN ==> Key(s, i) in lists
  {
  }

  /** What decides whether a segment can serve a request: its free lists, the bytes that they
      hold by slice, and the bytes not carved yet. */
  datatype Supply = Supply(lists: map<Key, seq<Sptr>>, nFl: seq<int>, byteIndex: nat, maxByteIndex: nat)

  ghost predicate Supplied(p: Supply, s: nat) {
    KeysOk(p.lists, |p.nFl|) && s < |p.nFl| && p.byteIndex <= p.maxByteIndex
  }

  /** n chunks of a size fit into what is not carved yet. */
  predicate Fits(byteIndex: nat, maxByteIndex: nat, n: nat, size: nat) {
    RoundUp8(byteIndex) + RoundUp8(BatchRoom(n, size)) < maxByteIndex
  }

  /** The number of chunks that are carved when a list is empty. */
  function OwnBatch(size: nat, nFree: nat): nat {
    if size * BATCH_SIZE <= nFree then BATCH_SIZE else 1
  }

  /** The refill of an empty list in plain arithmetic: 32 chunks when the bytes left hold the data
      of 32, otherwise one. */
  lemma RefillIs(byteIndex: nat, maxByteIndex: nat, size: nat)
    requires byteIndex <= maxByteIndex
    ensures var left := maxByteIndex - byteIndex;
            var n := OwnBatch(size, left);
            && n == (if 32 * size <= left then 32 else 1) && BatchRoom(n, size) == n * (24 + size)
            && (Fits(byteIndex, maxByteIndex, n, size) <==> RoundUp8(byteIndex) + RoundUp8(n * (24 + size)) < maxByteIndex)
  {
  }

  /** The classes that are combined for a request are those below its own, or the smallest. */
  lemma MultiStartIs(lists: map<Key, seq<Sptr>>, s: nat, data: nat)
    requires (forall i :: 0 <= i < VEC_LEN ==> Key(s, i) in lists) && data > 0
    ensures FreelistForSize(data) < VEC_LEN
    ensures MultiBytes(lists, s, data) == ListBytes(lists, s, if data <= 4096 then 1 else FreelistForSize(data))
  {
    ClassCovers(data);
    Pow2Values();
    if data > 4096 {
      AtLeastMin(data);
      CeilingLog(data);
    } else if data == 4096 {
      CeilingLog(data);
      if MaxLog2(data) > 12 { Pow2Monotone(12, MaxLog2(data) - 1); }
    }
  }

  lemma OwnBatchBounds(size: nat, nFree: nat)
    ensures 0 < OwnBatch(size, nFree) <= BATCH_SIZE
  {
  }

  /** The free bytes that fs_try_alloc_multi_chunk combines for a request. */
  ghost function MultiBytes(lists: map<Key, seq<Sptr>>, s: nat, data: nat): nat
    requires forall i :: 0 <= i < VEC_LEN ==> Key(s, i) in lists
  {
    if MultiStart(data) < VEC_LEN then ListBytes(lists, s, MultiStart(data) + 1) else 0
  }

  /** The request's own list can be refilled. */
  predicate Refillable(byteIndex: nat, maxByteIndex: nat, data: nat)
    requires byteIndex <= maxByteIndex
  {
    var size, nFree := IndexToSize(FreelistForSize(data)), maxByteIndex - byteIndex;
    size <= nFree && Fits(byteIndex, maxByteIndex, OwnBatch(size, nFree), size)
  }

  /** Smaller chunks cover the request once as many of the smallest have been carved as are
      missing, or as nFree bytes allow, or one of the next class does. */
  ghost predicate LastServes(p: Supply, s: nat, data: nat, nFree: nat)
    requires Supplied(p, s)
  {
    AllKeys(p.lists, |p.nFl|, s);
    var batch := LastBatch(data, p.nFl[s], nFree);
    && data <= p.nFl[s] + nFree && nFree >= MIN_SIZE && Fits(p.byteIndex, p.maxByteIndex, batch, IndexToSize(0))
    && (MultiBytes(p.lists, s, data) + BatchBytes(batch, 0) >= data || !LargerEmpty(p.lists, s, data))
  }

  /** Smaller chunks, or one of the next class, that are free now cover a request for which the
      slice has enough free bytes; or a last attempt does. */
  ghost predicate FallsBack(p: Supply, s: nat, data: nat)
    requires Supplied(p, s)
  {
    AllKeys(p.lists, |p.nFl|, s);
    if data <= p.nFl[s] then
      MultiBytes(p.lists, s, data) >= data || !LargerEmpty(p.lists, s, data)
    else
      LastServes(p, s, data, p.maxByteIndex - p.byteIndex)
  }

  /** The request's own class has a chunk or can be refilled. */
  ghost predicate OwnServes(p: Supply, s: nat, data: nat)
    requires Supplied(p, s)
  {
    || (FreelistForSize(data) < VEC_LEN && p.lists[Key(s, FreelistForSize(data))] != [])
    || Refillable(p.byteIndex, p.maxByteIndex, data)
  }

  /** Exactly when fsh_try_alloc_chunk serves a request of slice s. */
  ghost predicate Served(p: Supply, s: nat, data: nat)
    requires Supplied(p, s)
  {
    OwnServes(p, s, data) || FallsBack(p, s, data)
  }

  /** What an attempt with the smallest chunks carves, in plain arithmetic: one more than is missing,
      or as many as nFree bytes hold, if they fit with their headers of 24 bytes. */
  ghost predicate CarvesSmallest(p: Supply, s: nat, data: nat, nFree: nat, byteIndex: nat)
    requires s < |p.nFl| && p.nFl[s] <= data
  {
    var n := Least((data - p.nFl[s]) / 4096 + 1, nFree / 4096);
    var end := RoundUp8(p.byteIndex) + (if n < 0 then 0 else RoundUp8(n * 4120));
    byteIndex == if data <= p.nFl[s] + nFree && 4096 <= nFree && end < p.maxByteIndex then end else p.byteIndex
  }

  /** What is carved when free chunks of the slice would do but cannot be combined: all smallest
      chunks that the bytes left hold, if they fit with their headers, in vain. */
  ghost predicate CarvesRest(p: Supply, c: Sptr, byteIndex: nat) {
    && p.byteIndex <= p.maxByteIndex
    && var n := (p.maxByteIndex - p.byteIndex) / 4096;
       var end := RoundUp8(p.byteIndex) + RoundUp8(n * 4120);
       byteIndex == if c == NULL && n > 0 && end < p.maxByteIndex then end else p.byteIndex
  }

  lemma CarvesNothing(p: Supply, c: Sptr)
    requires c != NULL && p.byteIndex <= p.maxByteIndex
    ensures CarvesRest(p, c, p.byteIndex)
  {
  }

  lemma CarvesRestIs(p: Supply, nFree: nat)
    requires p.byteIndex <= p.maxByteIndex <= SEGMENT_LIMIT && nFree == p.maxByteIndex - p.byteIndex
    ensures var n := Wrap(nFree / MIN_SIZE);
            if n > 0 && Fits(p.byteIndex, p.maxByteIndex, n, IndexToSize(0))
            then CarvesRest(p, NULL, RoundUp8(p.byteIndex) + RoundUp8(BatchRoom(n, IndexToSize(0))))
            else CarvesRest(p, NULL, p.byteIndex)
  {
    hide IndexToSize, RoundUp8;
    SmallestClass();
    var n := nFree / MIN_SIZE;
    assert n < TWO_32;
    assert n * (CHUNK_HDR + MIN_SIZE) == n * 4120;
  }

  /** Not even one of the smallest chunks fits into fewer bytes than it has. */
  lemma NoneFits(byteIndex: nat, maxByteIndex: nat, n: nat)
    requires n > 0
    ensures maxByteIndex < byteIndex + MIN_SIZE ==> !Fits(byteIndex, maxByteIndex, n, IndexToSize(0))
  {
    hide IndexToSize, RoundUp8;
    SmallestClass();
    assert BatchRoom(n, MIN_SIZE) == (n - 1) * (CHUNK_HDR + MIN_SIZE) + CHUNK_HDR + MIN_SIZE;
  }

  /** The refilled list of a request's own class, in plain arithmetic. */
  ghost predicate Refilled(p: Supply, s: nat, data: nat, lists: map<Key, seq<Sptr>>, byteIndex: nat) {
    && p.byteIndex <= p.maxByteIndex
    && var k, size, left := Key(s, FreelistForSize(data)), IndexToSize(FreelistForSize(data)), p.maxByteIndex - p.byteIndex;
       var n := if 32 * size <= left then 32 else 1;
       && k in p.lists && p.lists[k] == [] && k in lists && |lists[k]| == n && lists == p.lists[k := lists[k]]
       && size <= left && byteIndex == RoundUp8(p.byteIndex) + RoundUp8(n * (24 + size)) < p.maxByteIndex
  }

  /** The refill can be made. */
  ghost predicate CanRefill(p: Supply, data: nat) {
    && p.byteIndex <= p.maxByteIndex
    && var size, left := IndexToSize(FreelistForSize(data)), p.maxByteIndex - p.byteIndex;
       var n := if 32 * size <= left then 32 else 1;
       size <= left && RoundUp8(p.byteIndex) + RoundUp8(n * (24 + size)) < p.maxByteIndex
  }

  /** What fsh_try_alloc_chunk does, case by case, in plain arithmetic. A free chunk of the request's
      own class is handed out, and it is the top of its list. If there is none and 32 can be carved,
      or one when the bytes left do not hold the data of 32, one of them is handed out, and the
      others are on the list. Otherwise the smallest chunks are carved: as many as are missing, or,
      when the slice has enough free bytes that cannot be combined, all that are left. */
  ghost predicate Handles(p: Supply, s: nat, data: nat, c: Sptr, got: seq<Sptr>, lists: map<Key, seq<Sptr>>, byteIndex: nat) {
    var k, size := Key(s, FreelistForSize(data)), IndexToSize(FreelistForSize(data));
    && k in p.lists && k in lists && p.byteIndex <= p.maxByteIndex && s < |p.nFl|
    && var left := p.maxByteIndex - p.byteIndex;
       && (p.lists[k] != [] ==> c == p.lists[k][0] && got == [c] && lists == p.lists[k := p.lists[k][1..]] && byteIndex == p.byteIndex)
       && (p.lists[k] == [] && CanRefill(p, data) ==>
             && c != NULL && got == [c] && lists == p.lists[k := lists[k]] && |lists[k]| == (if 32 * size <= left then 31 else 0)
             && byteIndex == RoundUp8(p.byteIndex) + RoundUp8((if 32 * size <= left then 32 else 1) * (24 + size)))
       && (p.lists[k] == [] && !CanRefill(p, data) && p.nFl[s] < data ==> CarvesSmallest(p, s, data, left, byteIndex))
       && (p.lists[k] == [] && !CanRefill(p, data) && p.nFl[s] >= data ==> CarvesRest(p, c, byteIndex))
  }

  lemma RefillableIs(p: Supply, data: nat)
    requires p.byteIndex <= p.maxByteIndex
    ensures Refillable(p.byteIndex, p.maxByteIndex, data) <==> CanRefill(p, data)
  {
    hide IndexToSize, FreelistForSize, RoundUp8, BatchRoom, Fits, OwnBatch;
    RefillIs(p.byteIndex, p.maxByteIndex, IndexToSize(FreelistForSize(data)));
  }

  lemma RefilledIs(p: Supply, s: nat, data: nat, lists: map<Key, seq<Sptr>>, byteIndex: nat)
    requires p.byteIndex <= p.maxByteIndex
    requires var k, size := Key(s, FreelistForSize(data)), IndexToSize(FreelistForSize(data));
             var n := OwnBatch(size, p.maxByteIndex - p.byteIndex);
             && k in p.lists && p.lists[k] == [] && k in lists && |lists[k]| == n && lists == p.lists[k := lists[k]]
             && size <= p.maxByteIndex - p.byteIndex && Fits(p.byteIndex, p.maxByteIndex, n, size)
             && byteIndex == RoundUp8(p.byteIndex) + RoundUp8(BatchRoom(n, size))
    ensures Refilled(p, s, data, lists, byteIndex)
  {
    hide IndexToSize, FreelistForSize, RoundUp8, BatchRoom, Fits, OwnBatch;
    RefillIs(p.byteIndex, p.maxByteIndex, IndexToSize(FreelistForSize(data)));
  }

  lemma RefilledHas(p: Supply, s: nat, data: nat, lists: map<Key, seq<Sptr>>, byteIndex: nat)
    ensures Refilled(p, s, data, lists, byteIndex) ==>
              Key(s, FreelistForSize(data)) in lists && lists[Key(s, FreelistForSize(data))] != []
  {
    hide IndexToSize, FreelistForSize, RoundUp8;
  }

  /** A chunk of the own list is taken, at once or after a refill. */
  lemma HandlesOwn(p: Supply, s: nat, data: nat, lists1: map<Key, seq<Sptr>>, c: Sptr, lists: map<Key, seq<Sptr>>, byteIndex: nat)
    requires Key(s, FreelistForSize(data)) in lists1 && c != NULL && p.byteIndex <= p.maxByteIndex && s < |p.nFl|
    requires (lists1 == p.lists && byteIndex == p.byteIndex) || Refilled(p, s, data, lists1, byteIndex)
    requires var k := Key(s, FreelistForSize(data)); lists1[k] != [] && c == lists1[k][0] && lists == lists1[k := lists1[k][1..]]
    ensures Handles(p, s, data, c, [c], lists, byteIndex)
  {
    hide IndexToSize, FreelistForSize, RoundUp8, CarvesSmallest, CarvesRest;
  }

  lemma HandlesFallback(p: Supply, s: nat, data: nat, c: Sptr, got: seq<Sptr>, lists: map<Key, seq<Sptr>>, byteIndex: nat)
    requires p.byteIndex <= p.maxByteIndex && s < |p.nFl| && !Refillable(p.byteIndex, p.maxByteIndex, data)
    requires var k := Key(s, FreelistForSize(data)); k in p.lists && p.lists[k] == [] && k in lists
    requires p.nFl[s] < data ==> CarvesSmallest(p, s, data, p.maxByteIndex - p.byteIndex, byteIndex)
    requires p.nFl[s] >= data ==> CarvesRest(p, c, byteIndex)
    ensures Handles(p, s, data, c, got, lists, byteIndex)
  {
    hide IndexToSize, FreelistForSize, RoundUp8, CarvesSmallest, CarvesRest, Refillable, CanRefill;
    RefillableIs(p, data);
  }

  /** The batch of the last attempt in these terms. */
  lemma CarvesSmallestIs(p: Supply, s: nat, data: nat, nFree: nat)
    requires s < |p.nFl| && p.byteIndex < p.maxByteIndex && data < TWO_32 && p.nFl[s] >= 0
    ensures p.nFl[s] <= data ==>
              && (data > p.nFl[s] + nFree || nFree < MIN_SIZE ==> CarvesSmallest(p, s, data, nFree, p.byteIndex))
              && (data <= p.nFl[s] + nFree && nFree >= MIN_SIZE ==>
                    var n := LastBatch(data, p.nFl[s], nFree);
                    if Fits(p.byteIndex, p.maxByteIndex, n, IndexToSize(0))
                    then CarvesSmallest(p, s, data, nFree, RoundUp8(p.byteIndex) + RoundUp8(BatchRoom(n, IndexToSize(0))))
                    else CarvesSmallest(p, s, data, nFree, p.byteIndex))
  {
    hide IndexToSize, RoundUp8, LastBatch;
    SmallestClass();
    if p.nFl[s] <= data {
      LastBatchIs(data, p.nFl[s], nFree);
      var n := LastBatch(data, p.nFl[s], nFree);
      assert n * (CHUNK_HDR + MIN_SIZE) == n * 4120;
    }
  }

  lemma MultiBytesIs(lists: map<Key, seq<Sptr>>, s: nat, data: nat)
    requires (forall i :: 0 <= i < VEC_LEN ==> Key(s, i) in lists) && data > 0
    ensures MultiStart(data) < VEC_LEN && FreelistForSize(data) < VEC_LEN
    ensures MultiBytes(lists, s, data) == ListBytes(lists, s, MultiStart(data) + 1)
  {
    MultiSizes(data);
    ClassCovers(data);
  }

  /** Once all smallest chunks that could fit have been carved, not one more fits. */
  lemma NothingLeft(byteIndex0: nat, maxByteIndex: nat, byteIndex: nat)
    requires byteIndex0 <= byteIndex < maxByteIndex <= SEGMENT_LIMIT
    requires byteIndex == RoundUp8(byteIndex0) + RoundUp8(BatchRoom(Wrap((maxByteIndex - byteIndex0) / MIN_SIZE), IndexToSize(0)))
    ensures maxByteIndex - byteIndex < MIN_SIZE
  {
    hide RoundUp8, IndexToSize;
    Pow2Values();
    assert IndexToSize(0) == MIN_SIZE by { SmallestClass(); }
    var n := (maxByteIndex - byteIndex0) / MIN_SIZE;
    assert n < TWO_32;
  }

  lemma SmallestClass()
    ensures IndexToSize(0) == MIN_SIZE
  {
    Pow2Values();
  }

  /** A chunk of the smallest class does not fit into fewer bytes than it has. */
  lemma LastTooSmall(p: Supply, s: nat, data: nat, nFree: nat)
    requires Supplied(p, s) && p.maxByteIndex < p.byteIndex + MIN_SIZE
    requires 0 < data < TWO_32 && 0 <= p.nFl[s] <= SEGMENT_LIMIT && (p.nFl[s] <= data || p.nFl[s] > data + MIN_SIZE)
    ensures !LastServes(p, s, data, nFree)
  {
    hide RoundUp8, IndexToSize, LastBatch, MultiBytes, LargerEmpty, KeysOk;
    SmallestClass();
    if nFree >= MIN_SIZE {
      LastBatchPositive(data, p.nFl[s], nFree);
      var n := LastBatch(data, p.nFl[s], nFree);
      assert BatchRoom(n, MIN_SIZE) == (n - 1) * (CHUNK_HDR + MIN_SIZE) + CHUNK_HDR + MIN_SIZE;
    }
  }

  /** More chunks of the smallest class: as many more bytes to combine. */
  lemma MultiMore(lists: map<Key, seq<Sptr>>, lists': map<Key, seq<Sptr>>, s: nat, data: nat)
    requires (forall i :: 0 <= i < VEC_LEN ==> Key(s, i) in lists) && data > 0
    requires Key(s, 0) in lists' && lists' == lists[Key(s, 0) := lists'[Key(s, 0)]] && |lists'[Key(s, 0)]| >= |lists[Key(s, 0)]|
    ensures (forall i :: 0 <= i < VEC_LEN ==> Key(s, i) in lists')
    ensures MultiBytes(lists', s, data) == MultiBytes(lists, s, data) + BatchBytes(|lists'[Key(s, 0)]| - |lists[Key(s, 0)]|, 0)
    ensures LargerEmpty(lists', s, data) <==> LargerEmpty(lists, s, data)
  {
    hide IndexToSize, FreelistForSize, ListBytes;
    MultiSizes(data);
    ListBytesUpdate(lists, s, MultiStart(data) + 1, Key(s, 0), lists'[Key(s, 0)]);
  }

  /** The most bytes that a refill of an empty list can take. */
  const MAX_REFILL: nat := 32 * (0x40_0000 + 24) + 16

  lemma RefillBytes(byteIndex: nat, fl: nat, n: nat)
    requires fl < VEC_LEN && n <= BATCH_SIZE
    ensures RoundUp8(byteIndex) + RoundUp8(BatchRoom(n, IndexToSize(fl))) <= byteIndex + MAX_REFILL
  {
    hide IndexToSize, RoundUp8;
    ClassBounds(fl);
    RoomMonotone(n, IndexToSize(fl));
  }

  lemma {:induction false} RoomMonotone(n: nat, size: nat)
    requires n <= BATCH_SIZE && size <= MAX_SIZE
    ensures BatchRoom(n, size) <= n * (CHUNK_HDR + MAX_SIZE)
    decreases n
  {
    if n > 0 {
      RoomMonotone(n - 1, size);
      BatchRoomStep(n - 1, size);
    }
  }

  /** With room for the largest refill every request is served, by its own class. */
  lemma RoomServes(p: Supply, s: nat, data: nat)
    requires Supplied(p, s) && 0 < data && p.byteIndex + MAX_REFILL <= p.maxByteIndex
    ensures Served(p, s, data) && OwnServes(p, s, data) && Refillable(p.byteIndex, p.maxByteIndex, data)
  {
    hide FreelistForSize, IndexToSize, FallsBack;
    ClassCovers(data);
    ClassBounds(FreelistForSize(data));
  }

  lemma HeadIs(mem: Memory, byteIndex: nat, heads: map<Key, Sptr>, nFl: seq<int>, nCached: int,
               numChunks: map<Key, int>, lists: map<Key, seq<Sptr>>, place: Places, s: nat, k: Key)
    requires Inv(mem, byteIndex, heads, nFl, nCached, numChunks, lists, place, s, 0) && k in lists
    ensures k in heads && (heads[k] == NULL <==> lists[k] == [])
  {
    hide Counted, Regions, Owing, ListOk;
    ListHead(mem, heads[k], lists[k]);
  }

  lemma OwnClass(data: nat)
    requires data > 0
    ensures FreelistForSize(data) < VEC_LEN
    ensures var size := IndexToSize(FreelistForSize(data));
            0 < size <= Cap(data) && (data <= size || size == MAX_SIZE < data) && (data <= size <==> data <= MAX_SIZE)
  {
    var fl := FreelistForSize(data);
    ClassCovers(data);
    ClassBounds(fl);
    Pow2Values();
    if fl > 0 {
      ClassTight(data);
      ClassBounds(fl - 1);
    }
    if data > MAX_SIZE && fl < VEC_LEN - 1 {
      ClassClamped(data);
    }
  }

  lemma ExtendsTrans(mem0: Memory, place0: Places, mem1: Memory, place1: Places, mem: Memory, place: Places)
    requires Extends(mem0, place0, mem1, place1) && Extends(mem1, place1, mem, place)
    ensures Extends(mem0, place0, mem, place)
  {
  }

  lemma ExtendsAllocated(mem0: Memory, place0: Places, mem1: Memory, place1: Places, mem: Memory, place: Places,
                         first: Sptr, got: seq<Sptr>, s: nat)
    requires Extends(mem0, place0, mem1, place1) && Allocated(mem1, place1, mem, place, first, got, s)
    ensures Allocated(mem0, place0, mem, place, first, got, s)
  {
    hide ListOk;
  }
}
