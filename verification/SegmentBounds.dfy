/** The bytes on free lists never exceed the bytes carved out of a segment. */
module SegmentBounds {
  import opened Sequences
  import opened Chunks
  import opened SizeClasses
  import opened FreeLists
  import opened SegmentState

  ghost function Greatest(s: set<Sptr>): (x: Sptr)
    requires s != {}
    ensures x in s && forall y :: y in s ==> y <= x
  {
    var y :| y in s;
    if s == {y} then y else
    var z := Greatest(s - {y});
    assert s == (s - {y}) + {y};
    if y < z then z else y
  }

  ghost function SetBytes(mem: Memory, s: set<Sptr>): nat
    requires s <= mem.Keys
  {
    if s == {} then 0 else
    var x := Greatest(s);
    mem[x].length + SetBytes(mem, s - {x})
  }

  /** Disjoint regions below a limit add up to at most the limit. */
  lemma {:induction false} SetBytesBound(mem: Memory, byteIndex: nat, s: set<Sptr>, limit: nat)
    requires Regions(mem, byteIndex) && s <= mem.Keys
    requires forall x :: x in s ==> x + CHUNK_HDR + mem[x].length <= limit
    ensures SetBytes(mem, s) <= limit
    decreases |s|
  {
    if s != {} {
      var x := Greatest(s);
      SetBytesBound(mem, byteIndex, s - {x}, x);
    }
  }

  lemma {:induction false} SetBytesAdd(mem: Memory, s: set<Sptr>, x: Sptr)
    requires s <= mem.Keys && x in mem && x !in s
    ensures SetBytes(mem, s + {x}) == SetBytes(mem, s) + mem[x].length
    decreases |s|
  {
    var t := s + {x};
    var y := Greatest(t);
    if y == x {
      assert t - {x} == s;
    } else {
      SetBytesAdd(mem, s - {y}, x);
      assert t - {y} == (s - {y}) + {x};
      assert Greatest(s) == y;
    }
  }

  ghost function Elements(q: seq<Sptr>): set<Sptr> {
    set x | x in q
  }

  lemma {:induction false} SetBytesList(mem: Memory, s: set<Sptr>, q: seq<Sptr>, size: nat)
    requires s <= mem.Keys && NoRepeats(q)
    requires forall x :: x in q ==> x in mem && x !in s && mem[x].length == size
    ensures SetBytes(mem, s + Elements(q)) == SetBytes(mem, s) + |q| * size
    decreases |q|
  {
    hide SetBytes;
    if q == [] {
      assert s + Elements(q) == s;
    } else {
      var r := q[..|q| - 1];
      var x := q[|q| - 1];
      ElementsStep(q);
      hide Elements, NoRepeats;
      SetBytesList(mem, s, r, size);
      SetBytesAdd(mem, s + Elements(r), x);
      assert s + Elements(q) == s + Elements(r) + {x};
      assert |q| * size == |r| * size + size;
    }
  }

  lemma ElementsStep(q: seq<Sptr>)
    requires q != [] && NoRepeats(q)
    ensures var r, x := q[..|q| - 1], q[|q| - 1];
            x in q && x !in Elements(r) && NoRepeats(r) && Elements(q) == Elements(r) + {x}
            && (forall y :: y in r ==> y in q) && (forall y :: y in Elements(r) ==> y in q)
  {
    var r, x := q[..|q| - 1], q[|q| - 1];
    assert q == r + [x];
  }

  /** The chunks on the first f free lists of slice s. */
  ghost function FreeSet(place: Places, s: nat, f: nat): set<Sptr> {
    set x | x in place && place[x].free && place[x].key.slice == s && place[x].key.fl < f
  }

  lemma {:induction false} FreeSetBytes(mem: Memory, heads: map<Key, Sptr>, lists: map<Key, seq<Sptr>>, place: Places, n: nat, s: nat, f: nat)
    requires Structure(mem, heads, lists, place) && KeysOk(lists, n) && s < n && f <= VEC_LEN
    ensures FreeSet(place, s, f) <= mem.Keys && SetBytes(mem, FreeSet(place, s, f)) == ListBytes(lists, s, f)
  {
    hide Structure, FreeSet, SetBytes;
    if f > 0 {
      FreeSetBytes(mem, heads, lists, place, n, s, f - 1);
      FreeSetNext(mem, heads, lists, place, s, f);
    } else {
      NoFreeSet(mem, place, s);
    }
  }

  lemma NoFreeSet(mem: Memory, place: Places, s: nat)
    ensures FreeSet(place, s, 0) <= mem.Keys && SetBytes(mem, FreeSet(place, s, 0)) == 0
  {
    assert FreeSet(place, s, 0) == {};
  }

  /** One more list adds its bytes. */
  lemma FreeSetNext(mem: Memory, heads: map<Key, Sptr>, lists: map<Key, seq<Sptr>>, place: Places, s: nat, f: nat)
    requires Structure(mem, heads, lists, place) && f > 0 && Key(s, f - 1) in lists && FreeSet(place, s, f - 1) <= mem.Keys
    ensures FreeSet(place, s, f) <= mem.Keys
    ensures SetBytes(mem, FreeSet(place, s, f)) == SetBytes(mem, FreeSet(place, s, f - 1)) + |lists[Key(s, f - 1)]| * IndexToSize(f - 1)
  {
    var k := Key(s, f - 1);
    assert Membership(lists, place);
    hide Structure, Membership, FreeSet, SetBytes, IndexToSize, NoRepeats;
    OnList(mem, heads, lists, place, k);
    FreeSetStep(lists, place, s, f);
    SetBytesList(mem, FreeSet(place, s, f - 1), lists[k], IndexToSize(f - 1));
  }

  lemma OnList(mem: Memory, heads: map<Key, Sptr>, lists: map<Key, seq<Sptr>>, place: Places, k: Key)
    requires Structure(mem, heads, lists, place) && k in lists
    ensures NoRepeats(lists[k]) && (forall x :: x in lists[k] ==> x in mem && x !in FreeSet(place, k.slice, k.fl) && mem[x].length == IndexToSize(k.fl))
  {
    hide IndexToSize;
    ListFacts(mem, heads[k], lists[k]);
    forall x | x in lists[k] ensures x in mem && x !in FreeSet(place, k.slice, k.fl) && mem[x].length == IndexToSize(k.fl) {
      assert place[x] == Place(k, true);
    }
  }

  lemma FreeSetStep(lists: map<Key, seq<Sptr>>, place: Places, s: nat, f: nat)
    requires Membership(lists, place) && f > 0 && Key(s, f - 1) in lists
    ensures FreeSet(place, s, f) == FreeSet(place, s, f - 1) + Elements(lists[Key(s, f - 1)])
  {
    var k := Key(s, f - 1);
    forall x ensures x in FreeSet(place, s, f) <==> x in FreeSet(place, s, f - 1) + Elements(lists[k]) {
      assert x in lists[k] <==> x in place && place[x] == Place(k, true);
    }
  }

  /** The counter of a slice is at most the number of bytes carved out of the segment. */
  lemma FreeBytesBound(mem: Memory, byteIndex: nat, heads: map<Key, Sptr>, nFl: seq<int>, nCached: int,
                       numChunks: map<Key, int>, lists: map<Key, seq<Sptr>>, place: Places, s: nat)
    requires Inv(mem, byteIndex, heads, nFl, nCached, numChunks, lists, place, s, 0) && s < |nFl|
    ensures KeysOk(lists, |nFl|) && nFl[s] == ListBytes(lists, s, VEC_LEN) <= byteIndex
  {
    hide Structure, Counted;
    FreeSetBytes(mem, heads, lists, place, |nFl|, s, VEC_LEN);
    SetBytesBound(mem, byteIndex, FreeSet(place, s, VEC_LEN), byteIndex);
  }
}
