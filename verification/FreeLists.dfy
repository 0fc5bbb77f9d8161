/** The free lists of a segment at the granularity of whole operations: every chunk that
    was carved has one place, a free list of its own size or the hands of an owner. */
module FreeLists {
  import opened Sequences
  import opened Chunks
  import opened SizeClasses

  /** A free list: a slice of the segment and a size class. */
  datatype Key = Key(slice: nat, fl: nat)

  /** Where a chunk belongs, and whether it is on that list or handed out. */
  datatype Place = Place(key: Key, free: bool)

  type Places = map<Sptr, Place>

  ghost predicate LinkAt(mem: Memory, list: seq<Sptr>, i: nat)
    requires i < |list|
  {
    list[i] != NULL && list[i] in mem && mem[list[i]].next == Nth(list, i + 1)
  }

  /** A null-terminated list of distinct chunks that starts at head. */
  ghost predicate ListOk(mem: Memory, head: Sptr, list: seq<Sptr>) {
    NoRepeats(list) && head == Nth(list, 0) && (forall i: nat :: i < |list| ==> LinkAt(mem, list, i))
  }

  lemma ListFacts(mem: Memory, head: Sptr, list: seq<Sptr>)
    requires ListOk(mem, head, list)
    ensures forall x :: x in list ==> x in mem && x != NULL
    ensures NoRepeats(list) && head == Nth(list, 0)
  {
    forall x | x in list ensures x in mem && x != NULL {
      var i :| 0 <= i < |list| && list[i] == x;
      assert LinkAt(mem, list, i);
    }
  }

  lemma ListHead(mem: Memory, head: Sptr, list: seq<Sptr>)
    requires ListOk(mem, head, list)
    ensures head == NULL <==> list == []
    ensures head != NULL ==> head in mem && list[0] == head && head !in list[1..] && ListOk(mem, mem[head].next, list[1..])
  {
    if list != [] {
      assert LinkAt(mem, list, 0);
      forall i: nat | i < |list| - 1 ensures LinkAt(mem, list[1..], i) {
        assert LinkAt(mem, list, i + 1);
      }
    }
  }

  lemma ListPush(mem: Memory, head: Sptr, list: seq<Sptr>, c: Sptr)
    requires ListOk(mem, head, list) && c in mem && c != NULL && c !in list
    ensures ListOk(mem[c := mem[c].(next := head)], c, [c] + list)
  {
    var m := mem[c := mem[c].(next := head)];
    forall i: nat | i < |[c] + list| ensures LinkAt(m, [c] + list, i) {
      if i > 0 {
        assert LinkAt(mem, list, i - 1);
      }
    }
  }

  /** A list survives any change that leaves its links alone. */
  lemma ListFrame(mem: Memory, m: Memory, head: Sptr, list: seq<Sptr>)
    requires ListOk(mem, head, list)
    requires forall x :: x in list && x in mem ==> x in m && m[x].next == mem[x].next
    ensures ListOk(m, head, list)
  {
    forall i: nat | i < |list| ensures LinkAt(m, list, i) {
      assert LinkAt(mem, list, i);
    }
  }

  ghost predicate Sized(mem: Memory, x: Sptr, key: Key) {
    x in mem && x != NULL && key.fl < VEC_LEN && mem[x].length == IndexToSize(key.fl) == |mem[x].data|
  }

  ghost predicate ListsOk(mem: Memory, heads: map<Key, Sptr>, lists: map<Key, seq<Sptr>>) {
    && heads.Keys == lists.Keys
    && (forall k :: k in lists ==> k.fl < VEC_LEN && ListOk(mem, heads[k], lists[k]))
  }

  /** A chunk is on exactly the list its place names, and on none when it is handed out. */
  ghost predicate Membership(lists: map<Key, seq<Sptr>>, place: Places) {
    forall k, x :: k in lists ==> (x in lists[k] <==> x in place && place[x] == Place(k, true))
  }

  ghost predicate AllSized(mem: Memory, lists: map<Key, seq<Sptr>>, place: Places) {
    place.Keys == mem.Keys && (forall x :: x in place ==> place[x].key in lists && Sized(mem, x, place[x].key))
  }

  ghost predicate Structure(mem: Memory, heads: map<Key, Sptr>, lists: map<Key, seq<Sptr>>, place: Places) {
    ListsOk(mem, heads, lists) && Membership(lists, place) && AllSized(mem, lists, place)
  }

  lemma ListsFrame(mem: Memory, m: Memory, heads: map<Key, Sptr>, lists: map<Key, seq<Sptr>>, place: Places)
    requires ListsOk(mem, heads, lists) && Membership(lists, place)
    requires forall x :: x in mem && x in place && place[x].free ==> x in m && m[x].next == mem[x].next
    ensures ListsOk(m, heads, lists)
  {
    hide ListOk;
    forall k | k in lists ensures ListOk(m, heads[k], lists[k]) {
      ListFrame(mem, m, heads[k], lists[k]);
    }
  }

  /** Writes to chunks that are handed out leave the free lists alone. */
  lemma StructureFrame(mem: Memory, m: Memory, heads: map<Key, Sptr>, lists: map<Key, seq<Sptr>>, place: Places)
    requires Structure(mem, heads, lists, place) && m.Keys == mem.Keys
    requires forall x :: x in m ==> m[x].length == mem[x].length && |m[x].data| == |mem[x].data|
    requires forall x :: x in m && x in place && place[x].free ==> m[x].next == mem[x].next
    ensures Structure(m, heads, lists, place)
  {
    hide ListsOk;
    ListsFrame(mem, m, heads, lists, place);
  }

  /** Replacing one list by another with the same chunks but one. */
  lemma ReplaceList(mem: Memory, heads: map<Key, Sptr>, lists: map<Key, seq<Sptr>>, k: Key, head: Sptr, list: seq<Sptr>)
    requires ListsOk(mem, heads, lists) && k in lists && ListOk(mem, head, list)
    ensures ListsOk(mem, heads[k := head], lists[k := list])
  {
    hide ListOk;
  }

  lemma MembershipMoves(lists: map<Key, seq<Sptr>>, place: Places, k: Key, c: Sptr, list: seq<Sptr>, free: bool)
    requires Membership(lists, place) && k in lists && c in place && place[c].key == k
    requires forall x :: x in list <==> if x == c then free else x in lists[k]
    ensures Membership(lists[k := list], place[c := Place(k, free)])
  {
    var l, p := lists[k := list], place[c := Place(k, free)];
    forall j, x | j in l ensures x in l[j] <==> x in p && p[x] == Place(j, true) {
      assert x in lists[j] <==> x in place && place[x] == Place(j, true);
    }
  }

  /** fss_chunk_free_list_pop takes the first chunk of the list off it. */
  lemma PopStructure(mem: Memory, heads: map<Key, Sptr>, lists: map<Key, seq<Sptr>>, place: Places, k: Key)
    requires Structure(mem, heads, lists, place) && k in lists && k in heads && heads[k] != NULL
    ensures lists[k] != [] && heads[k] == lists[k][0] && heads[k] in mem && heads[k] in place && place[heads[k]] == Place(k, true)
    ensures Structure(mem, heads[k := mem[heads[k]].next], lists[k := lists[k][1..]], place[heads[k] := Place(k, false)])
  {
    hide ListOk;
    var c, list := heads[k], lists[k];
    ListHead(mem, c, list);
    assert c in list && list == [c] + list[1..];
    ReplaceList(mem, heads, lists, k, mem[c].next, list[1..]);
    MembershipMoves(lists, place, k, c, list[1..], false);
  }

  /** fss_chunk_free_list_push puts a chunk that is handed out on its list. */
  lemma PushStructure(mem: Memory, heads: map<Key, Sptr>, lists: map<Key, seq<Sptr>>, place: Places, k: Key, c: Sptr)
    requires Structure(mem, heads, lists, place) && k in lists && k in heads && c in place && place[c] == Place(k, false)
    ensures c in mem
    ensures Structure(mem[c := mem[c].(next := heads[k])], heads[k := c], lists[k := [c] + lists[k]], place[c := Place(k, true)])
  {
    PushLists(mem, heads, lists, place, k, c);
    MembershipMoves(lists, place, k, c, [c] + lists[k], true);
    hide ListsOk, Membership;
  }

  lemma PushLists(mem: Memory, heads: map<Key, Sptr>, lists: map<Key, seq<Sptr>>, place: Places, k: Key, c: Sptr)
    requires Structure(mem, heads, lists, place) && k in lists && k in heads && c in place && place[c] == Place(k, false)
    ensures c in mem
    ensures ListsOk(mem[c := mem[c].(next := heads[k])], heads[k := c], lists[k := [c] + lists[k]])
  {
    hide ListOk;
    var m := mem[c := mem[c].(next := heads[k])];
    ListPush(mem, heads[k], lists[k], c);
    ListsFrame(mem, m, heads, lists, place);
    ReplaceList(m, heads, lists, k, c, [c] + lists[k]);
  }

  lemma ListConcat(mem: Memory, head: Sptr, items: seq<Sptr>, head': Sptr, list: seq<Sptr>)
    requires ListOk(mem, head, items) && items != [] && ListOk(mem, head', list)
    requires forall x :: x in items ==> x !in list
    ensures var tail := items[|items| - 1];
            tail in mem && ListOk(mem[tail := mem[tail].(next := head')], head, items + list)
  {
    var n := |items| - 1;
    var tail := items[n];
    assert LinkAt(mem, items, n);
    var m := mem[tail := mem[tail].(next := head')];
    forall i: nat | i < |items + list| ensures LinkAt(m, items + list, i) {
      if i < |items| {
        assert LinkAt(mem, items, i);
      } else {
        assert LinkAt(mem, list, i - |items|);
        assert (items + list)[i] in list;
        assert tail in items;
      }
    }
    var all := items + list;
    forall i, j | 0 <= i < j < |all| ensures all[i] != all[j] {
      assert i < |items| ==> all[i] in items;
      assert j >= |items| ==> all[j] in list;
    }
  }

  /** Memory after carved chunks join it, the last of their list linked to next. */
  function Installed(mem: Memory, carved: Memory, tail: Sptr, next: Sptr): Memory
    requires tail in carved
  {
    (mem + carved)[tail := carved[tail].(next := next)]
  }

  /** Carved chunks are placed on list k. */
  ghost function PlacedAt(place: Places, carved: Memory, k: Key): Places {
    place + (map x | x in carved :: Place(k, true))
  }

  lemma CarveMembership(lists: map<Key, seq<Sptr>>, place: Places, k: Key, carved: Memory, items: seq<Sptr>)
    requires Membership(lists, place) && k in lists && carved.Keys !! place.Keys
    requires forall x :: x in items <==> x in carved
    ensures Membership(lists[k := items + lists[k]], PlacedAt(place, carved, k))
  {
    var l := lists[k := items + lists[k]];
    var p := PlacedAt(place, carved, k);
    forall j, x | j in l ensures x in l[j] <==> x in p && p[x] == Place(j, true) {
      assert x in lists[j] <==> x in place && place[x] == Place(j, true);
    }
  }

  lemma CarveLists(mem: Memory, heads: map<Key, Sptr>, lists: map<Key, seq<Sptr>>, place: Places,
                   k: Key, carved: Memory, head: Sptr, items: seq<Sptr>)
    requires ListsOk(mem, heads, lists) && Membership(lists, place) && place.Keys == mem.Keys
    requires k in lists && k in heads && carved.Keys !! mem.Keys
    requires ListOk(carved, head, items) && items != []
    requires forall x :: x in items <==> x in carved
    ensures var tail := items[|items| - 1];
            && tail in carved
            && ListsOk(Installed(mem, carved, tail, heads[k]), heads[k := head], lists[k := items + lists[k]])
  {
    hide ListOk;
    var tail := items[|items| - 1];
    assert tail in items;
    var m := Installed(mem, carved, tail, heads[k]);
    ListFrame(mem, mem + carved, heads[k], lists[k]);
    ListFrame(carved, mem + carved, head, items);
    ListConcat(mem + carved, head, items, heads[k], lists[k]);
    ListsFrame(mem, m, heads, lists, place);
    ReplaceList(m, heads, lists, k, head, items + lists[k]);
  }

  /** fss_chunk_free_list_push_list puts a list of freshly carved chunks on a free list. */
  lemma CarveStructure(mem: Memory, heads: map<Key, Sptr>, lists: map<Key, seq<Sptr>>, place: Places,
                       k: Key, carved: Memory, head: Sptr, items: seq<Sptr>)
    requires Structure(mem, heads, lists, place) && k in lists && k in heads && carved.Keys !! mem.Keys
    requires ListOk(carved, head, items) && items != []
    requires forall x :: x in items <==> x in carved
    requires forall x :: x in carved ==> Sized(carved, x, k)
    ensures var tail := items[|items| - 1];
            && tail in carved
            && Structure(Installed(mem, carved, tail, heads[k]), heads[k := head],
                         lists[k := items + lists[k]], PlacedAt(place, carved, k))
  {
    hide ListsOk, Membership, ListOk;
    CarveLists(mem, heads, lists, place, k, carved, head, items);
    CarveMembership(lists, place, k, carved, items);
  }

  /** Bytes on the first f free lists of slice s. */
  ghost function ListBytes(lists: map<Key, seq<Sptr>>, s: nat, f: nat): nat
    requires forall i :: 0 <= i < f ==> Key(s, i) in lists
  {
    if f == 0 then 0 else ListBytes(lists, s, f - 1) + |lists[Key(s, f - 1)]| * IndexToSize(f - 1)
  }

  lemma {:induction false} ListBytesUpdate(lists: map<Key, seq<Sptr>>, s: nat, f: nat, k: Key, l: seq<Sptr>)
    requires forall i :: 0 <= i < f ==> Key(s, i) in lists
    requires k in lists
    ensures ListBytes(lists[k := l], s, f) == ListBytes(lists, s, f)
              + if k.slice == s && k.fl < f then (|l| - |lists[k]|) * IndexToSize(k.fl) else 0
  {
    if f > 0 {
      ListBytesUpdate(lists, s, f - 1, k, l);
      if k == Key(s, f - 1) {
        assert (|l| - |lists[k]|) * IndexToSize(k.fl) == |l| * IndexToSize(k.fl) - |lists[k]| * IndexToSize(k.fl);
      }
    }
  }

  ghost function Sum(q: seq<int>): int {
    if q == [] then 0 else q[0] + Sum(q[1..])
  }

  lemma {:induction false} SumUpdate(q: seq<int>, i: nat, v: int)
    requires i < |q|
    ensures Sum(q[i := v]) == Sum(q) - q[i] + v
  {
    if i == 0 {
      assert q[0 := v][1..] == q[1..];
    } else {
      SumUpdate(q[1..], i - 1, v);
      assert q[i := v][1..] == q[1..][i - 1 := v];
    }
  }

  /** The chunks that belong to list k, free or handed out. */
  ghost function Members(place: Places, k: Key): set<Sptr> {
    set x | x in place && place[x].key == k
  }

  /** Total length of a list of chunks. */
  ghost function TotalLength(mem: Memory, list: seq<Sptr>): nat
    requires forall x :: x in list ==> x in mem
  {
    if list == [] then 0 else mem[list[0]].length + TotalLength(mem, list[1..])
  }

  lemma {:induction false} TotalLengthFrame(mem: Memory, m: Memory, list: seq<Sptr>)
    requires forall x :: x in list ==> x in mem && x in m && m[x].length == mem[x].length
    ensures TotalLength(m, list) == TotalLength(mem, list)
  {
    if list != [] {
      TotalLengthFrame(mem, m, list[1..]);
    }
  }
}
