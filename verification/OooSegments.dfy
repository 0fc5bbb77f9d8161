/** Out-of-order segments of a fifo (src/svm/svm_fifo.c): a pool of records in
    which a doubly linked list is threaded by index. Abstractly the list is the
    canonical form of the set of positions written beyond the tail. */
module OooSegments {
  import opened Sequences
  import opened Position

  /** OOO_SEGMENT_INVALID_INDEX. Pool indices are naturals. */
  const INVALID: int := -1

  datatype OooSegment = OooSegment(next: int, prev: int, start: u32, length: u32)

  /** The positions lo, lo + 1, ..., hi - 1. */
  datatype Interval = Interval(lo: int, hi: int)

  ghost predicate Covers(segs: seq<Interval>, p: int) {
    exists i :: 0 <= i < |segs| && segs[i].lo <= p < segs[i].hi
  }

  /** Non-empty intervals in ascending order, no two of which overlap or touch. */
  ghost predicate Canonical(segs: seq<Interval>) {
    && (forall i :: 0 <= i < |segs| ==> segs[i].lo < segs[i].hi)
    && (forall i, j :: 0 <= i < j < |segs| ==> segs[i].hi < segs[j].lo)
  }

  /** All bounds lie in lo..hi, both included. */
  ghost predicate Within(segs: seq<Interval>, lo: int, hi: int) {
    forall i :: 0 <= i < |segs| ==> lo <= segs[i].lo && segs[i].hi <= hi
  }

  /** Exactly the positions lo..hi are covered in addition. */
  ghost predicate Added(segs: seq<Interval>, segs': seq<Interval>, lo: int, hi: int) {
    forall p :: Covers(segs', p) <==> Covers(segs, p) || lo <= p < hi
  }

  /** The tail has moved from t to t', the first position from t on that was not covered;
      what was covered beyond it still is, and nothing else. */
  ghost predicate Collected(segs: seq<Interval>, segs': seq<Interval>, t: int, t': int) {
    && t <= t' && (forall p :: t <= p < t' ==> Covers(segs, p)) && !Covers(segs, t')
    && (forall p :: t' <= p ==> (Covers(segs', p) <==> Covers(segs, p)))
    && (forall i :: 0 <= i < |segs'| ==> t' < segs'[i].lo)
  }


  /** The i-th record of the list points at its neighbours. */
  ghost predicate LinkedAt(pool: map<nat, OooSegment>, order: seq<nat>, i: int)
    requires 0 <= i < |order|
  {
    && order[i] in pool
    && pool[order[i]].prev == (if i == 0 then INVALID else order[i - 1])
    && pool[order[i]].next == (if i == |order| - 1 then INVALID else order[i + 1])
  }

  ghost predicate Linked(pool: map<nat, OooSegment>, head: int, order: seq<nat>) {
    && NoRepeats(order)
    && (forall x :: x in pool ==> x in order)
    && head == (if order == [] then INVALID else order[0])
    && (forall i :: 0 <= i < |order| ==> LinkedAt(pool, order, i))
  }

  ghost predicate Matches(pool: map<nat, OooSegment>, order: seq<nat>, segs: seq<Interval>) {
    && |order| == |segs|
    && (forall i :: 0 <= i < |order| ==>
          && order[i] in pool
          && pool[order[i]].start == Wrap(segs[i].lo)
          && pool[order[i]].length == segs[i].hi - segs[i].lo)
  }

  /** Canonical lists are determined by the positions they cover. */
  lemma {:induction false} CanonicalUnique(a: seq<Interval>, b: seq<Interval>)
    requires Canonical(a) && Canonical(b)
    requires forall p :: Covers(a, p) <==> Covers(b, p)
    ensures a == b
    decreases |a|
  {
    if b != [] {
      assert Covers(b, b[0].lo);
    }
    if a != [] {
      assert Covers(a, a[0].lo);
      assert b != [];
      SameFirst(a, b);
      forall p ensures Covers(a[1..], p) <==> Covers(b[1..], p) {
        CoversTail(a, p);
        CoversTail(b, p);
      }
      CanonicalUnique(a[1..], b[1..]);
      assert a == [a[0]] + a[1..] && b == [b[0]] + b[1..];
    }
  }

  lemma CoversTail(a: seq<Interval>, p: int)
    requires Canonical(a) && a != []
    ensures Covers(a[1..], p) <==> Covers(a, p) && p >= a[0].hi
  {
    if Covers(a[1..], p) {
      var i :| 0 <= i < |a[1..]| && a[1..][i].lo <= p < a[1..][i].hi;
      assert a[i + 1].lo <= p < a[i + 1].hi;
    }
    if Covers(a, p) && p >= a[0].hi {
      var i :| 0 <= i < |a| && a[i].lo <= p < a[i].hi;
      assert i > 0 && a[1..][i - 1] == a[i];
    }
  }

  lemma SameFirst(a: seq<Interval>, b: seq<Interval>)
    requires Canonical(a) && Canonical(b) && a != [] && b != []
    requires forall p :: Covers(a, p) <==> Covers(b, p)
    ensures a[0] == b[0]
  {
    assert Covers(a, a[0].lo) && Covers(b, b[0].lo);
    assert Covers(a, a[0].hi - 1) && Covers(b, b[0].hi - 1);
    assert !Covers(a, a[0].hi) && !Covers(b, b[0].hi);
  }

  /** An upper bound of a finite set of indices. */
  ghost function Bound(s: set<nat>): (n: nat)
    ensures forall x :: x in s ==> x < n
  {
    if s == {} then 0 else
    var y :| y in s;
    var n := Bound(s - {y});
    assert forall x :: x in s ==> x == y || x in s - {y};
    if y < n then n else y + 1
  }

  /** The pool after the k-th record is bypassed by its neighbours and dropped. */
  ghost function Bypassed(pool: map<nat, OooSegment>, index: nat): map<nat, OooSegment>
    requires index in pool
  {
    map x | x in pool && x != index ::
      var s := pool[x];
      var s := if s.prev == index then s.(prev := pool[index].prev) else s;
      if s.next == index then s.(next := pool[index].next) else s
  }

  ghost function Without<T>(s: seq<T>, k: nat): seq<T>
    requires k < |s|
  {
    s[..k] + s[k + 1..]
  }

  lemma BypassLinkedAt(pool: map<nat, OooSegment>, order: seq<nat>, k: nat, i: nat)
    requires NoRepeats(order) && k < |order| && i < |order| - 1
    requires LinkedAt(pool, order, k) && LinkedAt(pool, order, if i < k then i else i + 1)
    ensures LinkedAt(Bypassed(pool, order[k]), Without(order, k), i)
  {
    var o := Without(order, k);
    var j := if i < k then i else i + 1;
    assert o[i] == order[j] != order[k];
    assert i > 0 ==> o[i - 1] == order[if i - 1 < k then i - 1 else i];
    assert i < |o| - 1 ==> o[i + 1] == order[if i + 1 < k then i + 1 else i + 2];
    assert j > 0 && order[j - 1] == order[k] ==> j - 1 == k;
    assert j < |order| - 1 && order[j + 1] == order[k] ==> j + 1 == k;
  }

  lemma BypassLinked(pool: map<nat, OooSegment>, head: int, order: seq<nat>, k: nat)
    requires Linked(pool, head, order) && k < |order|
    ensures order[k] in pool
    ensures Linked(Bypassed(pool, order[k]), if k == 0 then pool[order[k]].next else head, Without(order, k))
  {
    assert LinkedAt(pool, order, k);
    var p := Bypassed(pool, order[k]);
    var o := Without(order, k);
    forall x | x in p ensures x in o {
      var i :| 0 <= i < |order| && order[i] == x;
      assert o[if i < k then i else i - 1] == x;
    }
    forall i | 0 <= i < |o| ensures LinkedAt(p, o, i) {
      assert LinkedAt(pool, order, if i < k then i else i + 1);
      BypassLinkedAt(pool, order, k, i);
    }
  }

  /** Only the two neighbours of a record point at it. */
  lemma BypassedByNeighbours(pool: map<nat, OooSegment>, head: int, order: seq<nat>, k: nat, x: nat)
    requires Linked(pool, head, order) && k < |order| && x in pool && x != order[k]
    ensures LinkedAt(pool, order, k)
    ensures pool[x].prev == order[k] <==> x == pool[order[k]].next
    ensures pool[x].next == order[k] <==> x == pool[order[k]].prev
  {
    assert LinkedAt(pool, order, k);
    var i :| 0 <= i < |order| && order[i] == x;
    assert LinkedAt(pool, order, i);
  }

  lemma BypassMatches(pool: map<nat, OooSegment>, head: int, order: seq<nat>, segs: seq<Interval>, k: nat)
    requires Linked(pool, head, order) && Matches(pool, order, segs) && k < |order|
    ensures k < |segs| && order[k] in pool
    ensures Matches(Bypassed(pool, order[k]), Without(order, k), Without(segs, k))
  {
    var o, t := Without(order, k), Without(segs, k);
    forall i | 0 <= i < |o|
      ensures o[i] in Bypassed(pool, order[k])
      ensures Bypassed(pool, order[k])[o[i]].start == Wrap(t[i].lo)
      ensures Bypassed(pool, order[k])[o[i]].length == t[i].hi - t[i].lo
    {
      var j := if i < k then i else i + 1;
      assert o[i] == order[j] && t[i] == segs[j];
    }
  }

  predicate Names(pool: map<nat, OooSegment>, x: int) {
    x == INVALID || (x >= 0 && x in pool)
  }

  function SetPrev(pool: map<nat, OooSegment>, x: int, prev: int): map<nat, OooSegment>
    requires Names(pool, x)
  {
    if x == INVALID then pool else pool[x := pool[x].(prev := prev)]
  }

  function SetNext(pool: map<nat, OooSegment>, x: int, next: int): map<nat, OooSegment>
    requires Names(pool, x)
  {
    if x == INVALID then pool else pool[x := pool[x].(next := next)]
  }

  lemma NeighboursNamed(pool: map<nat, OooSegment>, head: int, order: seq<nat>, k: nat)
    requires Linked(pool, head, order) && k < |order|
    ensures order[k] in pool
    ensures Names(pool, pool[order[k]].prev) && Names(pool, pool[order[k]].next)
    ensures pool[order[k]].prev == INVALID <==> k == 0
  {
    assert LinkedAt(pool, order, k);
    if k > 0 { assert LinkedAt(pool, order, k - 1); }
    if k < |order| - 1 { assert LinkedAt(pool, order, k + 1); }
  }

  lemma UnlinkBypasses(pool: map<nat, OooSegment>, head: int, order: seq<nat>, k: nat)
    requires Linked(pool, head, order) && k < |order|
    requires order[k] in pool
    requires Names(pool, pool[order[k]].prev) && Names(pool, pool[order[k]].next)
    ensures var cur := pool[order[k]];
            SetNext(SetPrev(pool, cur.next, cur.prev), cur.prev, cur.next) - {order[k]} == Bypassed(pool, order[k])
  {
    forall x | x in pool && x != order[k]
      ensures pool[x].prev == order[k] <==> x == pool[order[k]].next
      ensures pool[x].next == order[k] <==> x == pool[order[k]].prev
    {
      BypassedByNeighbours(pool, head, order, k, x);
    }
  }

  ghost predicate Represents(pool: map<nat, OooSegment>, head: int, order: seq<nat>, segs: seq<Interval>) {
    Linked(pool, head, order) && Matches(pool, order, segs)
  }

  /** Unlinking the k-th record represents the list without its k-th interval. */
  lemma FreeRepresents(pool: map<nat, OooSegment>, head: int, order: seq<nat>, segs: seq<Interval>, k: nat)
    requires Represents(pool, head, order, segs) && k < |order|
    ensures k < |segs| && order[k] in pool
    ensures var cur := pool[order[k]];
            && Names(pool, cur.next) && Names(pool, cur.prev)
            && Represents(SetNext(SetPrev(pool, cur.next, cur.prev), cur.prev, cur.next) - {order[k]},
                          if cur.prev == INVALID then cur.next else head,
                          Without(order, k), Without(segs, k))
  {
    hide Linked, Matches, Bypassed, Without;
    NeighboursNamed(pool, head, order, k);
    BypassLinked(pool, head, order, k);
    BypassMatches(pool, head, order, segs, k);
    UnlinkBypasses(pool, head, order, k);
  }

  ghost function Inserted<T>(s: seq<T>, k: nat, x: T): seq<T>
    requires k <= |s|
  {
    s[..k] + [x] + s[k..]
  }

  /** The index before and the index at position k of a list. */
  ghost function Before(order: seq<nat>, k: nat): int
    requires k <= |order|
  {
    if k == 0 then INVALID else order[k - 1]
  }

  ghost function At(order: seq<nat>, k: nat): int
    requires k <= |order|
  {
    if k == |order| then INVALID else order[k]
  }

  /** Threading a fresh record between positions k - 1 and k. */
  function Threaded(pool: map<nat, OooSegment>, x: nat, s: OooSegment): map<nat, OooSegment>
    requires Names(pool, s.prev) && Names(pool, s.next)
  {
    SetPrev(SetNext(pool, s.prev, x), s.next, x)[x := s]
  }

  lemma ThreadedLinkedAt(pool: map<nat, OooSegment>, head: int, order: seq<nat>, k: nat, x: nat, s: OooSegment, i: nat)
    requires Linked(pool, head, order) && k <= |order| && x !in pool && i <= |order|
    requires s.prev == Before(order, k) && s.next == At(order, k)
    requires Names(pool, s.prev) && Names(pool, s.next)
    ensures LinkedAt(Threaded(pool, x, s), Inserted(order, k, x), i)
  {
    var o := Inserted(order, k, x);
    if i != k {
      var j := if i < k then i else i - 1;
      assert LinkedAt(pool, order, j);
      assert o[i] == order[j];
      assert j == k - 1 <==> order[j] == s.prev;
      assert j == k <==> order[j] == s.next;
    }
  }

  lemma InsertLinked(pool: map<nat, OooSegment>, head: int, order: seq<nat>, k: nat, x: nat, s: OooSegment)
    requires Linked(pool, head, order) && k <= |order| && x !in pool
    requires s.prev == Before(order, k) && s.next == At(order, k)
    ensures Names(pool, s.prev) && Names(pool, s.next)
    ensures Linked(Threaded(pool, x, s), if k == 0 then x else head, Inserted(order, k, x))
  {
    assert k > 0 ==> LinkedAt(pool, order, k - 1);
    assert k < |order| ==> LinkedAt(pool, order, k);
    var p, o := Threaded(pool, x, s), Inserted(order, k, x);
    forall i | 0 <= i < |o| ensures LinkedAt(p, o, i) {
      ThreadedLinkedAt(pool, head, order, k, x, s, i);
    }
    forall y | y in p ensures y in o {
      if y == x {
        assert o[k] == x;
      } else {
        var i :| 0 <= i < |order| && order[i] == y;
        assert o[if i < k then i else i + 1] == y;
      }
    }
    forall i | 0 <= i < |order| ensures order[i] != x {
      assert LinkedAt(pool, order, i);
    }
  }

  lemma InsertMatches(pool: map<nat, OooSegment>, order: seq<nat>, segs: seq<Interval>, k: nat, x: nat, s: OooSegment, v: Interval)
    requires Matches(pool, order, segs) && k <= |order| && x !in pool
    requires Names(pool, s.prev) && Names(pool, s.next)
    requires s.start == Wrap(v.lo) && s.length == v.hi - v.lo
    ensures k <= |segs|
    ensures Matches(Threaded(pool, x, s), Inserted(order, k, x), Inserted(segs, k, v))
  {
    var o, t := Inserted(order, k, x), Inserted(segs, k, v);
    forall i | 0 <= i < |o| && i != k
      ensures o[i] in pool && pool[o[i]].start == Wrap(t[i].lo) && pool[o[i]].length == t[i].hi - t[i].lo
    {
      var j := if i < k then i else i - 1;
      assert o[i] == order[j] && t[i] == segs[j];
    }
  }

  lemma InsertRepresents(pool: map<nat, OooSegment>, head: int, order: seq<nat>, segs: seq<Interval>,
                         k: nat, x: nat, s: OooSegment, v: Interval)
    requires Represents(pool, head, order, segs) && k <= |order| && x !in pool
    requires s.prev == Before(order, k) && s.next == At(order, k)
    requires s.start == Wrap(v.lo) && s.length == v.hi - v.lo
    ensures k <= |segs| && Names(pool, s.prev) && Names(pool, s.next)
    ensures Represents(Threaded(pool, x, s), if k == 0 then x else head, Inserted(order, k, x), Inserted(segs, k, v))
  {
    hide Linked, Matches, Threaded, Inserted;
    InsertLinked(pool, head, order, k, x, s);
    InsertMatches(pool, order, segs, k, x, s, v);
  }

  /** Changing the bounds of the k-th record in place. */
  lemma ResizeRepresents(pool: map<nat, OooSegment>, head: int, order: seq<nat>, segs: seq<Interval>,
                         k: nat, start: u32, length: u32, v: Interval)
    requires Represents(pool, head, order, segs) && k < |order|
    requires start == Wrap(v.lo) && length == v.hi - v.lo
    ensures k < |segs| && order[k] in pool
    ensures Represents(pool[order[k] := pool[order[k]].(start := start, length := length)], head, order, segs[k := v])
  {
    assert LinkedAt(pool, order, k);
    var p := pool[order[k] := pool[order[k]].(start := start, length := length)];
    forall i | 0 <= i < |order| ensures LinkedAt(p, order, i) {
      assert LinkedAt(pool, order, i);
    }
  }

  lemma RecordAt(pool: map<nat, OooSegment>, head: int, order: seq<nat>, segs: seq<Interval>, k: nat)
    requires Represents(pool, head, order, segs) && k < |order|
    ensures |order| == |segs| && order[k] in pool
    ensures pool[order[k]].start == Wrap(segs[k].lo) && pool[order[k]].length == segs[k].hi - segs[k].lo
    ensures pool[order[k]].prev == Before(order, k) && pool[order[k]].next == At(order, k + 1)
  {
    assert LinkedAt(pool, order, k);
  }

  lemma Lengths(pool: map<nat, OooSegment>, head: int, order: seq<nat>, segs: seq<Interval>)
    requires Represents(pool, head, order, segs)
    ensures |order| == |segs| && head == At(order, 0)
  {
  }

  /** The list in which segs[a..b] is replaced by one interval. */
  ghost function Replaced(segs: seq<Interval>, a: nat, b: nat, v: Interval): seq<Interval>
    requires a <= b <= |segs|
  {
    segs[..a] + [v] + segs[b..]
  }

  /** v is the union of lo..hi with segs[a..b], the intervals that meet or touch it. */
  ghost predicate Absorbs(segs: seq<Interval>, a: nat, b: nat, lo: int, hi: int, v: Interval) {
    && a <= b <= |segs| && lo < hi
    && (forall i :: 0 <= i < a ==> segs[i].hi < lo)
    && (forall i :: b <= i < |segs| ==> hi < segs[i].lo)
    && (a == b ==> v == Interval(lo, hi))
    && (a < b ==>
          && segs[a].hi >= lo && segs[b - 1].lo <= hi
          && v.lo == (if lo < segs[a].lo then lo else segs[a].lo)
          && v.hi == (if hi > segs[b - 1].hi then hi else segs[b - 1].hi))
  }

  lemma ReplacedAt(segs: seq<Interval>, a: nat, b: nat, v: Interval, i: nat)
    requires a <= b <= |segs|
    ensures |Replaced(segs, a, b, v)| == |segs| - b + a + 1
    ensures i < |Replaced(segs, a, b, v)| ==>
              Replaced(segs, a, b, v)[i] == if i < a then segs[i] else if i == a then v else segs[i - a - 1 + b]
  {
  }

  lemma AbsorbOrdered(segs: seq<Interval>, a: nat, b: nat, lo: int, hi: int, v: Interval, i: nat, j: nat)
    requires Canonical(segs) && Absorbs(segs, a, b, lo, hi, v)
    requires i < j < |Replaced(segs, a, b, v)|
    ensures Replaced(segs, a, b, v)[i].hi < Replaced(segs, a, b, v)[j].lo
  {
    hide Replaced;
    ReplacedAt(segs, a, b, v, i);
    ReplacedAt(segs, a, b, v, j);
    if i == a && a < b && j > a {
      assert segs[b - 1].hi < segs[j - a - 1 + b].lo;
    }
    if j == a && a < b && i < a {
      assert segs[i].hi < segs[a].lo;
    }
  }

  lemma AbsorbCanonical(segs: seq<Interval>, a: nat, b: nat, lo: int, hi: int, v: Interval)
    requires Canonical(segs) && Absorbs(segs, a, b, lo, hi, v)
    ensures Canonical(Replaced(segs, a, b, v))
  {
    hide Replaced;
    var t := Replaced(segs, a, b, v);
    forall i | 0 <= i < |t| ensures t[i].lo < t[i].hi {
      ReplacedAt(segs, a, b, v, i);
    }
    forall i, j | 0 <= i < j < |t| ensures t[i].hi < t[j].lo {
      AbsorbOrdered(segs, a, b, lo, hi, v, i, j);
    }
  }

  lemma AbsorbedCovered(segs: seq<Interval>, a: nat, b: nat, lo: int, hi: int, v: Interval, p: int)
    requires Canonical(segs) && Absorbs(segs, a, b, lo, hi, v)
    requires Covers(Replaced(segs, a, b, v), p) && !(lo <= p < hi)
    ensures Covers(segs, p)
  {
    hide Replaced;
    var t := Replaced(segs, a, b, v);
    var i :| 0 <= i < |t| && t[i].lo <= p < t[i].hi;
    ReplacedAt(segs, a, b, v, i);
    if i == a {
      assert p < lo ==> segs[a].lo <= p < segs[a].hi;
      assert p >= hi ==> segs[b - 1].lo <= p < segs[b - 1].hi;
    }
  }

  lemma AbsorbCovers(segs: seq<Interval>, a: nat, b: nat, lo: int, hi: int, v: Interval, p: int)
    requires Canonical(segs) && Absorbs(segs, a, b, lo, hi, v)
    ensures Covers(Replaced(segs, a, b, v), p) <==> Covers(segs, p) || lo <= p < hi
  {
    hide Replaced;
    var t := Replaced(segs, a, b, v);
    if Covers(t, p) && !(lo <= p < hi) {
      AbsorbedCovered(segs, a, b, lo, hi, v, p);
    }
    ReplacedAt(segs, a, b, v, a);
    if lo <= p < hi {
      assert t[a].lo <= p < t[a].hi;
    } else if Covers(segs, p) {
      var i :| 0 <= i < |segs| && segs[i].lo <= p < segs[i].hi;
      var j := if i < a then i else if i < b then a else i - b + 1 + a;
      ReplacedAt(segs, a, b, v, j);
      assert a <= i < b ==> segs[a].lo <= segs[i].lo && segs[i].hi <= segs[b - 1].hi;
      assert t[j].lo <= p < t[j].hi;
    }
  }

  /** The end of a stored segment compares with a stored position as unbounded integers do. */
  lemma EndCompares(s: OooSegment, v: Interval, p: int)
    requires s.start == Wrap(v.lo) && s.length == v.hi - v.lo
    requires -TWO_31 < v.hi - p < TWO_31
    ensures Add(s.start, s.length) == Wrap(v.hi)
    ensures PosLeq(Add(s.start, s.length), Wrap(p)) <==> v.hi <= p
    ensures PosLeq(Wrap(p), Add(s.start, s.length)) <==> p <= v.hi
    ensures PosGt(Wrap(p), Add(s.start, s.length)) <==> p > v.hi
  {
    AddWraps(v.lo, v.hi - v.lo);
    Compare(v.hi, p);
    Compare(p, v.hi);
  }

  lemma WithoutAt<T>(s: seq<T>, k: nat, i: nat)
    requires i < k < |s|
    ensures i < |Without(s, k)| == |s| - 1 && Without(s, k)[i] == s[i]
    ensures k < |s| - 1 ==> Without(s, k)[k] == s[k + 1]
  {
  }

  lemma ReplacedWithout(segs: seq<Interval>, a: nat, b: nat, v: Interval)
    requires a < b < |segs|
    ensures |Replaced(segs, a, b, v)| > a + 1 && Replaced(segs, a, b, v)[a + 1] == segs[b]
    ensures Without(Replaced(segs, a, b, v), a + 1) == Replaced(segs, a, b + 1, v)
  {
  }

  lemma ReplacedUpdate(segs: seq<Interval>, a: nat, b: nat, v: Interval, u: Interval)
    requires a < b <= |segs|
    ensures |Replaced(segs, a, b, v)| > a && Replaced(segs, a, b, v)[a] == v
    ensures Replaced(segs, a, b, v)[a := u] == Replaced(segs, a, b, u)
    ensures segs[a := u] == Replaced(segs, a, a + 1, u)
    ensures segs == Replaced(segs, a, a + 1, segs[a])
  {
  }

  lemma InsertedReplaced(segs: seq<Interval>, k: nat, v: Interval)
    requires k <= |segs|
    ensures Inserted(segs, k, v) == Replaced(segs, k, k, v)
  {
  }

  lemma InsertedHas<T>(s: seq<T>, k: nat, x: T)
    requires k <= |s|
    ensures k < |Inserted(s, k, x)| && Inserted(s, k, x)[k] == x
  {
  }

  /** Starting the a-th interval earlier keeps the list canonical while it stays beyond its predecessor. */
  lemma GrownCanonical(segs: seq<Interval>, a: nat, lo: int)
    requires Canonical(segs) && a < |segs| && lo < segs[a].lo
    requires a > 0 ==> segs[a - 1].hi < lo
    ensures Canonical(segs[a := Interval(lo, segs[a].hi)])
  {
  }

  lemma GrownReplaced(segs: seq<Interval>, a: nat, u: Interval, b: nat, v: Interval)
    requires a < b <= |segs|
    ensures Replaced(segs[a := u], a, b, v) == Replaced(segs, a, b, v)
  {
  }

  lemma AbsorbsIntro(segs: seq<Interval>, a: nat, b: nat, lo: int, hi: int, v: Interval)
    requires Canonical(segs) && a <= b <= |segs| && lo < hi
    requires a > 0 ==> segs[a - 1].hi < lo
    requires b < |segs| ==> hi < segs[b].lo
    requires a == b ==> v == Interval(lo, hi)
    requires a < b ==>
               && segs[a].hi >= lo && segs[b - 1].lo <= hi
               && v.lo == (if lo < segs[a].lo then lo else segs[a].lo)
               && v.hi == (if hi > segs[b - 1].hi then hi else segs[b - 1].hi)
    ensures Absorbs(segs, a, b, lo, hi, v)
  {
  }

  /** Adding lo..hi to the list gives the canonical list of the union. */
  lemma AbsorbUnion(segs: seq<Interval>, a: nat, b: nat, lo: int, hi: int, v: Interval)
    requires Canonical(segs) && Absorbs(segs, a, b, lo, hi, v)
    ensures Canonical(Replaced(segs, a, b, v))
    ensures forall p :: Covers(Replaced(segs, a, b, v), p) <==> Covers(segs, p) || lo <= p < hi
  {
    AbsorbCanonical(segs, a, b, lo, hi, v);
    forall p ensures Covers(Replaced(segs, a, b, v), p) <==> Covers(segs, p) || lo <= p < hi {
      AbsorbCovers(segs, a, b, lo, hi, v, p);
    }
  }

  /** A position of lo..hi is new exactly when the interval that absorbs it differs from segs[a]. */
  lemma AbsorbAddsNew(segs: seq<Interval>, a: nat, b: nat, lo: int, hi: int, v: Interval)
    requires Canonical(segs) && Absorbs(segs, a, b, lo, hi, v)
    ensures (forall p :: lo <= p < hi ==> Covers(segs, p)) <==> a < b && v == segs[a]
  {
    var p := if a == b || lo < segs[a].lo then lo else segs[a].hi;
    assert a < b && v.lo == segs[a].lo ==> v.hi >= segs[a].hi;
    if a < b && v == segs[a] {
      forall p | lo <= p < hi ensures Covers(segs, p) {
        assert segs[a].lo <= p < segs[a].hi;
      }
    } else {
      GapBefore(segs, a, p);
      assert lo <= p < hi && !Covers(segs, p);
    }
  }

  /** Between the end of interval a - 1 and the start of interval a nothing is covered, nor right after a. */
  lemma GapBefore(segs: seq<Interval>, a: nat, p: int)
    requires Canonical(segs) && a <= |segs|
    requires a > 0 ==> segs[a - 1].hi <= p
    requires a < |segs| ==> p < segs[a].lo || p == segs[a].hi
    ensures !Covers(segs, p)
  {
  }

  /** Collecting at position t: the first j intervals end by t, the next one, if it
      starts by t, is consumed up to its end, and the rest starts beyond. */
  lemma CollectCovers(segs: seq<Interval>, j: nat, t: int, u: int)
    requires Canonical(segs) && j <= |segs| && t <= u
    requires forall i :: 0 <= i < j ==> segs[i].hi <= u
    requires j < |segs| ==> u < segs[j].lo
    requires t < u ==> j > 0 && segs[j - 1].lo <= t && segs[j - 1].hi == u
    ensures Canonical(segs[j..])
    ensures forall p :: t <= p < u ==> Covers(segs, p)
    ensures !Covers(segs, u)
    ensures forall p :: u <= p ==> (Covers(segs[j..], p) <==> Covers(segs, p))
    ensures forall i :: 0 <= i < |segs[j..]| ==> u < segs[j..][i].lo
  {
    var r := segs[j..];
    forall p | t <= p < u ensures Covers(segs, p) {
      assert segs[j - 1].lo <= p < segs[j - 1].hi;
    }
    forall p | u <= p ensures Covers(r, p) <==> Covers(segs, p) {
      if Covers(r, p) {
        var i :| 0 <= i < |r| && r[i].lo <= p < r[i].hi;
        assert segs[i + j] == r[i];
      }
      if Covers(segs, p) {
        var i :| 0 <= i < |segs| && segs[i].lo <= p < segs[i].hi;
        assert r[i - j] == segs[i];
      }
    }
  }

  ghost function From<T>(s: seq<T>, j: nat): seq<T>
    requires j <= |s|
  {
    s[j..]
  }

  lemma FromAll<T>(s: seq<T>)
    ensures From(s, 0) == s
  {
  }

  lemma FromStep<T>(s: seq<T>, j: nat)
    requires j < |s|
    ensures |From(s, j)| == |s| - j > 0 && From(s, j)[0] == s[j]
    ensures Without(From(s, j), 0) == From(s, j + 1) && |From(s, j + 1)| == |s| - j - 1
    ensures j + 1 < |s| ==> From(s, j)[1] == From(s, j + 1)[0] == s[j + 1]
  {
  }

  lemma NextBeyond(segs: seq<Interval>, j: nat)
    requires Canonical(segs) && j < |segs|
    ensures segs[j].lo < segs[j].hi
    ensures j + 1 < |segs| ==> segs[j].hi < segs[j + 1].lo
  {
  }

  class OooList {
    var pool: map<nat, OooSegment>
    var listHead: int
    var newest: int
    ghost var order: seq<nat>
    ghost var segs: seq<Interval>

    /** The records form the doubly linked list order and hold the intervals segs. */
    ghost predicate Shaped()
      reads this
    {
      Represents(pool, listHead, order, segs)
    }

    ghost predicate Valid()
      reads this
    {
      Shaped() && Canonical(segs)
    }

    /** The newest segment is on the list and contains lo..hi. */
    ghost predicate NewestHolds(lo: int, hi: int)
      reads this
    {
      exists k :: 0 <= k < |order| == |segs| && order[k] == newest && segs[k].lo <= lo && hi <= segs[k].hi
    }

    constructor ()
      ensures Valid() && segs == [] && newest == INVALID
    {
      pool, listHead, newest := map[], INVALID, INVALID;
      order, segs := [], [];
    }

    method ResetNewest()
      requires Valid()
      modifies this`newest
      ensures Valid() && newest == INVALID
    {
      newest := INVALID;
    }

    lemma Empty()
      requires Valid()
      ensures Canonical(segs) && (listHead == INVALID <==> segs == []) && (order == [] <==> segs == [])
    {
    }

    /** pool_get: any index not in use. */
    method PoolGet() returns (i: nat)
      ensures i !in pool
    {
      assert Bound(pool.Keys) !in pool;
      i :| i !in pool;
    }

    /** ooo_segment_free: unlinks the k-th segment and returns it to the pool. */
    method Free(index: nat, ghost k: nat)
      requires Shaped() && k < |order| && index == order[k]
      modifies this`pool, this`listHead, this`order, this`segs
      ensures Shaped()
      ensures order == Without(old(order), k)
      ensures k < old(|segs|) && segs == Without(old(segs), k)
    {
      hide Represents, Without;
      FreeRepresents(pool, listHead, order, segs, k);
      var cur := pool[index];
      pool := SetPrev(pool, cur.next, cur.prev);
      pool := SetNext(pool, cur.prev, cur.next);
      if cur.prev == INVALID {
        listHead := cur.next;
      }
      pool := pool - {index};
      order := Without(order, k);
      segs := Without(segs, k);
    }

    /** The first segment that starts at or after pos, or the last segment. */
    method FindFirstAfter(pos: u32, ghost p: int, ghost w: int) returns (s: nat, ghost k: nat)
      requires Valid() && order != [] && pos == Wrap(p)
      requires Within(segs, w, w + TWO_31 - 1) && w <= p < w + TWO_31
      ensures k < |order| == |segs| && s == order[k]
      ensures forall i :: 0 <= i < k ==> segs[i].lo < p
      ensures k < |order| - 1 ==> p <= segs[k].lo
    {
      hide Represents;
      Lengths(pool, listHead, order, segs);
      RecordAt(pool, listHead, order, segs, 0);
      s, k := listHead, 0;
      while pool[s].next != INVALID && PosLt(pool[s].start, pos)
        invariant k < |order| && s == order[k] && s in pool
        invariant pool[s].start == Wrap(segs[k].lo) && pool[s].next == At(order, k + 1)
        invariant forall i :: 0 <= i < k ==> segs[i].lo < p
        decreases |order| - k
      {
        Compare(segs[k].lo, p);
        RecordAt(pool, listHead, order, segs, k + 1);
        s, k := pool[s].next, k + 1;
      }
      Compare(segs[k].lo, p);
    }

    /** Links a new segment between positions k - 1 and k of the list. */
    method InsertAt(start: u32, length: u32, prev: int, next: int, ghost k: nat, ghost v: Interval) returns (x: nat)
      requires Shaped() && k <= |order| && prev == Before(order, k) && next == At(order, k)
      requires start == Wrap(v.lo) && length == v.hi - v.lo
      modifies this
      ensures Shaped() && newest == x
      ensures order == Inserted(old(order), k, x)
      ensures k <= old(|segs|) && segs == Inserted(old(segs), k, v)
    {
      hide Represents, Inserted;
      x := PoolGet();
      InsertRepresents(pool, listHead, order, segs, k, x, OooSegment(next, prev, start, length), v);
      pool := SetNext(pool, prev, x);
      pool := SetPrev(pool, next, x);
      pool := pool[x := OooSegment(next, prev, start, length)];
      if prev == INVALID {
        listHead := x;
      }
      order := Inserted(order, k, x);
      segs := Inserted(segs, k, v);
      newest := x;
    }

    method Resize(s: nat, start: u32, length: u32, ghost k: nat, ghost v: Interval)
      requires Shaped() && k < |order| && s == order[k]
      requires start == Wrap(v.lo) && length == v.hi - v.lo
      modifies this`pool, this`segs
      ensures Shaped() && k < old(|segs|) && segs == old(segs)[k := v]
    {
      hide Represents;
      ResizeRepresents(pool, listHead, order, segs, k, start, length, v);
      pool := pool[s := pool[s].(start := start, length := length)];
      segs := segs[k := v];
    }

    /** Drops the segments after the k-th one that end by position e. */
    method DropOverlapped(s: nat, end: u32, ghost k: nat, ghost e: int, ghost w: int,
                          ghost segs0: seq<Interval>, ghost v: Interval)
      returns (it: int, ghost b: nat)
      requires Shaped() && k < |order| && s == order[k] && end == Wrap(e) && w <= e < w + TWO_31
      requires Canonical(segs0) && Within(segs0, w, w + TWO_31 - 1)
      requires k < |segs0| && segs == Replaced(segs0, k, k + 1, v)
      modifies this`pool, this`listHead, this`order, this`segs
      ensures Shaped() && k < b <= |segs0|
      ensures segs == Replaced(segs0, k, b, v) && k < |order| && order[k] == s
      ensures it == At(order, k + 1) && |order| == |segs|
      ensures forall i :: k < i < b ==> segs0[i].hi <= e
      ensures b < |segs0| ==> e < segs0[b].hi
    {
      hide Represents, Replaced, Without, PosLeq, Add, Wrap, Canonical;
      Lengths(pool, listHead, order, segs);
      RecordAt(pool, listHead, order, segs, k);
      it := pool[s].next;
      b := k + 1;
      ReplacedAt(segs0, k, b, v, k + 1);
      if it != INVALID {
        RecordAt(pool, listHead, order, segs, k + 1);
      }
      while it != INVALID && PosLeq(Add(pool[it].start, pool[it].length), end)
        invariant Shaped() && k < b <= |segs0| && segs == Replaced(segs0, k, b, v)
        invariant k < |order| == |segs| == |segs0| - b + k + 1 && order[k] == s && it == At(order, k + 1)
        invariant it == INVALID || (it >= 0 && it in pool)
        invariant forall i :: k < i < b ==> segs0[i].hi <= e
        decreases |segs0| - b
      {
        RecordAt(pool, listHead, order, segs, k + 1);
        ReplacedWithout(segs0, k, b, v);
        EndCompares(pool[it], segs0[b], e);
        var next := pool[it].next;
        ghost var order0 := order;
        Free(it, k + 1);
        WithoutAt(order0, k + 1, k);
        it := next;
        b := b + 1;
        Lengths(pool, listHead, order, segs);
        ReplacedAt(segs0, k, b, v, k + 1);
        if it != INVALID {
          RecordAt(pool, listHead, order, segs, k + 1);
        }
      }
      if it != INVALID {
        RecordAt(pool, listHead, order, segs, k + 1);
        ReplacedWithout(segs0, k, b, v);
        EndCompares(pool[it], segs0[b], e);
      }
    }

    /** The tail of the merge: grows the k-th segment to position e, absorbing what it reaches. */
    method ExtendTail(s: nat, end: u32, ghost k: nat, ghost e: int, ghost w: int) returns (ghost b: nat)
      requires Valid() && k < |order| && s == order[k] && end == Wrap(e) && w <= e < w + TWO_31
      requires k < |segs| && segs[k].hi < e && Within(segs, w, w + TWO_31 - 1)
      modifies this
      ensures Shaped() && newest == s && k < |order| && order[k] == s
      ensures k < b <= old(|segs|)
      ensures segs == Replaced(old(segs), k, b,
                Interval(old(segs)[k].lo, if e > old(segs)[b - 1].hi then e else old(segs)[b - 1].hi))
      ensures old(segs)[b - 1].lo <= e && (b < old(|segs|) ==> e < old(segs)[b].lo)
    {
      hide Represents, Replaced, Without, PosLeq, Add, Wrap, Sub;
      ghost var segs0 := segs;
      ghost var v := Interval(segs[k].lo, e);
      RecordAt(pool, listHead, order, segs, k);
      ReplacedUpdate(segs0, k, k + 1, v, v);
      SubWraps(segs0[k].lo, e);
      Resize(s, pool[s].start, Sub(end, pool[s].start), k, v);
      var it;
      it, b := DropOverlapped(s, end, k, e, w, segs0, v);
      ReplacedAt(segs0, k, b, v, k + 1);
      if it != INVALID {
        RecordAt(pool, listHead, order, segs, k);
        RecordAt(pool, listHead, order, segs, k + 1);
        ReplacedWithout(segs0, k, b, v);
        Compare(segs0[b].lo, e);
        if PosLeq(pool[it].start, end) {
          ghost var u := Interval(v.lo, segs0[b].hi);
          ReplacedUpdate(segs0, k, b, v, u);
          ReplacedWithout(segs0, k, b, u);
          EndCompares(pool[it], segs0[b], e);
          SubWraps(v.lo, segs0[b].hi);
          ghost var order0 := order;
          Resize(s, pool[s].start, Sub(Add(pool[it].start, pool[it].length), pool[s].start), k, u);
          Free(it, k + 1);
          WithoutAt(order0, k + 1, k);
          b := b + 1;
        }
      }
      newest := s;
    }

    /** Merges lo..hi into the k-th segment, which it meets or touches. */
    method MergeInto(s: nat, pos: u32, end: u32, ghost k: nat, ghost lo: int, ghost hi: int, ghost w: int)
      returns (ghost b: nat, ghost v: Interval)
      requires Valid() && k < |order| && s == order[k] && pos == Wrap(lo) && end == Wrap(hi)
      requires w <= lo < hi < w + TWO_31 && Within(segs, w, w + TWO_31 - 1)
      requires k < |segs| && lo <= segs[k].hi && segs[k].lo <= hi && (k > 0 ==> segs[k - 1].hi < lo)
      requires newest == INVALID
      modifies this
      ensures Shaped() && Absorbs(old(segs), k, b, lo, hi, v) && segs == Replaced(old(segs), k, b, v)
      ensures k < b && k < |order| && order[k] == s
      ensures newest == if v == old(segs)[k] then INVALID else s
    {
      hide Represents, Replaced, PosLt, Add, Wrap, Sub, Absorbs;
      ghost var segs0 := segs;
      RecordAt(pool, listHead, order, segs, k);
      Compare(lo, segs[k].lo);
      if PosLt(pos, pool[s].start) {
        EndCompares(pool[s], segs[k], lo);
        SubWraps(lo, segs[k].hi);
        GrownCanonical(segs, k, lo);
        Resize(s, pos, Sub(Add(pool[s].start, pool[s].length), pos), k, Interval(lo, segs[k].hi));
        newest := s;
        b, v := CheckTail(s, end, k, hi, w);
        GrownReplaced(segs0, k, Interval(lo, segs0[k].hi), b, v);
      } else {
        b, v := CheckTail(s, end, k, hi, w);
      }
      AbsorbsIntro(segs0, k, b, lo, hi, v);
    }

    /** ooo_segment_add when no earlier segment reaches lo: links a new segment or merges into the k-th. */
    method AddAt(s: nat, pos: u32, end: u32, length: u32, ghost k: nat, ghost lo: int, ghost hi: int, ghost w: int)
      returns (ghost a: nat, ghost b: nat, ghost v: Interval)
      requires Valid() && k < |order| && s == order[k] && pos == Wrap(lo) && end == Wrap(hi) && length == hi - lo
      requires w <= lo < hi < w + TWO_31 && Within(segs, w, w + TWO_31 - 1)
      requires |segs| == |order| && (k > 0 ==> segs[k - 1].hi < lo) && (k < |segs| - 1 ==> lo <= segs[k].lo)
      requires newest == INVALID
      modifies this
      ensures Shaped() && Absorbs(old(segs), a, b, lo, hi, v) && segs == Replaced(old(segs), a, b, v)
      ensures a < |order| && newest == (if a < b && v == old(segs)[a] then INVALID else order[a])
    {
      hide Represents, Replaced, Inserted, PosLt, PosGt, Add, Wrap, Absorbs;
      RecordAt(pool, listHead, order, segs, k);
      EndCompares(pool[s], segs[k], lo);
      Compare(hi, segs[k].lo);
      if PosLt(end, pool[s].start) {
        a, b, v := k, k, Interval(lo, hi);
        AbsorbsIntro(segs, a, b, lo, hi, v);
        InsertedReplaced(segs, a, v);
        var x := InsertAt(pos, length, pool[s].prev, s, a, v);
        InsertedHas(old(order), a, x);
      } else if PosGt(pos, Add(pool[s].start, pool[s].length)) {
        assert pool[s].next == INVALID;
        a, b, v := k + 1, k + 1, Interval(lo, hi);
        AbsorbsIntro(segs, a, b, lo, hi, v);
        InsertedReplaced(segs, a, v);
        var x := InsertAt(pos, length, s, INVALID, a, v);
        InsertedHas(old(order), a, x);
      } else {
        a := k;
        b, v := MergeInto(s, pos, end, k, lo, hi, w);
      }
    }

    /** ooo_segment_add once a first segment exists. */
    method AddToList(pos: u32, end: u32, length: u32, ghost lo: int, ghost hi: int, ghost w: int)
      returns (ghost a: nat, ghost b: nat, ghost v: Interval)
      requires Valid() && order != [] && pos == Wrap(lo) && end == Wrap(hi) && length == hi - lo
      requires w <= lo < hi < w + TWO_31 && Within(segs, w, w + TWO_31 - 1)
      requires newest == INVALID
      modifies this
      ensures Shaped() && Absorbs(old(segs), a, b, lo, hi, v) && segs == Replaced(old(segs), a, b, v)
      ensures a < |order| && newest == (if a < b && v == old(segs)[a] then INVALID else order[a])
    {
      hide Represents, Replaced, PosLeq, Add, Wrap, Absorbs;
      var s;
      ghost var k;
      s, k := FindFirstAfter(pos, lo, w);
      RecordAt(pool, listHead, order, segs, k);
      var prev := pool[s].prev;
      if prev != INVALID {
        RecordAt(pool, listHead, order, segs, k - 1);
        EndCompares(pool[prev], segs[k - 1], lo);
      }
      if prev != INVALID && PosLeq(pos, Add(pool[prev].start, pool[prev].length)) {
        a := k - 1;
        ghost var segs0 := segs;
        b, v := CheckTail(prev, end, a, hi, w);
        AbsorbsIntro(segs0, a, b, lo, hi, v);
      } else {
        a, b, v := AddAt(s, pos, end, length, k, lo, hi, w);
      }
    }

    method CheckTail(s: nat, end: u32, ghost k: nat, ghost e: int, ghost w: int) returns (ghost b: nat, ghost v: Interval)
      requires Valid() && k < |order| && s == order[k] && end == Wrap(e) && w <= e < w + TWO_31
      requires k < |segs| && Within(segs, w, w + TWO_31 - 1)
      requires segs[k].lo < e
      modifies this
      ensures Shaped() && k < |order| && order[k] == s && k < b <= old(|segs|)
      ensures newest == if e > old(segs)[k].hi then s else old(newest)
      ensures v == Interval(old(segs)[k].lo, if e > old(segs)[b - 1].hi then e else old(segs)[b - 1].hi)
      ensures segs == Replaced(old(segs), k, b, v)
      ensures old(segs)[b - 1].lo <= e && (b < old(|segs|) ==> e < old(segs)[b].lo)
    {
      hide Represents, Replaced, PosGt, Add, Wrap;
      RecordAt(pool, listHead, order, segs, k);
      EndCompares(pool[s], segs[k], e);
      if PosGt(end, Add(pool[s].start, pool[s].length)) {
        b := ExtendTail(s, end, k, e, w);
        v := Interval(old(segs)[k].lo, if e > old(segs)[b - 1].hi then e else old(segs)[b - 1].hi);
      } else {
        b, v := k + 1, segs[k];
        ReplacedUpdate(segs, k, k + 1, v, v);
      }
    }

    /** ooo_segment_add: records that offset..offset + length beyond the tail is written. */
    method AddSegment(offset: u32, tail: u32, length: u32, ghost t: int)
      requires Valid() && tail == Wrap(t) && length > 0 && offset + length < TWO_31
      requires Within(segs, t, t + TWO_31 - 1)
      modifies this
      ensures Valid() && Added(old(segs), segs, t + offset, t + offset + length)
      ensures newest == INVALID <==> forall p :: t + offset <= p < t + offset + length ==> old(Covers(segs, p))
      ensures newest == INVALID || NewestHolds(t + offset, t + offset + length)
    {
      hide Represents, Replaced, Inserted, Add, Wrap;
      ghost var segs0 := segs;
      ghost var lo, hi := t + offset, t + offset + length;
      AddWraps(t, offset);
      AddWraps(t, offset + length);
      Lengths(pool, listHead, order, segs);
      newest := INVALID;
      ghost var a, b, v;
      if listHead == INVALID {
        a, b, v := 0, 0, Interval(lo, hi);
        AbsorbsIntro(segs, a, b, lo, hi, v);
        InsertedReplaced(segs, a, v);
        var x := InsertAt(Add(tail, offset), length, INVALID, INVALID, 0, v);
        InsertedHas([], 0, x);
      } else {
        a, b, v := AddToList(Add(tail, offset), Add(tail, offset + length), length, lo, hi, t);
      }
      AbsorbUnion(segs0, a, b, lo, hi, v);
      AbsorbAddsNew(segs0, a, b, lo, hi, v);
      Lengths(pool, listHead, order, segs);
      ReplacedAt(segs0, a, b, v, a);
    }

    /** The loop of ooo_segment_try_collect: drops the first j segments. */
    method DropReached(n: u32, tail: u32, ghost t: int) returns (bytes: u32, tail': u32, ghost t': int, ghost j: nat)
      requires Valid() && order != [] && tail == Wrap(t) && 0 < n < TWO_31
      requires Within(segs, t - n + 1, t - n + TWO_31)
      modifies this`pool, this`listHead, this`order, this`segs
      ensures Shaped() && j <= old(|segs|) && segs == From(old(segs), j)
      ensures t <= t' && tail' == Wrap(t') && bytes == t' - t
      ensures forall i :: 0 <= i < j ==> old(segs)[i].hi <= t'
      ensures j < old(|segs|) ==> t' < old(segs)[j].lo
      ensures t < t' ==> j > 0 && old(segs)[j - 1].lo <= t && old(segs)[j - 1].hi == t'
    {
      hide Represents, Without, Wrap, Sub, Add, Signed, Canonical, From;
      ghost var segs0 := segs;
      bytes, tail', t', j := 0, tail, t, 0;
      Lengths(pool, listHead, order, segs);
      RecordAt(pool, listHead, order, segs, 0);
      FromStep(segs0, 0);
      FromAll(segs0);
      var s := listHead;
      var diff := Sub(tail', pool[s].start);
      while 0 <= Signed(diff) && diff < n
        invariant Shaped() && j < |segs0| && segs == From(segs0, j) && |order| == |segs| == |segs0| - j
        invariant s >= 0 && s == order[0] && s in pool
        invariant pool[s].start == Wrap(segs0[j].lo) && diff == Sub(tail', pool[s].start)
        invariant bytes == 0 && t' == t && tail' == tail
        invariant forall i :: 0 <= i < j ==> segs0[i].hi <= t
        decreases |segs0| - j
      {
        RecordAt(pool, listHead, order, segs, 0);
        NextBeyond(segs0, j);
        SignedSub(t, segs0[j].lo, n);
        FromStep(segs0, j);
        FromStep(order, 0);
        FromAll(order);
        var index := s;
        if pool[s].length > diff {
          bytes := pool[s].length - diff;
          tail' := Add(tail', bytes);
          t' := segs0[j].hi;
          AddWraps(t, bytes);
          Free(index, 0);
          j := j + 1;
          return;
        }
        if pool[s].next != INVALID {
          s := pool[s].next;
          RecordAt(pool, listHead, order, segs, 1);
          diff := Sub(tail', pool[s].start);
          Free(index, 0);
          j := j + 1;
          Lengths(pool, listHead, order, segs);
          FromStep(segs0, j);
          RecordAt(pool, listHead, order, segs, 0);
        } else {
          Free(index, 0);
          j := j + 1;
          return;
        }
      }
      NextBeyond(segs0, j);
      SignedSub(t, segs0[j].lo, n);
    }

    /** ooo_segment_try_collect: the tail has advanced by n to t; removes the segments it
        has reached and moves it on to the first position that is not written. */
    method TryCollect(n: u32, tail: u32, ghost t: int) returns (bytes: u32, tail': u32, ghost t': int)
      requires Valid() && order != [] && tail == Wrap(t) && 0 <= n < TWO_31
      requires Within(segs, t - n + 1, t - n + TWO_31)
      modifies this`pool, this`listHead, this`order, this`segs
      ensures Valid() && Collected(old(segs), segs, t, t')
      ensures tail' == Wrap(t') && bytes == t' - t
    {
      hide Represents, Wrap, Sub, Signed, Covers;
      ghost var segs0 := segs;
      Lengths(pool, listHead, order, segs);
      RecordAt(pool, listHead, order, segs, 0);
      var s := listHead;
      SignedSub(t, segs[0].lo, n);
      if Sub(tail, pool[s].start) > n {
        bytes, tail', t' := 0, tail, t;
        CollectCovers(segs0, 0, t, t);
        assert segs0[0..] == segs0;
        return;
      }
      ghost var j;
      bytes, tail', t', j := DropReached(n, tail, t);
      CollectCovers(segs0, j, t, t');
    }
  }
}
