/** What a fifo is for: pieces of a byte stream may arrive in any order, overlap and repeat,
    and the reader gets the stream. */
module Reassembly {
  import opened Position
  import opened Chunks
  import opened ChunkTree
  import opened SegmentState
  import opened FifoState
  import opened FifoViews
  import opened Fifos

  /** n bytes of a stream from position p on. */
  ghost function Slice(s: int -> u8, p: int, n: nat): (r: seq<u8>)
    ensures |r| == n
  {
    seq(n, k requires 0 <= k < n => s(p + k))
  }

  /** Whatever the log records is what the stream has at that position. */
  ghost predicate Agrees(log: Log, s: int -> u8) {
    forall p :: p in log ==> log[p] == s(p)
  }

  lemma AgreesWritten(log: Log, s: int -> u8, p: int, src: seq<u8>)
    requires Agrees(log, s) && src == Slice(s, p, |src|)
    ensures Agrees(Overlay(log, p, src), s)
  {
  }

  lemma AgreesRead(log: Log, s: int -> u8, p: int, n: nat)
    requires Agrees(log, s) && Recorded(log, p, n)
    ensures Bytes(log, p, n) == Slice(s, p, n)
  {
  }

  lemma SliceAppend(s: int -> u8, p: int, m: nat, n: nat)
    ensures Slice(s, p, m) + Slice(s, p + m, n) == Slice(s, p, m + n)
  {
  }

  lemma SlicePart(s: int -> u8, p: int, n: nat, a: nat, b: nat)
    requires a <= b <= n
    ensures Slice(s, p, n)[a..b] == Slice(s, p + a, b - a)
  {
  }

  lemma SlicePrefix(s: int -> u8, p: int, n: nat, b: nat)
    requires b <= n
    ensures Slice(s, p, n)[..b] == Slice(s, p, b)
  {
  }

  /** A piece of the stream arrives, or the reader asks for bytes. */
  datatype Event = Arrives(p: nat, src: seq<u8>) | Reads(len: nat)

  ghost predicate FromStream(e: Event, s: int -> u8) {
    e.Arrives? ==> e.src == Slice(s, e.p, |e.src|)
  }

  /** A piece is stored: each of its positions is before the tail or in the log. */
  ghost predicate Stored(log: Log, tl: int, p: int, n: nat) {
    forall x :: p <= x < p + n ==> x < tl || x in log
  }

  /** What is stored stays so while bytes are written and the tail moves on. */
  lemma StoredStill(log: Log, tl: int, p: int, n: nat, q: int, src: seq<u8>, tl': int)
    requires Stored(log, tl, p, n) && tl <= tl'
    ensures Stored(Overlay(log, q, src), tl', p, n)
  {
  }

  lemma StoredWritten(log: Log, tl: int, p: int, src: seq<u8>)
    ensures Stored(Overlay(log, p, src), tl, p, |src|)
  {
  }

  lemma StoredBefore(log: Log, tl: int, p: int, n: nat)
    requires p + n <= tl
    ensures Stored(log, tl, p, n)
  {
  }

  /** No stored piece has the position of the tail. */
  lemma StoredApart(log: Log, tl: int, p: int, n: nat)
    requires Stored(log, tl, p, n) && tl !in log
    ensures !(p <= tl < p + n)
  {
  }

  /** Every piece that was accepted is stored. */
  ghost predicate AllStored(log: Log, tl: int, events: seq<Event>, accepted: seq<bool>) {
    |accepted| <= |events| && forall i :: 0 <= i < |accepted| ==> StoredAt(log, tl, events[i], accepted[i])
  }

  ghost predicate StoredAt(log: Log, tl: int, e: Event, ok: bool) {
    e.Arrives? && ok ==> Stored(log, tl, e.p, |e.src|)
  }

  lemma AllStoredStill(log: Log, tl: int, events: seq<Event>, accepted: seq<bool>, q: int, src: seq<u8>, tl': int)
    requires AllStored(log, tl, events, accepted) && tl <= tl'
    ensures AllStored(Overlay(log, q, src), tl', events, accepted)
  {
    hide Stored, Overlay;
    forall i | 0 <= i < |accepted| && events[i].Arrives? && accepted[i]
      ensures Stored(Overlay(log, q, src), tl', events[i].p, |events[i].src|)
    {
      assert StoredAt(log, tl, events[i], accepted[i]);
      StoredStill(log, tl, events[i].p, |events[i].src|, q, src, tl');
    }
  }

  lemma AllStoredOne(log: Log, tl: int, events: seq<Event>, accepted: seq<bool>, ok: bool)
    requires AllStored(log, tl, events, accepted) && |accepted| < |events| && StoredAt(log, tl, events[|accepted|], ok)
    ensures AllStored(log, tl, events, accepted + [ok])
  {
    hide StoredAt;
  }

  /** The tail is at the first gap: no accepted piece has its position. */
  ghost predicate AtGap(tl: int, events: seq<Event>, accepted: seq<bool>) {
    |accepted| == |events| && forall i :: 0 <= i < |events| ==> Past(tl, events[i], accepted[i])
  }

  ghost predicate Past(tl: int, e: Event, ok: bool) {
    e.Arrives? && ok ==> !(e.p <= tl < e.p + |e.src|)
  }

  lemma AllStoredGap(log: Log, tl: int, events: seq<Event>, accepted: seq<bool>)
    requires AllStored(log, tl, events, accepted) && |accepted| == |events| && tl !in log
    ensures AtGap(tl, events, accepted)
  {
    hide Stored;
    forall i | 0 <= i < |events| && events[i].Arrives? && accepted[i]
      ensures !(events[i].p <= tl < events[i].p + |events[i].src|)
    {
      assert StoredAt(log, tl, events[i], accepted[i]);
      StoredApart(log, tl, events[i].p, |events[i].src|);
    }
  }

  /** What arrived is written inside the piece's own positions. */
  ghost predicate Inside(at: int, wrote: seq<u8>, p: int, n: nat) {
    wrote == [] || (p <= at && at + |wrote| <= p + n)
  }

  lemma InsideIs(at: int, wrote: seq<u8>, p: int, n: nat)
    requires wrote == [] || (p <= at && at + |wrote| <= p + n)
    ensures Inside(at, wrote, p, n)
  {
  }

  /** What the arrival of src at position p does. What is old is nothing new; what is ahead is written
      as a whole or not at all; of what is next, as much as the fifo takes is written at the tail,
      and the tail moves to the first position that is not written. */
  ghost predicate Arrived(m: Moment, m': Moment, slice: nat, size: nat, p: int, src: seq<u8>, ok: bool) {
    var v, v' := m.v, m'.v;
    && |v.pos| == |v.chain| + 1 && v'.hd == v.hd
    && if src == [] || p + |src| <= v.tl then
         ok && v'.tl == v.tl && v'.log == v.log
       else if p > v.tl then
         && (ok <==> !Refused(m.left, slice, size, v, p + |src| - v.tl))
         && v'.tl == v.tl && v'.log == if ok then Overlay(v.log, p, src) else v.log
       else
         var rest := src[v.tl - p..];
         var n := Taken(m, slice, size, |rest|);
         && 0 <= n <= |rest| && (ok <==> n == |rest|) && (ok <==> !Refused(m.left, slice, size, v, |rest|))
         && Extended(v, rest[..n], v')
  }

  /** What an event does to the fifo. */
  ghost predicate Happened(m: Moment, m': Moment, slice: nat, size: nat, e: Event, ok: bool) {
    match e
    case Arrives(p, src) => Arrived(m, m', slice, size, p, src, ok)
    case Reads(len) => m'.v.tl == m.v.tl && m'.v.log == m.v.log && m'.v.hd == m.v.hd + Least(len, m.v.tl - m.v.hd)
  }

  lemma ArrivedOld(v: View, left: Supply, left': Supply, slice: nat, size: nat, p: int, src: seq<u8>)
    requires |v.pos| == |v.chain| + 1 && (src == [] || p + |src| <= v.tl)
    ensures Arrived(Moment(v, left), Moment(v, left'), slice, size, p, src, true)
  {
  }

  lemma ArrivedAhead(v: View, left: Supply, v': View, left': Supply, slice: nat, size: nat, p: int, src: seq<u8>, ok: bool)
    requires |v.pos| == |v.chain| + 1 && v.tl < p && src != [] && v'.hd == v.hd && v'.tl == v.tl
    requires ok <==> !Refused(left, slice, size, v, p + |src| - v.tl)
    requires v'.log == if ok then Overlay(v.log, p, src) else v.log
    ensures Arrived(Moment(v, left), Moment(v', left'), slice, size, p, src, ok)
  {
    hide Refused, Overlay;
  }

  lemma ArrivedNext(v: View, left: Supply, v': View, left': Supply, slice: nat, size: nat, p: int, src: seq<u8>, rest: seq<u8>, n: nat, ok: bool)
    requires |v.pos| == |v.chain| + 1 && p <= v.tl < p + |src| && rest == src[v.tl - p..] && v'.hd == v.hd
    requires n == Taken(Moment(v, left), slice, size, |rest|) && n <= |rest|
    requires (ok <==> n == |rest|) && (ok <==> !Refused(left, slice, size, v, |rest|))
    requires Extended(v, rest[..n], v')
    ensures Arrived(Moment(v, left), Moment(v', left'), slice, size, p, src, ok)
  {
    hide Refused, Overlay, Taken;
  }

  /** A receiver that knows the next position it expects: what is old is cut off, what is next
      is enqueued, and what is ahead is enqueued with an offset. */
  method Arrive(f: Fifo, next: nat, p: nat, src: seq<u8>, ghost s: int -> u8)
    returns (next': nat, ok: bool, ghost at: int, ghost wrote: seq<u8>)
    requires f.Valid() && next == f.v.tl && src == Slice(s, p, |src|) && Agrees(f.v.log, s)
    modifies f, f.seg, f.ooo
    ensures f.Valid() && next' == f.v.tl >= next && f.v.hd == old(f.v.hd) && Agrees(f.v.log, s) && f.deq == old(f.deq)
    ensures f.v.log == Overlay(old(f.v.log), at, wrote) && Inside(at, wrote, p, |src|)
    ensures ok ==> Stored(f.v.log, f.v.tl, p, |src|)
    ensures ok <==> src == [] || p + |src| <= next || !Refused(old(f.seg.Left()), f.slice, f.size, old(f.v), p + |src| - next)
    ensures Arrived(Moment(old(f.v), old(f.seg.Left())), Moment(f.v, f.seg.Left()), f.slice, f.size, p, src, ok)
  {
    hide *;
    next', ok, at, wrote := next, true, next, [];
    OverlayNone(f.v.log, next);
    InsideIs(at, wrote, p, |src|);
    f.Open();
    Facts(f.seg.mem, f.v, f.shr, f.enq, f.size, f.ooo.segs);
    if p + |src| <= next {
      StoredBefore(f.v.log, f.v.tl, p, |src|);
      ArrivedOld(f.v, f.seg.Left(), f.seg.Left(), f.slice, f.size, p, src);
    } else if src == [] {
      StoredNone(f.v.log, f.v.tl, p);
      ArrivedOld(f.v, f.seg.Left(), f.seg.Left(), f.slice, f.size, p, src);
    } else if p <= next {
      next', ok, at, wrote := TakeNext(f, next, src[next - p..], p, src, s);
    } else {
      ok, at, wrote := TakeAhead(f, next, p, src, s);
    }
  }

  /** A piece that is ahead is written there. */
  method TakeAhead(f: Fifo, next: nat, p: nat, src: seq<u8>, ghost s: int -> u8) returns (ok: bool, ghost at: int, ghost wrote: seq<u8>)
    requires f.Valid() && next == f.v.tl < p && src == Slice(s, p, |src|) && src != [] && Agrees(f.v.log, s)
    modifies f, f.seg, f.ooo
    ensures f.Valid() && f.v.tl == next && f.v.hd == old(f.v.hd) && Agrees(f.v.log, s) && f.deq == old(f.deq)
    ensures f.v.log == Overlay(old(f.v.log), at, wrote) && Inside(at, wrote, p, |src|) && (!ok ==> wrote == [] && f.v.log == old(f.v.log))
    ensures ok ==> Stored(f.v.log, f.v.tl, p, |src|)
    ensures ok <==> !Refused(old(f.seg.Left()), f.slice, f.size, old(f.v), p + |src| - next)
    ensures Arrived(Moment(old(f.v), old(f.seg.Left())), Moment(f.v, f.seg.Left()), f.slice, f.size, p, src, ok)
  {
    hide *;
    ok, at, wrote := false, next, [];
    OverlayNone(f.v.log, next);
    InsideIs(at, wrote, p, |src|);
    f.Open();
    Facts(f.seg.mem, f.v, f.shr, f.enq, f.size, f.ooo.segs);
    ghost var v0, left := f.v, f.seg.Left();
    var m := p - next + |src|;
    RefusedIs(left, f.slice, f.size, v0, m);
    SmallSizes();
    if m > f.size - Sub(f.shr.tail, f.shr.head) {
      ArrivedAhead(v0, left, f.v, f.seg.Left(), f.slice, f.size, p, src, ok);
      return;
    }
    var safe := f.GrowsEnough(m);
    if !safe {
      ArrivedAhead(v0, left, f.v, f.seg.Left(), f.slice, f.size, p, src, ok);
      return;
    }
    Errors();
    var r := f.EnqueueWithOffset(p - next, src);
    ok := r == 0;
    if ok {
      at, wrote := p, src;
      InsideIs(at, wrote, p, |src|);
      AgreesWritten(v0.log, s, p, src);
      StoredWritten(v0.log, f.v.tl, p, src);
    }
    ArrivedAhead(v0, left, f.v, f.seg.Left(), f.slice, f.size, p, src, ok);
  }

  /** The part of a piece that is next is enqueued. */
  method TakeNext(f: Fifo, next: nat, rest: seq<u8>, ghost p: nat, ghost src: seq<u8>, ghost s: int -> u8)
    returns (next': nat, ok: bool, ghost at: int, ghost wrote: seq<u8>)
    requires f.Valid() && next == f.v.tl && src == Slice(s, p, |src|) && Agrees(f.v.log, s)
    requires p <= next < p + |src| && rest == src[next - p..]
    modifies f, f.seg, f.ooo
    ensures f.Valid() && next' == f.v.tl >= next && f.v.hd == old(f.v.hd) && Agrees(f.v.log, s) && f.deq == old(f.deq)
    ensures f.v.log == Overlay(old(f.v.log), at, wrote) && Inside(at, wrote, p, |src|)
    ensures ok ==> Stored(f.v.log, f.v.tl, p, |src|)
    ensures ok <==> !Refused(old(f.seg.Left()), f.slice, f.size, old(f.v), p + |src| - next)
    ensures Arrived(Moment(old(f.v), old(f.seg.Left())), Moment(f.v, f.seg.Left()), f.slice, f.size, p, src, ok)
  {
    hide *;
    next', ok, at, wrote := next, false, next, [];
    OverlayNone(f.v.log, next);
    InsideIs(at, wrote, p, |src|);
    f.Open();
    Facts(f.seg.mem, f.v, f.shr, f.enq, f.size, f.ooo.segs);
    ghost var v0, segs0, left := f.v, f.ooo.segs, f.seg.Left();
    ghost var mem0, shr0, enq0 := f.seg.mem, f.shr, f.enq;
    SlicePart(s, p, |src|, next - p, |src|);
    var room := f.size - Sub(f.shr.tail, f.shr.head);
    LeastIs(|rest|, room);
    var safe := f.GrowsEnough(Least(|rest|, room));
    if !safe {
      RefusedUnsafe(left, f.slice, f.size, v0, |rest|);
      TakenIs(v0, left, f.slice, f.size, |rest|, 0);
      TailOpen(f.seg.mem, f.v, f.shr, f.enq, f.size, f.ooo.segs);
      ExtendedNone(v0);
      assert rest[..0] == [];
      ArrivedNext(v0, left, f.v, f.seg.Left(), f.slice, f.size, p, src, rest, 0, ok);
      return;
    }
    Errors();
    var r; ghost var n;
    r, n := f.Enqueue(rest);
    f.Open();
    Facts(f.seg.mem, f.v, f.shr, f.enq, f.size, f.ooo.segs);
    OutcomeExtends(mem0, shr0, enq0, f.seg.mem, f.shr, f.enq, v0, segs0, left, f.slice, f.size, rest, r, n, f.v, f.ooo.segs);
    OutcomeHas(v0, segs0, left, f.slice, f.size, rest, r, n, f.v, f.ooo.segs);
    RefusedPart(left, f.slice, f.size, v0, |rest|, n);
    TakenIs(v0, left, f.slice, f.size, |rest|, n);
    if r >= 0 {
      next', at, wrote := next + r, next, rest[..n];
      InsideIs(at, wrote, p, |src|);
      SlicePrefix(s, next, |rest|, n);
      AgreesWritten(v0.log, s, next, wrote);
      ok := r >= |rest|;
      if ok {
        StoredBefore(f.v.log, f.v.tl, p, |src|);
      }
    } else {
      FullTakes(v0, Least(|rest|, room), n, left, f.slice, f.size, room);
    }
    ArrivedNext(v0, left, f.v, f.seg.Left(), f.slice, f.size, p, src, rest, n, ok);
  }

  lemma StoredNone(log: Log, tl: int, p: int)
    ensures Stored(log, tl, p, 0)
  {
  }

  /** The reader takes up to len bytes: by a peek and a drop, or by a dequeue. */
  method Take(f: Fifo, len: nat, peek: bool) returns (dst: seq<u8>)
    requires f.Valid() && (!peek ==> f.deq.tree == Nil)
    modifies f, f.seg
    ensures f.Valid() && (!peek ==> f.deq.tree == Nil) && f.v.tl == old(f.v.tl) && f.v.log == old(f.v.log)
    ensures f.v.hd == old(f.v.hd) + |dst| && |dst| == Least(len, old(f.v.tl - f.v.hd))
    ensures dst == Bytes(old(f.v.log), old(f.v.hd), |dst|) && Recorded(old(f.v.log), old(f.v.hd), |dst|)
  {
    hide *;
    Errors();
    f.Open();
    Facts(f.seg.mem, f.v, f.shr, f.enq, f.size, f.ooo.segs);
    LeastIs(len, f.v.tl - f.v.hd);
    ghost var k;
    var r;
    ReadReady(f.seg.mem, f.v, f.shr, f.enq, f.size, f.ooo.segs, f.v.hd, Least(len, f.v.tl - f.v.hd));
    NoBytes(f.v.log, f.v.hd);
    if Sub(f.shr.tail, f.shr.head) == 0 {
      dst := [];
    } else if peek {
      OffsetFits(0, f.size);
      r, dst := f.Peek(0, len);
      LeastIs(r, f.v.tl - f.v.hd);
      r, k := f.DequeueDrop(r);
    } else {
      r, dst, k := f.Dequeue(len);
    }
  }

  lemma NoBytes(log: Log, p: int)
    ensures Bytes(log, p, 0) == []
  {
  }

  /** One of the first n events brought position x. */
  ghost predicate Came(events: seq<Event>, n: nat, x: int) {
    exists j: nat :: j < n <= |events| && Brings(events[j], x)
  }

  ghost predicate Brings(e: Event, x: int) {
    e.Arrives? && e.p <= x < e.p + |e.src|
  }

  /** Whatever is in the log was there at first or came with one of the first n events. */
  ghost predicate Sourced(log0: Log, log: Log, events: seq<Event>, n: nat) {
    forall x :: x in log ==> x in log0 || Came(events, n, x)
  }

  lemma SourcedNone(log: Log, events: seq<Event>)
    ensures Sourced(log, log, events, 0)
  {
  }

  lemma CameStill(events: seq<Event>, n: nat, x: int)
    requires Came(events, n, x) && n < |events|
    ensures Came(events, n + 1, x)
  {
  }

  lemma SourcedStill(log0: Log, log: Log, events: seq<Event>, n: nat)
    requires Sourced(log0, log, events, n) && n < |events|
    ensures Sourced(log0, log, events, n + 1)
  {
    hide Came;
    forall x | x in log && x !in log0 ensures Came(events, n + 1, x) {
      CameStill(events, n, x);
    }
  }

  lemma SourcedMore(log0: Log, log: Log, events: seq<Event>, n: nat, at: int, wrote: seq<u8>)
    requires Sourced(log0, log, events, n) && n < |events| && events[n].Arrives? && Inside(at, wrote, events[n].p, |events[n].src|)
    ensures Sourced(log0, Overlay(log, at, wrote), events, n + 1)
  {
    SourcedStill(log0, log, events, n);
    forall x | x in Overlay(log, at, wrote) && x !in log ensures Came(events, n + 1, x) {
      assert Brings(events[n], x);
    }
  }

  /** The positions from lo to hi were in the first log or came with an event. */
  ghost predicate AllCame(log0: Log, events: seq<Event>, lo: int, hi: int) {
    forall x :: lo <= x < hi ==> x in log0 || Came(events, |events|, x)
  }

  /** From one tail to the next everything has been written. */
  ghost predicate Filled(log: Log, lo: int, hi: int) {
    forall x :: lo <= x < hi ==> x in log
  }

  lemma FilledIs(log: Log, lo: int, hd: int, tl: int, at: int, wrote: seq<u8>, tl': int)
    requires Filled(log, lo, tl) && Recorded(Overlay(log, at, wrote), hd, tl' - hd) && hd <= tl
    ensures Filled(Overlay(log, at, wrote), lo, tl')
  {
  }

  lemma FilledNone(log: Log, lo: int)
    ensures Filled(log, lo, lo)
  {
  }

  lemma AllCameIs(log0: Log, log: Log, events: seq<Event>, lo: int, hi: int)
    requires Sourced(log0, log, events, |events|) && Filled(log, lo, hi)
    ensures AllCame(log0, events, lo, hi)
  {
    hide Came;
  }

  /** Every run of arrivals and reads: the reader has got the stream from the head's first
      position on, without gaps or repetitions, and the fifo holds what follows. The tail is at
      a position that no accepted piece has, and everything before it came with some piece. */
  method Receive(f: Fifo, next0: nat, events: seq<Event>, peek: bool, ghost s: int -> u8)
    returns (got: seq<u8>, accepted: seq<bool>, ghost hist: seq<Moment>)
    requires f.Valid() && next0 == f.v.tl && (!peek ==> f.deq.tree == Nil) && Agrees(f.v.log, s)
    requires forall i :: 0 <= i < |events| ==> FromStream(events[i], s)
    modifies f, f.seg, f.ooo
    ensures f.Valid() && f.v.hd == old(f.v.hd) + |got| && got == Slice(s, old(f.v.hd), |got|)
    ensures f.v.tl >= f.v.hd && Bytes(f.v.log, f.v.hd, f.v.tl - f.v.hd) == Slice(s, f.v.hd, f.v.tl - f.v.hd)
    ensures AtGap(f.v.tl, events, accepted) && AllCame(old(f.v.log), events, next0, f.v.tl)
    ensures |accepted| == |events| && History(hist, events, accepted, f.slice, f.size)
    ensures |hist| == |events| + 1 && hist[0] == Moment(old(f.v), old(f.seg.Left())) && hist[|events|] == Moment(f.v, f.seg.Left())
  {
    hide *;
    ghost var hd0, log0 := f.v.hd, f.v.log;
    SliceNone(s, hd0);
    SourcedNone(log0, events);
    FilledNone(log0, next0);
    NoneStored(f.v.log, f.v.tl, events);
    got, accepted, hist := [], [], [Moment(f.v, f.seg.Left())];
    HistoryNone(hist[0], events, f.slice, f.size);
    var next := next0;
    for i := 0 to |events|
      invariant f.Valid() && next == f.v.tl && (!peek ==> f.deq.tree == Nil) && Agrees(f.v.log, s)
      invariant f.v.hd == hd0 + |got| && got == Slice(s, hd0, |got|)
      invariant |accepted| == i && AllStored(f.v.log, f.v.tl, events, accepted)
      invariant Sourced(log0, f.v.log, events, i) && Filled(f.v.log, next0, f.v.tl)
      invariant |hist| == i + 1 && hist[0] == Moment(old(f.v), old(f.seg.Left())) && hist[i] == Moment(f.v, f.seg.Left())
      invariant History(hist, events, accepted, f.slice, f.size)
    {
      ghost var log, hd, tl := f.v.log, f.v.hd, f.v.tl;
      var ok := true;
      match events[i] {
      case Arrives(p, src) =>
        FromStreamIs(p, src, s);
        ghost var at, wrote;
        f.Open();
        Facts(f.seg.mem, f.v, f.shr, f.enq, f.size, f.ooo.segs);
        next, ok, at, wrote := Arrive(f, next, p, src, s);
        HappenedIs(hist[i], Moment(f.v, f.seg.Left()), f.slice, f.size, events[i], ok);
        SourcedMore(log0, log, events, i, at, wrote);
        f.Open();
        Facts(f.seg.mem, f.v, f.shr, f.enq, f.size, f.ooo.segs);
        TailOpen(f.seg.mem, f.v, f.shr, f.enq, f.size, f.ooo.segs);
        FilledIs(log, next0, hd, tl, at, wrote, f.v.tl);
        AllStoredStill(log, tl, events, accepted, at, wrote, f.v.tl);
      case Reads(len) =>
        var dst := Take(f, len, peek);
        HappenedIs(hist[i], Moment(f.v, f.seg.Left()), f.slice, f.size, events[i], ok);
        SourcedStill(log0, log, events, i);
        AgreesRead(log, s, hd, |dst|);
        SliceAppend(s, hd0, |got|, |dst|);
        got := got + dst;
      }
      StoredAtIs(f.v.log, f.v.tl, events[i], ok);
      AllStoredOne(f.v.log, f.v.tl, events, accepted, ok);
      HistoryMore(hist, events, accepted, f.slice, f.size, Moment(f.v, f.seg.Left()), ok);
      accepted, hist := accepted + [ok], hist + [Moment(f.v, f.seg.Left())];
    }
    f.Open();
    Facts(f.seg.mem, f.v, f.shr, f.enq, f.size, f.ooo.segs);
    TailOpen(f.seg.mem, f.v, f.shr, f.enq, f.size, f.ooo.segs);
    AgreesRead(f.v.log, s, f.v.hd, f.v.tl - f.v.hd);
    AllStoredGap(f.v.log, f.v.tl, events, accepted);
    AllCameIs(log0, f.v.log, events, next0, f.v.tl);
  }

  /** From moment to moment one event after the other has happened. */
  ghost predicate History(hist: seq<Moment>, events: seq<Event>, accepted: seq<bool>, slice: nat, size: nat) {
    && |hist| == |accepted| + 1 && |accepted| <= |events|
    && forall i :: 0 <= i < |accepted| ==> Happened(hist[i], hist[i + 1], slice, size, events[i], accepted[i])
  }

  lemma HistoryNone(m: Moment, events: seq<Event>, slice: nat, size: nat)
    ensures History([m], events, [], slice, size)
  {
  }

  lemma HistoryMore(hist: seq<Moment>, events: seq<Event>, accepted: seq<bool>, slice: nat, size: nat, m: Moment, ok: bool)
    requires History(hist, events, accepted, slice, size) && |accepted| < |events|
    requires Happened(hist[|accepted|], m, slice, size, events[|accepted|], ok)
    ensures History(hist + [m], events, accepted + [ok], slice, size)
  {
    hide Happened;
  }

  lemma HappenedIs(m: Moment, m': Moment, slice: nat, size: nat, e: Event, ok: bool)
    requires e.Arrives? ==> Arrived(m, m', slice, size, e.p, e.src, ok)
    requires e.Reads? ==> m'.v.tl == m.v.tl && m'.v.log == m.v.log && m'.v.hd == m.v.hd + Least(e.len, m.v.tl - m.v.hd)
    ensures Happened(m, m', slice, size, e, ok)
  {
    hide Arrived;
  }

  lemma NoneStored(log: Log, tl: int, events: seq<Event>)
    ensures AllStored(log, tl, events, [])
  {
  }

  lemma StoredAtIs(log: Log, tl: int, e: Event, ok: bool)
    requires e.Arrives? && ok ==> Stored(log, tl, e.p, |e.src|)
    ensures StoredAt(log, tl, e, ok)
  {
  }

  lemma SliceNone(s: int -> u8, p: int)
    ensures Slice(s, p, 0) == []
  {
  }

  lemma FromStreamIs(p: nat, src: seq<u8>, s: int -> u8)
    requires FromStream(Arrives(p, src), s)
    ensures src == Slice(s, p, |src|)
  {
  }

  /** A peek at an offset returns what remains to be read first once the offset is dropped, and
      the pieces of svm_fifo_segments hold the same bytes. */
  method PeekIsDropAndPeek(f: Fifo, offset: nat, len: nat, maxPieces: nat) returns (ahead: seq<u8>, now: seq<u8>, pieces: seq<Piece>, n: nat)
    requires f.Valid() && 0 < offset < f.v.tl - f.v.hd
    modifies f, f.seg
    ensures f.Valid() && f.v.hd == old(f.v.hd) + offset && f.v.log == old(f.v.log)
    ensures |ahead| == Least(len, old(f.v.tl - f.v.hd) - offset) && ahead == Bytes(old(f.v.log), old(f.v.hd) + offset, |ahead|)
    ensures ahead == now && n <= |ahead| && PiecesAre(f.seg.mem, pieces, ahead[..n])
    ensures (n < |ahead| ==> |pieces| >= maxPieces) && (maxPieces > 0 ==> |pieces| <= maxPieces)
    ensures PiecesFor(f.v, pieces, f.v.hd, n, |ahead|, maxPieces)
  {
    hide *;
    Errors();
    f.Open();
    Facts(f.seg.mem, f.v, f.shr, f.enq, f.size, f.ooo.segs);
    ghost var log, p := f.v.log, f.v.hd + offset;
    OffsetFits(offset, f.size);
    LeastIs(len, f.v.tl - f.v.hd - offset);
    LeastIs(offset, f.v.tl - f.v.hd);
    var r;
    r, ahead := f.Peek(offset, len);
    var d; ghost var k;
    d, k := f.DequeueDrop(offset);
    f.Open();
    Facts(f.seg.mem, f.v, f.shr, f.enq, f.size, f.ooo.segs);
    r, now := f.Peek(0, len);
    var m;
    m, pieces := f.SegmentsAt(0, maxPieces, len);
    n := m;
    PrefixBytes(log, p, m, |ahead|);
  }

  lemma OffsetFits(offset: nat, size: nat)
    requires offset < size <= MAX_FIFO
    ensures offset < TWO_32 && 0 < TWO_32
  {
  }

  lemma PrefixBytes(log: Log, p: int, m: nat, n: nat)
    requires m <= n
    ensures Bytes(log, p, n)[..m] == Bytes(log, p, m)
  {
  }
}
