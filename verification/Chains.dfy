/** How a fifo's chain of chunks grows at its end and loses chunks at its start, and what
    that keeps of the stored bytes and of the lookup trees. */
module Chains {
  import opened Sequences
  import opened Position
  import opened Chunks
  import opened ChunkTree
  import opened ChunkIndex
  import opened FreeLists

  lemma Suffix(chain: seq<Sptr>, pos: seq<int>, k: nat)
    requires NoRepeats(chain) && Ascending(pos) && k < |chain| == |pos| - 1
    ensures NoRepeats(chain[k..]) && Ascending(pos[k..])
  {
    var c, q := chain[k..], pos[k..];
    forall i, j | 0 <= i < j < |c| ensures c[i] != c[j] {
      assert c[i] == chain[i + k] && c[j] == chain[j + k];
    }
    forall i, j | 0 <= i < j < |q| ensures q[i] < q[j] {
      assert q[i] == pos[i + k] && q[j] == pos[j + k];
    }
  }

  lemma UnlinkedAt(mem: Memory, chain: seq<Sptr>, pos: seq<int>, k: nat, i: nat)
    requires Chain(mem, chain, pos) && 0 < k < |chain| && i < |chain| - k && chain[k - 1] in mem
    ensures ChunkAt(mem[chain[k - 1] := mem[chain[k - 1]].(next := NULL)], chain[k..], pos[k..], i)
  {
    hide Ascending;
    ChainAt(mem, chain, pos, i + k);
    assert chain[k..][i] == chain[i + k] && pos[k..][i] == pos[i + k] && pos[k..][i + 1] == pos[i + k + 1];
    assert i + k + 1 < |chain| ==> chain[k..][i + 1] == chain[i + k + 1];
  }

  /** Cutting the link into the k-th chunk leaves the chain from there on. */
  lemma Unlinked(mem: Memory, chain: seq<Sptr>, pos: seq<int>, k: nat)
    requires Chain(mem, chain, pos) && 0 < k < |chain|
    ensures chain[k - 1] in mem
    ensures Chain(mem[chain[k - 1] := mem[chain[k - 1]].(next := NULL)], chain[k..], pos[k..])
  {
    ChainAt(mem, chain, pos, k - 1);
    hide NoRepeats, ChunkAt;
    Suffix(chain, pos, k);
    var m := mem[chain[k - 1] := mem[chain[k - 1]].(next := NULL)];
    forall i: nat | i < |chain[k..]| ensures ChunkAt(m, chain[k..], pos[k..], i) {
      UnlinkedAt(mem, chain, pos, k, i);
    }
    assert pos[0] <= pos[k] && pos[k..][|chain| - k] == pos[|chain|];
  }

  lemma UnlinkedHolds(mem: Memory, chain: seq<Sptr>, pos: seq<int>, log: Log, k: nat)
    requires Chain(mem, chain, pos) && Holds(mem, chain, pos, log) && 0 < k < |chain|
    ensures chain[k - 1] in mem
    ensures Holds(mem[chain[k - 1] := mem[chain[k - 1]].(next := NULL)], chain[k..], pos[k..], log)
  {
    hide Chain;
    ChainAt(mem, chain, pos, k - 1);
    var m := mem[chain[k - 1] := mem[chain[k - 1]].(next := NULL)];
    forall i: nat | i < |chain| - k ensures HoldsAt(m, chain[k..], pos[k..], log, i) {
      assert HoldsAt(mem, chain, pos, log, i + k);
    }
  }

  /** The scan for a position at or beyond the k-th chunk does not depend on the chunks before it. */
  lemma UnlinkedFor(mem: Memory, chain: seq<Sptr>, pos: seq<int>, m: Memory, k: nat, p: int)
    requires Chain(mem, chain, pos) && k < |chain| && Chain(m, chain[k..], pos[k..]) && pos[k] <= p
    ensures pos[0] <= p && ChunkFor(chain[k..], pos[k..], p) == ChunkFor(chain, pos, p)
  {
    hide Chain, ChunkFor;
    ChainAt(mem, chain, pos, k);
    ChainAscending(mem, chain, pos);
    var i := if p < pos[|chain|] then Find(pos, p) else |chain|;
    if i < |chain| {
      NotBefore(mem, chain, pos, i, k, p);
    }
    assert pos[k..][i - k] == pos[i];
    if i < |chain| { assert pos[k..][i - k + 1] == pos[i + 1]; }
    ChunkForIs(mem, chain, pos, i, p);
    ChunkForIs(m, chain[k..], pos[k..], i - k, p);
  }

  lemma UnlinkedFlags(mem: Memory, m: Memory, chain: seq<Sptr>, enq: bool, a: nat, b: nat, k: nat)
    requires Flags(mem, chain, enq, a, b) && k <= |chain| && k <= a
    requires forall x :: x in mem ==> x in m && Flag(m[x], enq) == Flag(mem[x], enq)
    ensures a <= b ==> Flags(m, chain[k..], enq, a - k, b - k)
  {
    if a <= b {
      forall i: nat | i < |chain| - k ensures chain[k..][i] in m && (Flag(m[chain[k..][i]], enq) <==> a - k <= i < b - k) {
        assert chain[k..][i] == chain[i + k];
      }
    }
  }

  lemma UnlinkedInRun(chain: seq<Sptr>, pos: seq<int>, a: nat, b: nat, k: nat, key: u32, c: Sptr)
    requires k <= a <= b <= |chain| < |pos|
    ensures InRun(chain[k..], pos[k..], a - k, b - k, key, c) <==> InRun(chain, pos, a, b, key, c)
  {
    if InRun(chain, pos, a, b, key, c) {
      var i: nat :| a <= i < b && key == Wrap(pos[i]) && c == chain[i];
      assert pos[k..][i - k] == pos[i] && chain[k..][i - k] == chain[i];
    }
    if InRun(chain[k..], pos[k..], a - k, b - k, key, c) {
      var i: nat :| a - k <= i < b - k && key == Wrap(pos[k..][i]) && c == chain[k..][i];
      assert pos[k..][i] == pos[i + k] && chain[k..][i] == chain[i + k];
    }
  }

  /** A tree over a run from the k-th chunk on is a tree over the chain from there on. */
  lemma UnlinkedTree(mem: Memory, t: Tree, chain: seq<Sptr>, pos: seq<int>, a: nat, b: nat, k: nat)
    requires Chain(mem, chain, pos) && k <= a <= b <= |chain| && k < |chain| && TreeIs(t, chain, pos, a, b)
    ensures TreeIs(t, chain[k..], pos[k..], a - k, b - k)
  {
    hide Chain;
    ChainAt(mem, chain, pos, k);
    forall key, c | Has(t, key, c) ensures pos[k] <= Unwrap(pos[0], key) {
      var i: nat :| a <= i < b && key == Wrap(pos[i]) && c == chain[i];
      ChainAt(mem, chain, pos, i);
      KeyOf(pos, i);
      if k < i { AscendingAt(mem, chain, pos, k, i); }
    }
    Narrow(t, pos[0], pos[0], pos[0] + TWO_31, pos[k]);
    Rebase(t, pos[0], pos[k], pos[k], pos[0] + TWO_31);
    Widen(t, pos[k], pos[k], pos[0] + TWO_31, pos[k], pos[k] + TWO_31);
    forall key, c ensures Has(t, key, c) <==> InRun(chain[k..], pos[k..], a - k, b - k, key, c) {
      UnlinkedInRun(chain, pos, a, b, k, key, c);
    }
  }

  /** An index of a run from the k-th chunk on, or of no chunk, is one for the chain from there on. */
  lemma UnlinkedIndex(mem: Memory, m: Memory, t: Tree, chain: seq<Sptr>, pos: seq<int>, enq: bool, a: nat, b: nat, k: nat)
    requires Chain(mem, chain, pos) && Index(mem, t, chain, pos, enq, a, b) && k < |chain| && (a < b ==> k <= a)
    requires forall x :: x in mem ==> x in m && Flag(m[x], enq) == Flag(mem[x], enq)
    ensures a < b ==> Index(m, t, chain[k..], pos[k..], enq, a - k, b - k)
    ensures a == b ==> Index(m, t, chain[k..], pos[k..], enq, 0, 0)
  {
    hide Chain, TreeIs, Flags;
    ChainAscending(mem, chain, pos);
    if a == b {
      EmptyIndexMoves(mem, t, chain, pos, enq, a, b, k);
      UnlinkedTree(mem, t, chain, pos, k, k, k);
      UnlinkedFlags(mem, m, chain, enq, k, k, k);
    } else {
      UnlinkedTree(mem, t, chain, pos, a, b, k);
      UnlinkedFlags(mem, m, chain, enq, a, b, k);
    }
  }

  /** The loop of f_unlink_chunks: walks from the start chunk to the chunk that holds position
      e or to the last one, and takes what it passes out of the dequeue tree. */
  method UnlinkWalk(mem0: Memory, t0: Tree, start: Sptr, endPos: u32, maybeOoo: bool,
                    ghost chain: seq<Sptr>, ghost pos: seq<int>, ghost b: nat, ghost e: int)
    returns (mem: Memory, t: Tree, prev: Sptr, c: Sptr, ghost a: nat, ghost k: nat)
    requires Chain(mem0, chain, pos) && start == chain[0] && pos[1] <= e <= pos[|chain|] && endPos == Wrap(e)
    requires maybeOoo ==> Index(mem0, t0, chain, pos, false, 0, b)
    ensures Chain(mem, chain, pos) && OnlyFlags(mem0, mem, chain, false)
    ensures k < |chain| && c == chain[k] && pos[k] <= e <= pos[k + 1] && (e == pos[k + 1] ==> k == |chain| - 1)
    ensures prev == if k == 0 then NULL else chain[k - 1]
    ensures maybeOoo ==> Index(mem, t, chain, pos, false, a, b) && (a < b ==> a == k)
    ensures (!maybeOoo ==> mem == mem0 && t == t0) && (t0 == Nil ==> t == Nil)
  {
    hide Chain, Index, OnlyFlags, IncludesPos;
    ChainAscending(mem0, chain, pos);
    OnlyFlagsRefl(mem0, chain, false);
    mem, t, prev, c, a, k := mem0, t0, NULL, start, 0, 0;
    if maybeOoo { IndexBounds(mem, t, chain, pos, false, a, b); }
    while true
      invariant k < |chain| && c == chain[k] && pos[k + 1] <= e && prev == if k == 0 then NULL else chain[k - 1]
      invariant Chain(mem, chain, pos) && OnlyFlags(mem0, mem, chain, false)
      invariant maybeOoo ==> Index(mem, t, chain, pos, false, a, b) && a <= b <= |chain| && (a < b ==> a == k)
      invariant (!maybeOoo ==> mem == mem0 && t == t0) && (t0 == Nil ==> t == Nil)
      decreases |chain| - k
    {
      ChainAt(mem, chain, pos, k);
      if maybeOoo {
        FlagAt(mem, t, chain, pos, false, a, b, k);
        if mem[c].deq {
          Left(mem0, mem, t, chain, pos, false, a, b);
          t := Delete(t, mem[c].start);
          mem := mem[c := mem[c].(deq := false)];
          a := a + 1;
          ChainAt(mem, chain, pos, k);
        }
      }
      if mem[c].next == NULL {
        NextIsNull(mem, chain, pos, k);
        return;
      }
      prev := c;
      c := mem[c].next;
      k := k + 1;
      ChainAt(mem, chain, pos, k);
      Includes(mem, chain, pos, k, e);
      if IncludesPos(mem[c], endPos) {
        return;
      }
    }
  }

  lemma AscendingAt(mem: Memory, chain: seq<Sptr>, pos: seq<int>, i: nat, j: nat)
    requires Chain(mem, chain, pos) && i < j <= |chain|
    ensures pos[i] < pos[j]
  {
  }

  /** Where each chunk of a list starts when the list is laid out from position p on, and where it ends. */
  ghost function Layout(mem: Memory, got: seq<Sptr>, p: int): (q: seq<int>)
    requires forall x :: x in got ==> x in mem
    ensures |q| == |got| + 1 && q[0] == p
    decreases |got|
  {
    if got == [] then [p] else [p] + Layout(mem, got[1..], p + mem[got[0]].length)
  }

  lemma {:induction false} LayoutStep(mem: Memory, got: seq<Sptr>, p: int, i: nat)
    requires (forall x :: x in got ==> x in mem) && i < |got|
    ensures Layout(mem, got, p)[i + 1] == Layout(mem, got, p)[i] + mem[got[i]].length
    decreases |got|
  {
    if i > 0 {
      LayoutStep(mem, got[1..], p + mem[got[0]].length, i - 1);
    }
  }

  lemma {:induction false} LayoutTotal(mem: Memory, got: seq<Sptr>, p: int)
    requires forall x :: x in got ==> x in mem
    ensures Layout(mem, got, p)[|got|] == p + TotalLength(mem, got)
    decreases |got|
  {
    if got != [] {
      LayoutTotal(mem, got[1..], p + mem[got[0]].length);
    }
  }

  lemma {:induction false} LayoutFrame(mem: Memory, m: Memory, got: seq<Sptr>, p: int)
    requires forall x :: x in got ==> x in mem && x in m && m[x].length == mem[x].length
    ensures Layout(m, got, p) == Layout(mem, got, p)
    decreases |got|
  {
    if got != [] {
      LayoutFrame(mem, m, got[1..], p + mem[got[0]].length);
    }
  }

  /** mem differs from mem0 only in start position and flags of the given chunks. */
  ghost predicate OnlyStart(mem0: Memory, mem: Memory, s: seq<Sptr>) {
    && mem.Keys == mem0.Keys
    && (forall x :: x in mem ==> mem[x].(start := 0, enq := false, deq := false) == mem0[x].(start := 0, enq := false, deq := false))
    && (forall x :: x in mem && x !in s ==> mem[x] == mem0[x])
  }

  ghost predicate LaidOutAt(mem: Memory, got: seq<Sptr>, q: seq<int>, i: nat)
    requires i < |got| <= |q|
  {
    got[i] in mem && mem[got[i]].start == Wrap(q[i]) && !mem[got[i]].enq && !mem[got[i]].deq
  }

  lemma LayOne(mem0: Memory, mem: Memory, got: seq<Sptr>, q: seq<int>, k: nat, start: u32)
    requires OnlyStart(mem0, mem, got) && k < |got| < |q| && NoRepeats(got) && got[k] in mem && start == Wrap(q[k])
    requires forall i: nat :: i < k ==> LaidOutAt(mem, got, q, i)
    ensures var m := mem[got[k] := mem[got[k]].(start := start, enq := false, deq := false)];
            OnlyStart(mem0, m, got) && forall i: nat :: i < k + 1 ==> LaidOutAt(m, got, q, i)
  {
    var m := mem[got[k] := mem[got[k]].(start := start, enq := false, deq := false)];
    forall i: nat | i < k + 1 ensures LaidOutAt(m, got, q, i) {
      if i < k {
        assert LaidOutAt(mem, got, q, i);
      }
    }
  }

  /** The chunks of a list have the positions they get when laid out from p on. */
  ghost predicate LaidOut(mem0: Memory, mem: Memory, got: seq<Sptr>, p: int) {
    && OnlyStart(mem0, mem, got) && (forall x :: x in got ==> x in mem0)
    && (forall i: nat :: i < |got| ==> LaidOutAt(mem, got, Layout(mem0, got, p), i))
  }

  /** The loop of svm_fifo_init and f_try_chunk_alloc: numbers the chunks of a list from
      position p on and takes them out of any lookup tree. */
  method LayOut(mem0: Memory, first: Sptr, start: u32, ghost got: seq<Sptr>, ghost p: int) returns (mem: Memory, last: Sptr)
    requires ListOk(mem0, first, got) && got != [] && start == Wrap(p)
    ensures LaidOut(mem0, mem, got, p)
    ensures last == got[|got| - 1]
  {
    hide ListOk, OnlyStart, LaidOutAt, Layout, NoRepeats;
    ListFacts(mem0, first, got);
    ghost var q := Layout(mem0, got, p);
    mem, last := mem0, first;
    OnlyStartRefl(mem0, got);
    var cur, at := first, start;
    ghost var k := 0;
    ListLink(mem0, first, got, 0);
    while cur != NULL
      invariant k <= |got| && cur == Nth(got, k) && (k < |got| ==> cur != NULL && at == Wrap(q[k]))
      invariant OnlyStart(mem0, mem, got) && (forall i: nat :: i < k ==> LaidOutAt(mem, got, q, i))
      invariant k > 0 ==> last == got[k - 1]
      decreases |got| - k
    {
      ListLink(mem0, first, got, k);
      OnlyStartAt(mem0, mem, got, cur);
      LayOne(mem0, mem, got, q, k, at);
      LayoutStep(mem0, got, p, k);
      AddWraps(q[k], mem[cur].length);
      mem := mem[cur := mem[cur].(start := at, enq := false, deq := false)];
      OnlyStartAt(mem0, mem, got, cur);
      last := cur;
      at := Add(at, mem[cur].length);
      cur := mem[cur].next;
      k := k + 1;
      if k < |got| {
        ListLink(mem0, first, got, k);
      }
    }
  }

  lemma ListLink(mem: Memory, head: Sptr, list: seq<Sptr>, i: nat)
    requires ListOk(mem, head, list) && i < |list|
    ensures LinkAt(mem, list, i)
  {
  }

  lemma OnlyStartRefl(mem: Memory, s: seq<Sptr>)
    ensures OnlyStart(mem, mem, s)
  {
  }

  lemma OnlyStartAt(mem0: Memory, mem: Memory, s: seq<Sptr>, x: Sptr)
    requires OnlyStart(mem0, mem, s) && x in mem0
    ensures x in mem && mem[x].length == mem0[x].length && mem[x].next == mem0[x].next && mem[x].data == mem0[x].data
  {
    assert mem[x].(start := 0, enq := false, deq := false) == mem0[x].(start := 0, enq := false, deq := false);
  }

  /** The chain after a laid-out list is linked to its end. */
  ghost predicate Appendable(mem: Memory, chain: seq<Sptr>, pos: seq<int>, first: Sptr, got: seq<Sptr>, q: seq<int>) {
    && Chain(mem, chain, pos) && got != [] && ListOk(mem, first, got) && |q| == |got| + 1
    && (forall x :: x in got ==> x !in chain)
    && q[0] == pos[|chain|] && q[|got|] - pos[0] < TWO_31
    && (forall i: nat :: i < |got| ==> LaidOutAt(mem, got, q, i))
    && (forall i: nat :: i < |got| ==> ExtentAt(mem, got, q, i))
  }

  ghost predicate ExtentAt(mem: Memory, got: seq<Sptr>, q: seq<int>, i: nat)
    requires i < |got| && |q| == |got| + 1
  {
    got[i] in mem && mem[got[i]].length == |mem[got[i]].data| == q[i + 1] - q[i] > 0
  }

  lemma {:induction false} ExtentsAscend(mem: Memory, got: seq<Sptr>, q: seq<int>, i: nat, j: nat)
    requires |q| == |got| + 1 && i < j <= |got|
    requires forall k: nat :: k < |got| ==> ExtentAt(mem, got, q, k)
    ensures q[i] < q[j]
    decreases j
  {
    assert ExtentAt(mem, got, q, j - 1);
    if i < j - 1 {
      ExtentsAscend(mem, got, q, i, j - 1);
    }
  }

  lemma AppendAscending(mem: Memory, chain: seq<Sptr>, pos: seq<int>, first: Sptr, got: seq<Sptr>, q: seq<int>)
    requires Appendable(mem, chain, pos, first, got, q)
    ensures Ascending(pos + q[1..])
  {
    hide ListOk, LaidOutAt;
    var r := pos + q[1..];
    var n := |chain|;
    forall i, j | 0 <= i < j < |r| ensures r[i] < r[j] {
      if j > n {
        assert r[j] == q[j - n];
        if i > n {
          assert r[i] == q[i - n];
          ExtentsAscend(mem, got, q, i - n, j - n);
        } else {
          ExtentsAscend(mem, got, q, 0, j - n);
          assert r[i] == pos[i];
        }
      }
    }
  }

  lemma AppendDistinct(mem: Memory, chain: seq<Sptr>, first: Sptr, got: seq<Sptr>)
    requires NoRepeats(chain) && ListOk(mem, first, got) && (forall x :: x in got ==> x !in chain)
    ensures NoRepeats(chain + got)
  {
    var all := chain + got;
    forall i, j | 0 <= i < j < |all| ensures all[i] != all[j] {
      assert i < |chain| ==> all[i] in chain;
      assert j >= |chain| ==> all[j] in got;
    }
  }

  lemma AppendAt(mem: Memory, chain: seq<Sptr>, pos: seq<int>, first: Sptr, got: seq<Sptr>, q: seq<int>, i: nat)
    requires Appendable(mem, chain, pos, first, got, q) && i < |chain| + |got|
    ensures var end := chain[|chain| - 1];
            end in mem && ChunkAt(mem[end := mem[end].(next := first)], chain + got, pos + q[1..], i)
  {
    var n := |chain|;
    var end := chain[n - 1];
    ChainAt(mem, chain, pos, n - 1);
    if i < n {
      ChainAt(mem, chain, pos, i);
      assert (chain + got)[i] == chain[i];
    } else {
      var j := i - n;
      assert (chain + got)[i] == got[j];
      assert got[j] in got && end in chain;
      assert LinkAt(mem, got, j) && LaidOutAt(mem, got, q, j) && ExtentAt(mem, got, q, j);
    }
  }

  lemma Appended(mem: Memory, chain: seq<Sptr>, pos: seq<int>, first: Sptr, got: seq<Sptr>, q: seq<int>)
    requires Appendable(mem, chain, pos, first, got, q)
    ensures var end := chain[|chain| - 1];
            end in mem && Chain(mem[end := mem[end].(next := first)], chain + got, pos + q[1..])
  {
    hide ChunkAt, ListOk, LaidOutAt, ExtentAt;
    var end := chain[|chain| - 1];
    ChainAt(mem, chain, pos, |chain| - 1);
    assert end in mem by { AppendAt(mem, chain, pos, first, got, q, 0); }
    var m := mem[end := mem[end].(next := first)];
    AppendAscending(mem, chain, pos, first, got, q);
    AppendDistinct(mem, chain, first, got);
    forall i: nat | i < |chain + got| ensures ChunkAt(m, chain + got, pos + q[1..], i) {
      AppendAt(mem, chain, pos, first, got, q, i);
    }
  }

  lemma AppendedHolds(mem: Memory, chain: seq<Sptr>, pos: seq<int>, first: Sptr, got: seq<Sptr>, q: seq<int>, log: Log)
    requires Appendable(mem, chain, pos, first, got, q) && Holds(mem, chain, pos, log)
    requires forall p :: p in log ==> p < pos[|chain|]
    ensures var end := chain[|chain| - 1];
            end in mem && Holds(mem[end := mem[end].(next := first)], chain + got, pos + q[1..], log)
  {
    hide ListOk;
    var n := |chain|;
    var end := chain[n - 1];
    ChainAt(mem, chain, pos, n - 1);
    var m := mem[end := mem[end].(next := first)];
    var all, r := chain + got, pos + q[1..];
    forall i: nat | i < |all| ensures HoldsAt(m, all, r, log, i) {
      if i < n {
        assert HoldsAt(mem, chain, pos, log, i);
        assert all[i] == chain[i] && r[i] == pos[i];
      } else {
        assert all[i] == got[i - n] && r[i] == q[i - n];
        assert LaidOutAt(mem, got, q, i - n);
        if i > n { ExtentsAscend(mem, got, q, 0, i - n); }
      }
    }
  }

  lemma AppendedInRun(chain: seq<Sptr>, pos: seq<int>, got: seq<Sptr>, q: seq<int>, a: nat, b: nat, k: u32, c: Sptr)
    requires b <= |chain| < |pos| && |q| == |got| + 1
    ensures InRun(chain + got, pos + q[1..], a, b, k, c) <==> InRun(chain, pos, a, b, k, c)
  {
    var all, r := chain + got, pos + q[1..];
    if InRun(chain, pos, a, b, k, c) {
      var i: nat :| a <= i < b && k == Wrap(pos[i]) && c == chain[i];
      assert r[i] == pos[i] && all[i] == chain[i];
    }
  }

  lemma AppendedIndex(mem: Memory, chain: seq<Sptr>, pos: seq<int>, first: Sptr, got: seq<Sptr>, q: seq<int>,
                      t: Tree, enq: bool, a: nat, b: nat)
    requires Appendable(mem, chain, pos, first, got, q) && Index(mem, t, chain, pos, enq, a, b)
    ensures var end := chain[|chain| - 1];
            end in mem && Index(mem[end := mem[end].(next := first)], t, chain + got, pos + q[1..], enq, a, b)
  {
    hide ListOk, Ordered, Has;
    var n := |chain|;
    var end := chain[n - 1];
    ChainAt(mem, chain, pos, n - 1);
    var m := mem[end := mem[end].(next := first)];
    var all, r := chain + got, pos + q[1..];
    forall i: nat | i < |all| ensures all[i] in m && (Flag(m[all[i]], enq) <==> a <= i < b) {
      if i < n {
        assert all[i] == chain[i];
      } else {
        assert all[i] == got[i - n] && got[i - n] in got && end in chain;
        assert LaidOutAt(mem, got, q, i - n);
      }
    }
    forall k, c ensures Has(t, k, c) <==> InRun(all, r, a, b, k, c) {
      AppendedInRun(chain, pos, got, q, a, b, k, c);
    }
  }

  /** Positions within the old chain are found where they were; the old end is in the first new chunk. */
  lemma AppendedFor(mem: Memory, chain: seq<Sptr>, pos: seq<int>, first: Sptr, got: seq<Sptr>, q: seq<int>, p: int)
    requires Appendable(mem, chain, pos, first, got, q) && pos[0] <= p <= pos[|chain|]
    ensures ChunkFor(chain + got, pos + q[1..], p) == if p < pos[|chain|] then ChunkFor(chain, pos, p) else first
  {
    hide Chain, ChunkFor;
    ListFacts(mem, first, got);
    ChainAscending(mem, chain, pos);
    Appended(mem, chain, pos, first, got, q);
    var n := |chain|;
    var end := chain[n - 1];
    var all, r := chain + got, pos + q[1..];
    var i := if p < pos[n] then Find(pos, p) else n;
    ChunkForIs(mem, chain, pos, i, p);
    assert r[i] == pos[i];
    if i < n {
      assert r[i + 1] == pos[i + 1] && all[i] == chain[i];
    } else {
      assert ExtentAt(mem, got, q, 0);
      assert r[i + 1] == q[1] && all[i] == got[0];
    }
    ChunkForIs(mem[end := mem[end].(next := first)], all, r, i, p);
  }

  /** A fresh list laid out from the chain's end can be linked to it. */
  lemma LaidOutAppendable(mem0: Memory, mem: Memory, chain: seq<Sptr>, pos: seq<int>, first: Sptr, got: seq<Sptr>)
    requires Chain(mem0, chain, pos) && got != [] && ListOk(mem0, first, got) && OnlyStart(mem0, mem, got)
    requires (forall x :: x in got ==> x in mem0 && x !in chain && mem0[x].length == |mem0[x].data| > 0)
    requires pos[|chain|] + TotalLength(mem0, got) - pos[0] < TWO_31
    requires forall i: nat :: i < |got| ==> LaidOutAt(mem, got, Layout(mem0, got, pos[|chain|]), i)
    ensures Appendable(mem, chain, pos, first, got, Layout(mem0, got, pos[|chain|]))
  {
    hide LaidOutAt, Layout;
    var q := Layout(mem0, got, pos[|chain|]);
    LayoutTotal(mem0, got, pos[|chain|]);
    forall i: nat | i < |got| ensures ExtentAt(mem, got, q, i) {
      assert got[i] in got;
      LayoutStep(mem0, got, pos[|chain|], i);
      OnlyStartAt(mem0, mem, got, got[i]);
    }
    forall x | x in got ensures x in mem && mem[x].next == mem0[x].next {
      OnlyStartAt(mem0, mem, got, x);
    }
    ListFrame(mem0, mem, first, got);
    OnlyStartChain(mem0, mem, chain, pos, got);
  }

  lemma OnlyStartChain(mem0: Memory, mem: Memory, chain: seq<Sptr>, pos: seq<int>, got: seq<Sptr>)
    requires Chain(mem0, chain, pos) && OnlyStart(mem0, mem, got) && (forall x :: x in got ==> x !in chain)
    ensures Chain(mem, chain, pos)
  {
    forall i: nat | i < |chain| ensures ChunkAt(mem, chain, pos, i) {
      ChainAt(mem0, chain, pos, i);
      assert chain[i] in chain;
    }
  }

  lemma OnlyStartHolds(mem0: Memory, mem: Memory, chain: seq<Sptr>, pos: seq<int>, got: seq<Sptr>, log: Log)
    requires Chain(mem0, chain, pos) && OnlyStart(mem0, mem, got) && (forall x :: x in got ==> x !in chain)
    requires Holds(mem0, chain, pos, log)
    ensures Holds(mem, chain, pos, log)
  {
    forall i: nat | i < |chain| ensures HoldsAt(mem, chain, pos, log, i) {
      assert HoldsAt(mem0, chain, pos, log, i);
      assert chain[i] in chain;
    }
  }

  lemma OnlyStartIndex(mem0: Memory, mem: Memory, chain: seq<Sptr>, pos: seq<int>, got: seq<Sptr>, t: Tree, enq: bool, a: nat, b: nat)
    requires Index(mem0, t, chain, pos, enq, a, b) && OnlyStart(mem0, mem, got) && (forall x :: x in got ==> x !in chain)
    ensures Index(mem, t, chain, pos, enq, a, b)
  {
    hide TreeIs;
    forall i: nat | i < |chain| ensures chain[i] in mem && (Flag(mem[chain[i]], enq) <==> a <= i < b) {
      assert chain[i] in chain;
    }
  }
}
