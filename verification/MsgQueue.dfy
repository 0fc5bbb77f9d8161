/** The message queue (src/svm/message_queue.c): producers allocate slots of rings and add
    messages to the queue while they hold its lock, one consumer takes messages off and frees
    them in the order in which it received them, without the lock. Each step below is one
    access to a shared field. */
module MsgQueue {
  /** A message names a slot of a ring. How many messages the ring had before it is history. */
  datatype Msg = Msg(ring: nat, elt: nat, num: nat)

  /** The slot of the num-th message, in a ring of n. */
  function Slot(num: nat, n: nat): (slot: nat)
    requires n > 0
    ensures slot < n
  {
    num % n
  }

  function Next(slot: nat, n: nat): nat
    requires n > 0
  {
    Slot(slot + 1, n)
  }

  /** Ring fields; how often head and tail have moved is history. */
  datatype Ring = Ring(head: nat, tail: nat, cursize: int, nitems: nat, freed: nat, alloced: nat)

  datatype Queue = Queue(head: nat, tail: nat, cursize: int, maxsize: nat, data: seq<Msg>)

  /** The producer that holds the lock, between svm_msg_q_lock_and_alloc_msg_w_ring and the
      end of svm_msg_q_add_and_unlock. */
  datatype Prod =
    | Unlocked
    | Locked(r: nat)
    | QueueChecked(r: nat)
    | RingChecked(r: nat)
    | Took(m: Msg)
    | Alloced(m: Msg)
    | Wrote(m: Msg)
    | MovedTail
    | Added

  datatype Cons = Idle | Read(m: Msg) | MovedHead(m: Msg) | Freeing(m: Msg)

  /** held are the messages received and not yet freed. What is in the queue and how often its
      head and tail have moved is history. */
  datatype State = State(rings: seq<Ring>, q: Queue, prod: Prod, cons: Cons, held: seq<Msg>, content: seq<Msg>, removed: nat)

  datatype Action =
    | Lock(r: nat) | CheckQueue | CheckRing | GiveUp | TakeTail | IncRing | WriteMsg | MoveTail | IncQueue | Unlock
    | ReadMsg | MoveHead | DecQueue | FreeHead | DecRing

  /** The lock holder finds the queue or the ring full. It unlocks, at once or to wait. */
  ghost predicate Full(s: State) {
    || (s.prod.Locked? && s.q.cursize == s.q.maxsize)
    || (s.prod.QueueChecked? && s.prod.r < |s.rings| && s.rings[s.prod.r].cursize >= s.rings[s.prod.r].nitems)
  }

  ghost predicate Enabled(s: State, a: Action) {
    match a
    case Lock(r) => s.prod.Unlocked? && r < |s.rings|
    case CheckQueue => s.prod.Locked? && s.q.cursize != s.q.maxsize
    case CheckRing => s.prod.QueueChecked? && s.prod.r < |s.rings| && s.rings[s.prod.r].cursize < s.rings[s.prod.r].nitems
    case GiveUp => Full(s)
    case TakeTail => s.prod.RingChecked? && s.prod.r < |s.rings| && s.rings[s.prod.r].nitems > 0
    case IncRing => s.prod.Took? && s.prod.m.ring < |s.rings|
    case WriteMsg => s.prod.Alloced? && s.q.tail < |s.q.data|
    case MoveTail => s.prod.Wrote? && s.q.maxsize > 0
    case IncQueue => s.prod.MovedTail?
    case Unlock => s.prod.Added?
    case ReadMsg => s.cons.Idle? && s.q.cursize != 0 && s.q.head < |s.q.data|
    case MoveHead => s.cons.Read? && s.q.maxsize > 0
    case DecQueue => s.cons.MovedHead?
    case FreeHead => s.cons.Idle? && s.held != [] && s.held[0].ring < |s.rings| && s.rings[s.held[0].ring].nitems > 0
    case DecRing => s.cons.Freeing? && s.cons.m.ring < |s.rings| && s.held != []
  }

  function WithRing(s: State, r: nat, ring: Ring): State
    requires r < |s.rings|
  {
    s.(rings := s.rings[r := ring])
  }

  ghost function Apply(s: State, a: Action): State
    requires Enabled(s, a)
  {
    match a
    case Lock(r) => s.(prod := Locked(r))
    case CheckQueue => s.(prod := QueueChecked(s.prod.r))
    case CheckRing => s.(prod := RingChecked(s.prod.r))
    case GiveUp => s.(prod := Unlocked)
    case TakeTail =>
      var g := s.rings[s.prod.r];
      WithRing(s, s.prod.r, g.(tail := Next(g.tail, g.nitems), alloced := g.alloced + 1)).(prod := Took(Msg(s.prod.r, g.tail, g.alloced)))
    case IncRing =>
      var g := s.rings[s.prod.m.ring];
      WithRing(s, s.prod.m.ring, g.(cursize := g.cursize + 1)).(prod := Alloced(s.prod.m))
    case WriteMsg => s.(q := s.q.(data := s.q.data[s.q.tail := s.prod.m]), prod := Wrote(s.prod.m))
    case MoveTail => s.(q := s.q.(tail := Next(s.q.tail, s.q.maxsize)), prod := MovedTail, content := s.content + [s.prod.m])
    case IncQueue => s.(q := s.q.(cursize := s.q.cursize + 1), prod := Added)
    case Unlock => s.(prod := Unlocked)
    case ReadMsg => s.(cons := Read(s.q.data[s.q.head]))
    case MoveHead =>
      s.(q := s.q.(head := Next(s.q.head, s.q.maxsize)), cons := MovedHead(s.cons.m),
         content := if s.content == [] then [] else s.content[1..], removed := s.removed + 1)
    case DecQueue => s.(q := s.q.(cursize := s.q.cursize - 1), cons := Idle, held := s.held + [s.cons.m])
    case FreeHead =>
      var m := s.held[0];
      var g := s.rings[m.ring];
      if m.elt == g.head then
        WithRing(s, m.ring, g.(head := Next(g.head, g.nitems), freed := g.freed + 1)).(cons := Freeing(m))
      else
        s.(cons := Freeing(m))
    case DecRing =>
      var g := s.rings[s.cons.m.ring];
      WithRing(s, s.cons.m.ring, g.(cursize := g.cursize - 1)).(cons := Idle, held := s.held[1..])
  }

  /** How far slot x is from the head, in a ring of n. */
  function Distance(x: nat, head: nat, n: nat): nat
    requires n > 0 && head <= n
  {
    Slot(n + x - head, n)
  }

  /** svm_msq_q_msg_is_valid, for the head, tail and size that it read. */
  predicate PassesCheck(head: nat, tail: nat, cursize: int, nitems: nat, elt: nat)
    requires nitems > 0 && head <= nitems
  {
    var dist2 := if tail == head then if cursize == 0 then 0 else nitems else Distance(tail, head, nitems);
    Distance(elt, head, nitems) < dist2
  }

  /** All messages between allocation and release, oldest first: with the consumer, in its
      hands on the way out of the queue, in the queue, and with the producer. */
  ghost function Live(s: State): seq<Msg> {
    (if s.cons.Freeing? && s.held != [] then s.held[1..] else s.held)
    + (if s.cons.MovedHead? then [s.cons.m] else [])
    + s.content
    + (if s.prod.Took? || s.prod.Alloced? || s.prod.Wrote? then [s.prod.m] else [])
  }

  /** The numbers of the messages of ring r. */
  ghost function Nums(ms: seq<Msg>, r: nat): seq<nat> {
    if ms == [] then [] else Nums(ms[..|ms| - 1], r) + if ms[|ms| - 1].ring == r then [ms[|ms| - 1].num] else []
  }

  lemma {:induction false} NumsConcat(a: seq<Msg>, b: seq<Msg>, r: nat)
    ensures Nums(a + b, r) == Nums(a, r) + Nums(b, r)
    decreases |b|
  {
    if b == [] {
      assert a + b == a;
    } else {
      assert (a + b)[..|a + b| - 1] == a + b[..|b| - 1];
      NumsConcat(a, b[..|b| - 1], r);
    }
  }

  /** f, f + 1, ..., a - 1. */
  ghost predicate Consecutive(ns: seq<nat>, f: nat, a: nat) {
    f <= a && |ns| == a - f && forall i :: 0 <= i < |ns| ==> ns[i] == f + i
  }

  function One(b: bool): int {
    if b then 1 else 0
  }

  /** Ring r holds exactly its live messages, in order, and never more than it has slots. */
  ghost predicate RingOk(s: State, r: nat)
    requires r < |s.rings|
  {
    var g := s.rings[r];
    && g.nitems > 0 && g.head == Slot(g.freed, g.nitems) && g.tail == Slot(g.alloced, g.nitems)
    && Consecutive(Nums(Live(s), r), g.freed, g.alloced) && g.alloced - g.freed <= g.nitems
    && g.cursize == g.alloced - g.freed - One(s.prod.Took? && s.prod.m.ring == r) + One(s.cons.Freeing? && s.cons.m.ring == r)
    && (s.prod.RingChecked? && s.prod.r == r ==> g.cursize < g.nitems)
  }

  ghost predicate SlotOk(s: State, m: Msg) {
    m.ring < |s.rings| && s.rings[m.ring].nitems > 0 && m.elt == Slot(m.num, s.rings[m.ring].nitems)
  }

  ghost predicate QueueOk(s: State) {
    && s.q.maxsize > 0 && |s.q.data| == s.q.maxsize && |s.content| + One(s.cons.MovedHead?) <= s.q.maxsize
    && s.q.head == Slot(s.removed, s.q.maxsize) && s.q.tail == Slot(s.removed + |s.content|, s.q.maxsize)
    && (forall i: nat :: i < |s.content| ==> ContentAt(s, i))
    && s.q.cursize == |s.content| - One(s.prod.MovedTail?) + One(s.cons.MovedHead?) && |s.content| >= One(s.prod.MovedTail?) + One(s.cons.Read?)
    && (s.prod.QueueChecked? || s.prod.RingChecked? || s.prod.Took? || s.prod.Alloced? || s.prod.Wrote? ==>
          |s.content| + One(s.cons.MovedHead?) < s.q.maxsize)
    && (s.prod.Wrote? ==> s.q.data[s.q.tail] == s.prod.m)
    && (s.cons.Read? ==> s.content != [] && s.content[0] == s.cons.m)
  }

  ghost predicate ContentAt(s: State, i: nat)
    requires i < |s.content| && s.q.maxsize > 0
  {
    var j := Slot(s.removed + i, s.q.maxsize);
    j < |s.q.data| && s.q.data[j] == s.content[i]
  }

  /** The lock holder has its ring but no slot yet. */
  ghost predicate Choosing(p: Prod) {
    p.Locked? || p.QueueChecked? || p.RingChecked?
  }

  ghost predicate Inv(s: State) {
    && QueueOk(s)
    && (forall r: nat :: r < |s.rings| ==> RingOk(s, r))
    && (forall m :: m in Live(s) ==> SlotOk(s, m))
    && (Choosing(s.prod) ==> s.prod.r < |s.rings|)
    && (s.cons.Freeing? ==> s.held != [] && s.held[0] == s.cons.m && s.cons.m.ring < |s.rings|)
  }

  lemma ModIs(a: nat, n: nat, q: nat, r: nat)
    requires n > 0 && a == n * q + r && r < n
    ensures Slot(a, n) == r
  {
    var d := q - a / n;
    assert n * d == a % n - r;
    assert d >= 1 ==> n * d >= n;
    assert d <= -1 ==> n * d <= 0 - n;
  }

  lemma Parts(a: nat, n: nat) returns (q: nat)
    requires n > 0
    ensures a == n * q + Slot(a, n) && Slot(a, n) < n
  {
    q := a / n;
  }

  lemma SlotNext(a: nat, n: nat)
    requires n > 0
    ensures Next(Slot(a, n), n) == Slot(a + 1, n)
  {
    hide Slot;
    var q := Parts(a, n);
    var r := Slot(a, n);
    if r + 1 == n {
      assert n * (q + 1) == n * q + n;
      ModIs(a + 1, n, q + 1, 0);
      ModIs(n, n, 1, 0);
    } else {
      ModIs(a + 1, n, q, r + 1);
      ModIs(r + 1, n, 0, r + 1);
    }
  }

  lemma SlotsDiffer(a: nat, b: nat, n: nat)
    requires n > 0 && a < b < a + n
    ensures Slot(a, n) != Slot(b, n)
  {
    hide Slot;
    var q := Parts(a, n);
    var p := Parts(b, n);
    Multiples(n, q, p);
  }

  lemma Multiples(n: nat, q: int, p: int)
    ensures p > q ==> n * p >= n * q + n
    ensures p <= q ==> n * p <= n * q
  {
    var d := p - q;
    assert n * p == n * q + n * d;
    assert d >= 1 ==> n * d >= n;
    assert d <= 0 ==> n * d <= 0;
  }

  /** Steps that move messages along without changing their order keep the rings. */
  lemma SameLive(s: State, s': State)
    requires Inv(s) && Live(s') == Live(s) && s'.rings == s.rings
    requires s'.prod.Took? == s.prod.Took? && (s.prod.Took? ==> s'.prod.m == s.prod.m)
    requires s'.cons.Freeing? == s.cons.Freeing? && (s.cons.Freeing? ==> s'.cons.m == s.cons.m && s'.held == s.held)
    requires s'.prod.RingChecked? && s'.prod != s.prod ==> s'.prod.r < |s.rings| && s.rings[s'.prod.r].cursize < s.rings[s'.prod.r].nitems
    requires Choosing(s'.prod) ==> s'.prod.r < |s.rings|
    requires QueueOk(s')
    ensures Inv(s')
  {
    hide QueueOk, Live, Nums, Consecutive;
    forall r: nat | r < |s'.rings| ensures RingOk(s', r) {
      assert RingOk(s, r);
    }
    forall m | m in Live(s') ensures SlotOk(s', m) {
      assert SlotOk(s, m);
    }
  }

  lemma ChecksKeep(s: State, a: Action)
    requires Inv(s) && Enabled(s, a) && (a.Lock? || a.CheckQueue? || a.CheckRing? || a.GiveUp? || a.Unlock? || a.IncQueue? || a.ReadMsg?)
    ensures Inv(Apply(s, a))
  {
    hide Slot, Nums, Consecutive, RingOk, SlotOk;
    var s' := Apply(s, a);
    forall i: nat | i < |s'.content| ensures ContentAt(s', i) {
      assert ContentAt(s, i);
    }
    if a.ReadMsg? {
      assert ContentAt(s, 0);
    }
    SameLive(s, s');
  }

  lemma WriteKeeps(s: State)
    requires Inv(s) && Enabled(s, WriteMsg)
    ensures Inv(Apply(s, WriteMsg))
  {
    hide Slot, Nums, Consecutive, RingOk, SlotOk;
    var s' := Apply(s, WriteMsg);
    forall i: nat | i < |s'.content| ensures ContentAt(s', i) {
      assert ContentAt(s, i);
      SlotsDiffer(s.removed + i, s.removed + |s.content|, s.q.maxsize);
    }
    SameLive(s, s');
  }

  lemma MoveTailKeeps(s: State)
    requires Inv(s) && Enabled(s, MoveTail)
    ensures Inv(Apply(s, MoveTail))
  {
    hide Slot, Nums, Consecutive, RingOk, SlotOk;
    var s' := Apply(s, MoveTail);
    SlotNext(s.removed + |s.content|, s.q.maxsize);
    forall i: nat | i < |s'.content| ensures ContentAt(s', i) {
      if i < |s.content| {
        assert ContentAt(s, i);
      }
    }
    assert Live(s') == Live(s);
    SameLive(s, s');
  }

  lemma MoveHeadKeeps(s: State)
    requires Inv(s) && Enabled(s, MoveHead)
    ensures Inv(Apply(s, MoveHead))
  {
    hide Slot, Nums, Consecutive, RingOk, SlotOk;
    var s' := Apply(s, MoveHead);
    SlotNext(s.removed, s.q.maxsize);
    forall i: nat | i < |s'.content| ensures ContentAt(s', i) {
      assert ContentAt(s, i + 1);
    }
    assert s.content == [s.cons.m] + s.content[1..];
    assert Live(s') == Live(s);
    SameLive(s, s');
  }

  lemma DecQueueKeeps(s: State)
    requires Inv(s) && Enabled(s, DecQueue)
    ensures Inv(Apply(s, DecQueue))
  {
    hide Slot, Nums, Consecutive, RingOk, SlotOk;
    var s' := Apply(s, DecQueue);
    forall i: nat | i < |s'.content| ensures ContentAt(s', i) {
      assert ContentAt(s, i);
    }
    assert Live(s') == Live(s);
    SameLive(s, s');
  }

  lemma {:induction false} NumIn(ms: seq<Msg>, r: nat, m: Msg)
    requires m in ms && m.ring == r
    ensures m.num in Nums(ms, r)
    decreases |ms|
  {
    var last := ms[|ms| - 1];
    var ns := Nums(ms[..|ms| - 1], r);
    if m == last {
      assert (ns + [last.num])[|ns|] == m.num;
    } else {
      NumIn(ms[..|ms| - 1], r, m);
      assert forall x :: x in ns ==> x in ns + [last.num];
    }
  }

  /** A live message lies between what was freed and what was allocated. */
  lemma LiveRange(s: State, m: Msg)
    requires Inv(s) && m in Live(s)
    ensures m.ring < |s.rings| && s.rings[m.ring].freed <= m.num < s.rings[m.ring].alloced && SlotOk(s, m) && RingOk(s, m.ring)
  {
    hide Live, Nums, QueueOk, Slot;
    assert SlotOk(s, m) && RingOk(s, m.ring);
    NumIn(Live(s), m.ring, m);
    var ns := Nums(Live(s), m.ring);
    var i :| 0 <= i < |ns| && ns[i] == m.num;
  }

  /** A slot is taken only when no live message has it. */
  lemma NotReused(s: State, m: Msg)
    requires Inv(s) && Enabled(s, TakeTail) && m in Live(s) && m.ring == s.prod.r
    ensures m.elt != s.rings[s.prod.r].tail
  {
    hide Live, Nums, QueueOk, Slot, Consecutive;
    LiveRange(s, m);
    var g := s.rings[m.ring];
    SlotsDiffer(m.num, g.alloced, g.nitems);
  }

  lemma TakeTailRing(s: State, r: nat)
    requires Inv(s) && Enabled(s, TakeTail) && r < |s.rings|
    ensures RingOk(Apply(s, TakeTail), r) && Live(Apply(s, TakeTail)) == Live(s) + [Apply(s, TakeTail).prod.m]
  {
    var s' := Apply(s, TakeTail);
    assert Live(s') == Live(s) + [s'.prod.m];
    assert RingOk(s, r) && RingOk(s, s.prod.r);
    hide Live, QueueOk, Slot;
    NumsConcat(Live(s), [s'.prod.m], r);
    assert [s'.prod.m][..0] == [];
    SlotNext(s.rings[r].alloced, s.rings[r].nitems);
  }

  lemma TakeTailKeeps(s: State)
    requires Inv(s) && Enabled(s, TakeTail)
    ensures Inv(Apply(s, TakeTail))
  {
    var s' := Apply(s, TakeTail);
    hide Slot, Nums, Consecutive;
    forall r: nat | r < |s'.rings| ensures RingOk(s', r) {
      TakeTailRing(s, r);
    }
    TakeTailRing(s, s.prod.r);
    assert RingOk(s, s.prod.r);
    forall i: nat | i < |s'.content| ensures ContentAt(s', i) {
      assert ContentAt(s, i);
    }
    forall m | m in Live(s') ensures SlotOk(s', m) {
      if m in Live(s) {
        assert SlotOk(s, m);
      }
    }
  }

  lemma IncRingKeeps(s: State)
    requires Inv(s) && Enabled(s, IncRing)
    ensures Inv(Apply(s, IncRing))
  {
    var s' := Apply(s, IncRing);
    assert Live(s') == Live(s);
    hide Slot, Nums, Consecutive, Live, Next;
    forall r: nat | r < |s'.rings| ensures RingOk(s', r) {
      assert RingOk(s, r);
    }
    forall i: nat | i < |s'.content| ensures ContentAt(s', i) {
      assert ContentAt(s, i);
    }
    forall m | m in Live(s') ensures SlotOk(s', m) {
      assert SlotOk(s, m);
    }
  }

  lemma DecRingRing(s: State, r: nat)
    requires Inv(s) && Enabled(s, DecRing) && r < |s.rings|
    ensures Live(Apply(s, DecRing)) == Live(s) && RingOk(Apply(s, DecRing), r)
  {
    assert Live(Apply(s, DecRing)) == Live(s);
    hide Slot, Nums, Consecutive, Live, Next, QueueOk;
    assert RingOk(s, r);
  }

  lemma DecRingKeeps(s: State)
    requires Inv(s) && Enabled(s, DecRing)
    ensures Inv(Apply(s, DecRing))
  {
    hide Slot, Nums, Consecutive, Live, Next, RingOk;
    var s' := Apply(s, DecRing);
    DecRingRing(s, s.cons.m.ring);
    forall r: nat | r < |s'.rings| ensures RingOk(s', r) {
      DecRingRing(s, r);
    }
    forall i: nat | i < |s'.content| ensures ContentAt(s', i) {
      assert ContentAt(s, i);
    }
    forall m | m in Live(s') ensures SlotOk(s', m) {
      assert SlotOk(s, m);
    }
  }

  /** Messages are freed in the order in which their ring handed them out: the branch of
      svm_msg_q_free_msg for a message out of order is never taken. */
  lemma FreedInOrder(s: State)
    requires Inv(s) && Enabled(s, FreeHead)
    ensures Live(s) == [s.held[0]] + Live(s)[1..] && SlotOk(s, s.held[0])
    ensures s.held[0].num == s.rings[s.held[0].ring].freed && s.held[0].elt == s.rings[s.held[0].ring].head
  {
    var m := s.held[0];
    assert Live(s)[0] == m && Live(s) == [m] + Live(s)[1..];
    hide Live, Slot, QueueOk;
    assert SlotOk(s, m) && RingOk(s, m.ring);
    NumsConcat([m], Live(s)[1..], m.ring);
    assert [m][..0] == [];
    assert Nums(Live(s), m.ring)[0] == m.num;
  }

  lemma DropFirst(ns: seq<nat>, ns': seq<nat>, x: nat, f: nat, a: nat)
    requires Consecutive(ns, f, a) && ns == [x] + ns'
    ensures Consecutive(ns', f + 1, a)
  {
    forall i | 0 <= i < |ns'| ensures ns'[i] == f + 1 + i {
      assert ns[i + 1] == ns'[i];
    }
  }

  lemma NumsRest(m: Msg, rest: seq<Msg>, r: nat)
    ensures Nums([m] + rest, r) == if m.ring == r then [m.num] + Nums(rest, r) else Nums(rest, r)
  {
    NumsConcat([m], rest, r);
    assert [m][..0] == [];
  }

  lemma FreeHeadNums(s: State, r: nat)
    requires Inv(s) && Enabled(s, FreeHead) && r < |s.rings|
    ensures var s', g := Apply(s, FreeHead), s.rings[r];
            && Live(s') == Live(s)[1..] && |s'.rings| == |s.rings| && s'.rings[r] == (if r == s.held[0].ring then g.(head := Next(g.head, g.nitems), freed := g.freed + 1) else g)
            && s'.cons == Freeing(s.held[0]) && s'.prod == s.prod
            && Consecutive(Nums(Live(s'), r), s'.rings[r].freed, s'.rings[r].alloced)
  {
    FreedInOrder(s);
    var s', m := Apply(s, FreeHead), s.held[0];
    assert Live(s') == Live(s)[1..];
    assert RingOk(s, r);
    hide Live, QueueOk, Slot, Consecutive, Nums;
    NumsRest(m, Live(s)[1..], r);
    if m.ring == r {
      DropFirst(Nums(Live(s), r), Nums(Live(s'), r), m.num, s.rings[r].freed, s.rings[r].alloced);
    }
  }

  lemma FreeHeadRing(s: State, r: nat)
    requires Inv(s) && Enabled(s, FreeHead) && r < |s.rings|
    ensures RingOk(Apply(s, FreeHead), r) && Live(Apply(s, FreeHead)) == Live(s)[1..]
  {
    hide Live, QueueOk, Slot, Consecutive, Apply, Next;
    FreeHeadNums(s, r);
    assert RingOk(s, r);
    SlotNext(s.rings[r].freed, s.rings[r].nitems);
  }

  lemma FreeHeadQueue(s: State)
    requires Inv(s) && Enabled(s, FreeHead)
    ensures QueueOk(Apply(s, FreeHead))
  {
    hide Slot, Next, RingOk, SlotOk, Live;
    var s' := Apply(s, FreeHead);
    forall i: nat | i < |s'.content| ensures ContentAt(s', i) {
      assert ContentAt(s, i);
    }
  }

  lemma FreeHeadKeeps(s: State)
    requires Inv(s) && Enabled(s, FreeHead)
    ensures Inv(Apply(s, FreeHead))
  {
    hide Slot, Nums, Consecutive, RingOk, QueueOk, Live, Next;
    FreeHeadQueue(s);
    var s' := Apply(s, FreeHead);
    forall r: nat | r < |s'.rings| ensures RingOk(s', r) {
      FreeHeadRing(s, r);
    }
    FreeHeadRing(s, s.held[0].ring);
    forall m | m in Live(s') ensures SlotOk(s', m) {
      assert m in Live(s);
      assert SlotOk(s, m);
    }
  }

  lemma StepKeeps(s: State, a: Action)
    requires Inv(s) && Enabled(s, a)
    ensures Inv(Apply(s, a))
  {
    hide Inv, Enabled, Apply;
    match a
    case TakeTail => TakeTailKeeps(s);
    case IncRing => IncRingKeeps(s);
    case WriteMsg => WriteKeeps(s);
    case MoveTail => MoveTailKeeps(s);
    case MoveHead => MoveHeadKeeps(s);
    case DecQueue => DecQueueKeeps(s);
    case FreeHead => FreeHeadKeeps(s);
    case DecRing => DecRingKeeps(s);
    case _ => ChecksKeep(s, a);
  }

  /** The lock holder can take its next step: the ring and the slot of the queue that it goes
      to are there. */
  ghost predicate HolderGoesOn(s: State) {
    match s.prod
    case Unlocked => forall r: nat :: r < |s.rings| ==> Enabled(s, Lock(r))
    case Locked(_) => Enabled(s, GiveUp) || Enabled(s, CheckQueue)
    case QueueChecked(_) => Enabled(s, GiveUp) || Enabled(s, CheckRing)
    case RingChecked(_) => Enabled(s, TakeTail)
    case Took(_) => Enabled(s, IncRing)
    case Alloced(_) => Enabled(s, WriteMsg)
    case Wrote(_) => Enabled(s, MoveTail)
    case MovedTail => Enabled(s, IncQueue)
    case Added => Enabled(s, Unlock)
  }

  /** The same for the consumer: it can read any queue that is not empty and free whatever it holds. */
  ghost predicate ConsumerGoesOn(s: State) {
    match s.cons
    case Idle => (s.q.cursize != 0 ==> Enabled(s, ReadMsg)) && (s.held != [] ==> Enabled(s, FreeHead))
    case Read(_) => Enabled(s, MoveHead)
    case MovedHead(_) => Enabled(s, DecQueue)
    case Freeing(_) => Enabled(s, DecRing)
  }

  lemma HolderProgress(s: State)
    requires Inv(s)
    ensures HolderGoesOn(s)
  {
    hide Nums, Consecutive, Slot, ContentAt;
    if s.prod.RingChecked? {
      assert RingOk(s, s.prod.r);
    }
    hide RingOk;
    if s.prod.Took? {
      assert s.prod.m in Live(s);
      assert SlotOk(s, s.prod.m);
    }
  }

  lemma ConsumerProgress(s: State)
    requires Inv(s)
    ensures ConsumerGoesOn(s)
  {
    hide RingOk, ContentAt, Slot;
    if s.cons.Idle? && s.held != [] {
      assert s.held[0] in Live(s);
      assert SlotOk(s, s.held[0]);
    }
  }

  ghost predicate Run(s: State, acts: seq<Action>)
    decreases |acts|
  {
    acts != [] ==> Enabled(s, acts[0]) && Run(Apply(s, acts[0]), acts[1..])
  }

  ghost function Exec(s: State, acts: seq<Action>): State
    requires Run(s, acts)
    decreases |acts|
  {
    if acts == [] then s else Exec(Apply(s, acts[0]), acts[1..])
  }

  /** In every interleaving each ring's live messages are its allocations in order, at most as
      many as it has slots, the queue holds at most its size, and both sides can go on: no
      access is outside the rings or the queue. */
  lemma {:induction false} RunSafe(s: State, acts: seq<Action>)
    requires Inv(s) && Run(s, acts)
    ensures Inv(Exec(s, acts)) && HolderGoesOn(Exec(s, acts)) && ConsumerGoesOn(Exec(s, acts))
    decreases |acts|
  {
    hide Inv, Enabled, Apply, HolderGoesOn, ConsumerGoesOn;
    if acts != [] {
      StepKeeps(s, acts[0]);
      RunSafe(Apply(s, acts[0]), acts[1..]);
    } else {
      HolderProgress(s);
      ConsumerProgress(s);
    }
  }

  lemma SameRound(n: nat, q: nat, p: nat, x: nat, h: nat)
    requires x < n && h < n && 0 <= (n * p + x) - (n * q + h) < n
    ensures n * p == n * q || n * p == n * q + n
  {
    if p > q + 1 {
      Multiples(n, q + 1, p);
      Multiples(n, q, q + 1);
    }
    if p < q {
      Multiples(n, p, q);
    }
    if p == q + 1 {
      assert n * p == n * q + n;
    }
  }

  lemma DistanceIs(num: nat, f: nat, n: nat)
    requires n > 0 && f <= num < f + n
    ensures Distance(Slot(num, n), Slot(f, n), n) == num - f
  {
    hide Slot;
    var q := Parts(f, n);
    var p := Parts(num, n);
    var x, h := Slot(num, n), Slot(f, n);
    SameRound(n, q, p, x, h);
    RoundTrip(n, n * q, n * p, x, h, num, f);
  }

  lemma RoundTrip(n: nat, a: int, b: int, x: nat, h: nat, num: nat, f: nat)
    requires n > 0 && x < n && h < n && f == a + h && num == b + x && (b == a || b == a + n) && f <= num < f + n
    ensures Slot(n + x - h, n) == num - f
  {
    hide Slot;
    if x >= h {
      ModIs(n + x - h, n, 1, x - h);
    } else {
      ModIs(n + x - h, n, 0, n + x - h);
    }
  }

  ghost predicate OfConsumer(a: Action) {
    a.ReadMsg? || a.MoveHead? || a.DecQueue? || a.FreeHead? || a.DecRing?
  }

  /** Ring r as the consumer may have changed it: it has freed some messages. */
  ghost predicate Drained(s: State, s': State, r: nat) {
    r < |s.rings| == |s'.rings| && var g, g' := s.rings[r], s'.rings[r];
    g'.nitems == g.nitems && g'.tail == g.tail && g'.alloced == g.alloced && g.freed <= g'.freed
  }

  lemma {:induction false} ConsumerOnly(s: State, acts: seq<Action>, r: nat)
    requires Run(s, acts) && (forall i :: 0 <= i < |acts| ==> OfConsumer(acts[i])) && r < |s.rings|
    ensures Drained(s, Exec(s, acts), r) && Exec(s, acts).prod == s.prod
    decreases |acts|
  {
    hide Slot, Next;
    if acts != [] {
      assert OfConsumer(acts[0]);
      ConsumerOnly(Apply(s, acts[0]), acts[1..], r);
    }
  }

  /** Every live message that its ring counts passes the check of svm_msg_q_add, also when the
      consumer frees messages between the read of head and tail and the read of the size. */
  lemma LiveIsValid(s: State, acts: seq<Action>, m: Msg)
    requires Inv(s) && Run(s, acts) && forall i :: 0 <= i < |acts| ==> OfConsumer(acts[i])
    requires m in Live(Exec(s, acts)) && !(s.prod.Took? && s.prod.m.ring == m.ring)
    ensures m.ring < |s.rings| == |Exec(s, acts).rings|
    ensures var g := s.rings[m.ring];
            g.nitems > 0 && g.head <= g.nitems && PassesCheck(g.head, g.tail, Exec(s, acts).rings[m.ring].cursize, g.nitems, m.elt)
  {
    hide Live, Nums, QueueOk, Slot, Consecutive, Distance, Apply, Enabled;
    var s' := Exec(s, acts);
    RunSafe(s, acts);
    LiveRange(s', m);
    RingsSame(s, acts);
    ConsumerOnly(s, acts, m.ring);
    assert RingOk(s, m.ring) && RingOk(s', m.ring);
    var g := s.rings[m.ring];
    DistanceIs(m.num, g.freed, g.nitems);
    if g.alloced - g.freed == g.nitems {
      SlotAround(g.freed, g.nitems);
    } else {
      DistanceIs(g.alloced, g.freed, g.nitems);
      SlotsDiffer(g.freed, g.alloced, g.nitems);
    }
  }

  lemma {:induction false} RingsSame(s: State, acts: seq<Action>)
    requires Run(s, acts)
    ensures |Exec(s, acts).rings| == |s.rings|
    decreases |acts|
  {
    if acts != [] {
      RingsSame(Apply(s, acts[0]), acts[1..]);
    }
  }

  lemma SlotAround(f: nat, n: nat)
    requires n > 0
    ensures Slot(f + n, n) == Slot(f, n)
  {
    hide Slot;
    var q := Parts(f, n);
    assert n * (q + 1) == n * q + n;
    ModIs(f + n, n, q + 1, Slot(f, n));
  }

  /** What svm_msg_q_init sets up. */
  ghost function Init(nitems: seq<nat>, data: seq<Msg>): State {
    State(seq(|nitems|, i requires 0 <= i < |nitems| => Ring(0, 0, 0, nitems[i], 0, 0)), Queue(0, 0, 0, |data|, data), Unlocked, Idle, [], [], 0)
  }

  lemma InitOk(nitems: seq<nat>, data: seq<Msg>)
    requires data != [] && (forall i :: 0 <= i < |nitems| ==> nitems[i] > 0)
    ensures Inv(Init(nitems, data))
  {
    var s := Init(nitems, data);
    assert Live(s) == [];
    forall r: nat | r < |s.rings| ensures RingOk(s, r) {
      assert s.rings[r].nitems > 0;
    }
  }

  /** What a step does to the messages: one joins the queue, the consumer gets one or frees one. */
  datatype Op = Sent(m: Msg) | Got(m: Msg) | Freed(m: Msg) | Nothing

  ghost function OpOf(s: State, a: Action): Op
    requires Enabled(s, a)
  {
    if a.MoveTail? then Sent(s.prod.m)
    else if a.DecQueue? then Got(s.cons.m)
    else if a.DecRing? then Freed(s.cons.m)
    else Nothing
  }

  /** The messages sent and not yet received. */
  ghost function Pending(s: State): seq<Msg> {
    (if s.cons.MovedHead? then [s.cons.m] else []) + s.content
  }

  /** A queue: what is sent joins at the end, what is received comes from the front and joins what
      the consumer holds, and what is freed is what it has held longest. */
  ghost predicate QueueOp(op: Op, pending: seq<Msg>, held: seq<Msg>, pending': seq<Msg>, held': seq<Msg>) {
    match op
    case Sent(m) => pending' == pending + [m] && held' == held
    case Got(m) => pending == [m] + pending' && held' == held + [m]
    case Freed(m) => pending' == pending && held == [m] + held'
    case Nothing => pending' == pending && held' == held
  }

  lemma StepIsAtomic(s: State, a: Action)
    requires Inv(s) && Enabled(s, a)
    ensures QueueOp(OpOf(s, a), Pending(s), s.held, Pending(Apply(s, a)), Apply(s, a).held)
  {
    hide RingOk, SlotOk, Slot, ContentAt, Live;
    if a.MoveHead? {
      assert s.content == [s.content[0]] + s.content[1..];
    }
  }

  ghost function OpsOf(s: State, acts: seq<Action>): seq<Op>
    requires Run(s, acts)
    decreases |acts|
  {
    if acts == [] then [] else [OpOf(s, acts[0])] + OpsOf(Apply(s, acts[0]), acts[1..])
  }

  /** The messages of those operations that send, receive or free, in order. */
  ghost function Sents(ops: seq<Op>): seq<Msg>
    decreases |ops|
  {
    if ops == [] then [] else (if ops[0].Sent? then [ops[0].m] else []) + Sents(ops[1..])
  }

  ghost function Gots(ops: seq<Op>): seq<Msg>
    decreases |ops|
  {
    if ops == [] then [] else (if ops[0].Got? then [ops[0].m] else []) + Gots(ops[1..])
  }

  ghost function Freeds(ops: seq<Op>): seq<Msg>
    decreases |ops|
  {
    if ops == [] then [] else (if ops[0].Freed? then [ops[0].m] else []) + Freeds(ops[1..])
  }

  /** In every interleaving messages are received in the order in which they were sent, and freed in
      the order in which they were received, each once and none in between is lost. */
  lemma {:induction false} RunIsQueue(s: State, acts: seq<Action>)
    requires Inv(s) && Run(s, acts)
    ensures var s', ops := Exec(s, acts), OpsOf(s, acts);
            Pending(s) + Sents(ops) == Gots(ops) + Pending(s') && s.held + Gots(ops) == Freeds(ops) + s'.held
    decreases |acts|
  {
    hide Inv, Enabled, Apply, OpOf, Pending;
    if acts != [] {
      var s1 := Apply(s, acts[0]);
      StepKeeps(s, acts[0]);
      StepIsAtomic(s, acts[0]);
      RunIsQueue(s1, acts[1..]);
      var ops, rest := OpsOf(s, acts), OpsOf(s1, acts[1..]);
      assert ops == [OpOf(s, acts[0])] + rest && ops[1..] == rest;
      QueueStep(OpOf(s, acts[0]), rest, Pending(s), s.held, Pending(s1), s1.held, Pending(Exec(s, acts)), Exec(s, acts).held);
    }
  }

  lemma QueueStep(op: Op, rest: seq<Op>, p: seq<Msg>, h: seq<Msg>, p1: seq<Msg>, h1: seq<Msg>, p': seq<Msg>, h': seq<Msg>)
    requires QueueOp(op, p, h, p1, h1) && p1 + Sents(rest) == Gots(rest) + p' && h1 + Gots(rest) == Freeds(rest) + h'
    ensures var ops := [op] + rest; p + Sents(ops) == Gots(ops) + p' && h + Gots(ops) == Freeds(ops) + h'
  {
    var ops := [op] + rest;
    assert ops[1..] == rest;
    var s, g, f := if op.Sent? then [op.m] else [], if op.Got? then [op.m] else [], if op.Freed? then [op.m] else [];
    assert Sents(ops) == s + Sents(rest) && Gots(ops) == g + Gots(rest) && Freeds(ops) == f + Freeds(rest);
    assert p + s == g + p1 && h + g == f + h1;
    hide QueueOp, Sents, Gots, Freeds;
    Through(p, s, Sents(rest), g, Gots(rest), p1, p');
    Through(h, g, Gots(rest), f, Freeds(rest), h1, h');
  }

  lemma Through(p: seq<Msg>, x: seq<Msg>, xs: seq<Msg>, y: seq<Msg>, ys: seq<Msg>, p1: seq<Msg>, p': seq<Msg>)
    requires p + x == y + p1 && p1 + xs == ys + p'
    ensures p + (x + xs) == (y + ys) + p'
  {
    assert p + (x + xs) == (p + x) + xs;
    assert (y + p1) + xs == y + (p1 + xs);
    assert y + (ys + p') == (y + ys) + p';
  }

  /** A producer is in its call up to the end of the run. */
  ghost predicate Busy(s: State, acts: seq<Action>)
    requires Run(s, acts)
    decreases |acts|
  {
    acts != [] ==> !s.prod.Unlocked? && Busy(Apply(s, acts[0]), acts[1..])
  }

  /** What a call for ring r has done so far: whether it has chosen its slot, which is the one after
      the first k that the ring handed out, and whether it has sent it. */
  ghost predicate Inside(s: State, r: nat, k: nat, sent: seq<Msg>) {
    && r < |s.rings| && s.rings[r].nitems > 0
    && match s.prod
       case Unlocked => false
       case Locked(x) => x == r && s.rings[r].alloced == k && sent == []
       case QueueChecked(x) => x == r && s.rings[r].alloced == k && sent == []
       case RingChecked(x) => x == r && s.rings[r].alloced == k && sent == []
       case Took(m) => m == Msg(r, Slot(k, s.rings[r].nitems), k) && s.rings[r].alloced == k + 1 && sent == []
       case Alloced(m) => m == Msg(r, Slot(k, s.rings[r].nitems), k) && s.rings[r].alloced == k + 1 && sent == []
       case Wrote(m) => m == Msg(r, Slot(k, s.rings[r].nitems), k) && s.rings[r].alloced == k + 1 && sent == []
       case MovedTail => s.rings[r].alloced == k + 1 && sent == [Msg(r, Slot(k, s.rings[r].nitems), k)]
       case Added => s.rings[r].alloced == k + 1 && sent == [Msg(r, Slot(k, s.rings[r].nitems), k)]
  }

  /** How a call for ring r ends: it has sent exactly one message, in the next slot of the ring, or it
      has found the queue or the ring full and has taken none. */
  ghost predicate Ended(s: State, r: nat, k: nat, sent: seq<Msg>, full: bool) {
    && r < |s.rings| && s.rings[r].nitems > 0
    && if full then s.rings[r].alloced == k && sent == []
       else s.rings[r].alloced == k + 1 && sent == [Msg(r, Slot(k, s.rings[r].nitems), k)]
  }

  lemma CallStep(s: State, a: Action, r: nat, k: nat, sent: seq<Msg>)
    requires Inv(s) && Enabled(s, a) && Inside(s, r, k, sent)
    ensures var s', more := Apply(s, a), sent + (if OpOf(s, a).Sent? then [OpOf(s, a).m] else []);
            if s'.prod.Unlocked? then Ended(s', r, k, more, a.GiveUp?) && (a.GiveUp? ==> Full(s)) else Inside(s', r, k, more)
  {
    assert RingOk(s, r);
    TailIs(s, r);
    hide Inv, RingOk, Slot, Next;
    if OfConsumer(a) {
      OthersStep(s, a, r);
      assert sent + [] == sent;
    } else {
      HoldersStep(s, a, r, k, sent);
    }
  }

  lemma OthersStep(s: State, a: Action, r: nat)
    requires Enabled(s, a) && OfConsumer(a) && r < |s.rings|
    ensures var s' := Apply(s, a);
            |s'.rings| == |s.rings| && s'.prod == s.prod && s'.rings[r].alloced == s.rings[r].alloced && s'.rings[r].nitems == s.rings[r].nitems && !OpOf(s, a).Sent?
  {
    hide Slot, Next;
  }

  lemma HoldersStep(s: State, a: Action, r: nat, k: nat, sent: seq<Msg>)
    requires Enabled(s, a) && !OfConsumer(a) && Inside(s, r, k, sent) && s.rings[r].tail == Slot(s.rings[r].alloced, s.rings[r].nitems)
    ensures var s', more := Apply(s, a), sent + (if OpOf(s, a).Sent? then [OpOf(s, a).m] else []);
            if s'.prod.Unlocked? then Ended(s', r, k, more, a.GiveUp?) && (a.GiveUp? ==> Full(s)) else Inside(s', r, k, more)
  {
    hide Slot, Next;
  }

  lemma TailIs(s: State, r: nat)
    requires r < |s.rings| && RingOk(s, r)
    ensures s.rings[r].nitems > 0 && s.rings[r].tail == Slot(s.rings[r].alloced, s.rings[r].nitems)
  {
    hide Nums, Live, Consecutive, Slot;
  }

  /** From any point of a call to its end. */
  lemma {:induction false} CallGoesOn(s: State, acts: seq<Action>, r: nat, k: nat, sent: seq<Msg>)
    requires Inv(s) && Run(s, acts) && Inside(s, r, k, sent) && Busy(s, acts) && Exec(s, acts).prod.Unlocked?
    ensures acts != [] && Ended(Exec(s, acts), r, k, sent + Sents(OpsOf(s, acts)), acts[|acts| - 1].GiveUp?)
    decreases |acts|
  {
    hide Inv, Enabled, Apply, OpOf, Ended;
    assert !s.prod.Unlocked?;
    var s' := Apply(s, acts[0]);
    StepKeeps(s, acts[0]);
    CallStep(s, acts[0], r, k, sent);
    var more := sent + (if OpOf(s, acts[0]).Sent? then [OpOf(s, acts[0]).m] else []);
    assert OpsOf(s, acts)[1..] == OpsOf(s', acts[1..]);
    if s'.prod.Unlocked? {
      assert acts[1..] == [];
      assert sent + Sents(OpsOf(s, acts)) == more;
    } else {
      CallGoesOn(s', acts[1..], r, k, more);
      assert sent + Sents(OpsOf(s, acts)) == more + Sents(OpsOf(s', acts[1..]));
    }
  }

  /** Every call of a producer, from the lock to its release, sends exactly one message of the ring it
      asked for, in the slot after those handed out before, or has found the queue or that ring full
      and has taken nothing. */
  lemma EveryCall(s: State, before: seq<Action>, r: nat, acts: seq<Action>)
    requires Inv(s) && Run(s, before)
    requires var s0 := Exec(s, before);
             && Run(s0, [Lock(r)] + acts) && Run(Apply(s0, Lock(r)), acts) && Busy(Apply(s0, Lock(r)), acts) && Exec(s0, [Lock(r)] + acts).prod.Unlocked?
    ensures var s0 := Exec(s, before);
            && acts != [] && r < |s0.rings|
            && Ended(Exec(s0, [Lock(r)] + acts), r, s0.rings[r].alloced, Sents(OpsOf(s0, [Lock(r)] + acts)), acts[|acts| - 1].GiveUp?)
  {
    hide Inv, Enabled, Apply, HolderGoesOn, ConsumerGoesOn, Inside, Ended;
    RunSafe(s, before);
    var s0 := Exec(s, before);
    StepKeeps(s0, Lock(r));
    CallBegins(s0, r);
    var s1 := Apply(s0, Lock(r));
    assert ([Lock(r)] + acts)[1..] == acts && OpsOf(s0, [Lock(r)] + acts)[1..] == OpsOf(s1, acts);
    CallGoesOn(s1, acts, r, s0.rings[r].alloced, []);
    assert [] + Sents(OpsOf(s1, acts)) == Sents(OpsOf(s0, [Lock(r)] + acts));
  }

  lemma CallBegins(s: State, r: nat)
    requires Inv(s) && Enabled(s, Lock(r))
    ensures r < |s.rings| && Inside(Apply(s, Lock(r)), r, s.rings[r].alloced, []) && OpOf(s, Lock(r)) == Nothing
  {
    assert RingOk(s, r);
    hide Inv, RingOk;
    TailIs(s, r);
  }

  /** The consumer is in a call up to the end of the run. */
  ghost predicate Consuming(s: State, acts: seq<Action>)
    requires Run(s, acts)
    decreases |acts|
  {
    acts != [] ==> !s.cons.Idle? && Consuming(Apply(s, acts[0]), acts[1..])
  }

  /** What a step of the consumer does with message m, which it receives or frees: it goes on with m,
      or it is done with it. */
  lemma ConsumeStep(s: State, a: Action, m: Msg, free: bool)
    requires Inv(s) && Enabled(s, a) && !s.cons.Idle? && s.cons.m == m && (s.cons.Freeing? <==> free)
    ensures var s', op := Apply(s, a), OpOf(s, a);
            if s'.cons.Idle? then op == (if free then Freed(m) else Got(m))
            else !op.Got? && !op.Freed? && s'.cons.m == m && (s'.cons.Freeing? <==> free)
  {
    hide Inv, Slot, Next;
  }

  lemma {:induction false} ConsumeGoesOn(s: State, acts: seq<Action>, m: Msg, free: bool)
    requires Inv(s) && Run(s, acts) && !s.cons.Idle? && s.cons.m == m && (s.cons.Freeing? <==> free) && Consuming(s, acts) && Exec(s, acts).cons.Idle?
    ensures var ops := OpsOf(s, acts); Gots(ops) == (if free then [] else [m]) && Freeds(ops) == if free then [m] else []
    decreases |acts|
  {
    hide Inv, Enabled, Apply, OpOf;
    assert acts != [];
    var s' := Apply(s, acts[0]);
    StepKeeps(s, acts[0]);
    ConsumeStep(s, acts[0], m, free);
    assert OpsOf(s, acts)[1..] == OpsOf(s', acts[1..]);
    if s'.cons.Idle? {
      assert acts[1..] == [];
    } else {
      ConsumeGoesOn(s', acts[1..], m, free);
    }
  }

  /** Every call of the consumer receives exactly one message, the first in the queue, or frees exactly
      one, the one that it has held longest. */
  lemma EveryConsume(s: State, before: seq<Action>, a: Action, acts: seq<Action>)
    requires Inv(s) && Run(s, before) && (a.ReadMsg? || a.FreeHead?)
    requires var s0 := Exec(s, before);
             && Run(s0, [a] + acts) && Run(Apply(s0, a), acts) && Consuming(Apply(s0, a), acts) && Exec(s0, [a] + acts).cons.Idle?
    ensures var s0 := Exec(s, before);
            var ops := OpsOf(s0, [a] + acts);
            && (a.ReadMsg? ==> Pending(s0) != [] && Gots(ops) == [Pending(s0)[0]] && Freeds(ops) == [])
            && (a.FreeHead? ==> s0.held != [] && Gots(ops) == [] && Freeds(ops) == [s0.held[0]])
  {
    hide Inv, Enabled, Apply, HolderGoesOn, ConsumerGoesOn, Pending;
    RunSafe(s, before);
    var s0 := Exec(s, before);
    StepKeeps(s0, a);
    ConsumeBegins(s0, a);
    var s1 := Apply(s0, a);
    assert ([a] + acts)[1..] == acts && OpsOf(s0, [a] + acts)[1..] == OpsOf(s1, acts);
    ConsumeGoesOn(s1, acts, s1.cons.m, a.FreeHead?);
  }

  lemma ConsumeBegins(s: State, a: Action)
    requires Inv(s) && Enabled(s, a) && (a.ReadMsg? || a.FreeHead?)
    ensures var s' := Apply(s, a);
            && !s'.cons.Idle? && (s'.cons.Freeing? <==> a.FreeHead?) && OpOf(s, a) == Nothing
            && (a.ReadMsg? ==> Pending(s) != [] && s'.cons.m == Pending(s)[0]) && (a.FreeHead? ==> s.held != [] && s'.cons.m == s.held[0])
  {
    hide RingOk, SlotOk, Slot, Next, Live;
    if a.ReadMsg? {
      assert ContentAt(s, 0);
    }
  }

  lemma {:induction false} NumHas(ms: seq<Msg>, r: nat, k: nat) returns (m: Msg)
    requires k in Nums(ms, r)
    ensures m in ms && m.ring == r && m.num == k
    decreases |ms|
  {
    var last, front := ms[|ms| - 1], ms[..|ms| - 1];
    if last.ring == r && last.num == k {
      m := last;
    } else {
      assert k in Nums(front, r);
      m := NumHas(front, r, k);
    }
  }

  /** The number of the message that slot x would have. */
  lemma SlotNumber(f: nat, x: nat, n: nat)
    requires n > 0 && x < n
    ensures Slot(f, n) <= n && Slot(f + Distance(x, Slot(f, n), n), n) == x && Distance(x, Slot(f, n), n) < n
  {
    hide Slot;
    var q := Parts(f, n);
    var h := Slot(f, n);
    if x >= h {
      ModIs(n + x - h, n, 1, x - h);
      ModIs(f + (x - h), n, q, x);
    } else {
      ModIs(n + x - h, n, 0, n + x - h);
      assert n * (q + 1) == n * q + n;
      ModIs(f + (n + x - h), n, q + 1, x);
    }
  }

  /** While nothing is being allocated or freed, the check passes exactly the slots that live messages have. */
  lemma ValidIsLive(s: State, r: nat, x: nat)
    requires Inv(s) && r < |s.rings| && x < s.rings[r].nitems
    requires !(s.prod.Took? && s.prod.m.ring == r) && !(s.cons.Freeing? && s.cons.m.ring == r)
    ensures s.rings[r].head <= s.rings[r].nitems
    ensures var g := s.rings[r];
            PassesCheck(g.head, g.tail, g.cursize, g.nitems, x) <==> exists m :: m in Live(s) && m.ring == r && m.elt == x
  {
    hide Live, Nums, QueueOk, Slot, Distance;
    assert RingOk(s, r);
    var g := s.rings[r];
    SlotNumber(g.freed, x, g.nitems);
    var d := Distance(x, g.head, g.nitems);
    CheckIs(g.freed, g.alloced, g.nitems, g.cursize, x);
    if d < g.alloced - g.freed {
      assert Nums(Live(s), r)[d] == g.freed + d;
      var m := NumHas(Live(s), r, g.freed + d);
      assert SlotOk(s, m);
      assert m in Live(s) && m.ring == r && m.elt == x;
    }
    if m :| m in Live(s) && m.ring == r && m.elt == x {
      LiveRange(s, m);
      DistanceIs(m.num, g.freed, g.nitems);
    }
  }

  lemma CheckIs(f: nat, a: nat, n: nat, cursize: int, x: nat)
    requires n > 0 && x < n && f <= a <= f + n && cursize == a - f && Slot(f, n) <= n && Distance(x, Slot(f, n), n) < n
    ensures PassesCheck(Slot(f, n), Slot(a, n), cursize, n, x) <==> Distance(x, Slot(f, n), n) < a - f
  {
    hide Slot, Distance;
    if a == f + n {
      SlotAround(f, n);
    } else if a > f {
      DistanceIs(a, f, n);
      SlotsDiffer(f, a, n);
    }
  }
}
