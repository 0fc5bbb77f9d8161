/** The lock-free free list of chunks (src/svm/fifo_segment.c:137-221): a linked stack whose
    head word carries a 16-bit tag above the pointer. Any number of threads push, push lists
    and pop in small steps, and an owner may write the next pointers of chunks it holds. */
module TaggedStack {
  import opened Sequences

  const MASK: nat := 0x1_0000_0000_0000
  const TAGS: nat := 0x1_0000
  const WORD: nat := 0x1_0000_0000_0000_0000

  function Ptr(w: nat): nat {
    w % MASK
  }

  function Tag(w: nat): nat {
    w / MASK
  }

  /** The head word that puts p in front of a list whose head word was seen: the pointer plus
      the tag bits of seen, incremented, in 64-bit arithmetic. */
  function NewHead(p: nat, seen: nat): nat {
    (p + (seen + MASK) % WORD / MASK * MASK) % WORD
  }

  lemma NewHeadParts(p: nat, seen: nat)
    requires p < MASK && seen < WORD
    ensures Ptr(NewHead(p, seen)) == p && Tag(NewHead(p, seen)) == (Tag(seen) + 1) % TAGS && NewHead(p, seen) < WORD
  {
    var t := (seen + MASK) % WORD / MASK;
    if seen + MASK < WORD {
      assert (seen + MASK) / MASK == seen / MASK + 1;
    } else {
      assert (seen + MASK) % WORD == seen + MASK - WORD;
      assert (seen + MASK - WORD) / MASK == seen / MASK + 1 - TAGS;
    }
    assert p + t * MASK < WORD;
    assert (p + t * MASK) / MASK == t && (p + t * MASK) % MASK == p;
  }

  datatype Pc = Idle | PushLoaded | PushLinked | PopLoaded | PopRead

  /** A thread: the head word it last saw, the next pointer it read, the chunks it pushes and
      those it holds. The number of operations done when it loaded the head is history. */
  datatype Thread = Thread(pc: Pc, seen: nat, nxt: nat, list: seq<nat>, owned: set<nat>, loadVer: nat)

  /** The head word, the next pointers, the threads; the stack that the list should be and the
      number of successful operations are history. */
  datatype State = State(head: nat, next: map<nat, nat>, threads: seq<Thread>, stack: seq<nat>, ver: nat)

  datatype Action =
    | Scribble(t: nat, c: nat, v: nat)
    | StartPush(t: nat, list: seq<nat>)
    | Link(t: nat)
    | PushCas(t: nat)
    | StartPop(t: nat)
    | ReadNext(t: nat)
    | PopCas(t: nat)


  /** The i-th element, or null. */
  function At(s: seq<nat>, i: nat): nat {
    if i < |s| then s[i] else 0
  }

  ghost predicate LinkedAt(next: map<nat, nat>, s: seq<nat>, i: nat)
    requires i < |s|
  {
    s[i] in next && next[s[i]] == At(s, i + 1)
  }

  /** A list all of whose chunks but the last are linked. */
  ghost predicate Chained(next: map<nat, nat>, s: seq<nat>) {
    NoRepeats(s) && forall i: nat :: i < |s| - 1 ==> LinkedAt(next, s, i)
  }

  ghost predicate Enabled(s: State, a: Action) {
    && a.t < |s.threads|
    && var th := s.threads[a.t];
       match a
       case Scribble(_, c, _) => c in th.owned && c !in th.list
       case StartPush(_, list) => th.pc == Idle && list != [] && Chained(s.next, list) && (forall c :: c in list ==> c in th.owned)
       case Link(_) => th.pc == PushLoaded
       case PushCas(_) => th.pc == PushLinked
       case StartPop(_) => th.pc == Idle
       case ReadNext(_) => th.pc == PopLoaded
       case PopCas(_) => th.pc == PopRead
  }

  function With(s: State, t: nat, th: Thread): State
    requires t < |s.threads|
  {
    s.(threads := s.threads[t := th])
  }

  /** One step. A compare-and-swap that fails loads the head again. */
  ghost function Apply(s: State, a: Action): State
    requires Enabled(s, a)
  {
    var th := s.threads[a.t];
    match a
    case Scribble(t, c, v) => s.(next := s.next[c := v])
    case StartPush(t, list) => With(s, t, th.(pc := PushLoaded, seen := s.head, list := list, loadVer := s.ver))
    case Link(t) => With(s.(next := if th.list == [] then s.next else s.next[th.list[|th.list| - 1] := Ptr(th.seen)]), t, th.(pc := PushLinked))
    case PushCas(t) =>
      if s.head == th.seen then
        With(s.(head := NewHead(At(th.list, 0), th.seen), stack := th.list + s.stack, ver := s.ver + 1), t,
             th.(pc := Idle, list := [], owned := th.owned - (set c | c in th.list)))
      else
        With(s, t, th.(pc := PushLoaded, seen := s.head, loadVer := s.ver))
    case StartPop(t) => With(s, t, th.(pc := PopLoaded, seen := s.head, loadVer := s.ver))
    case ReadNext(t) =>
      if Ptr(th.seen) == 0 then
        With(s, t, th.(pc := Idle))
      else
        With(s, t, th.(pc := PopRead, nxt := if Ptr(th.seen) in s.next then s.next[Ptr(th.seen)] else 0))
    case PopCas(t) =>
      if s.head == th.seen then
        With(s.(head := NewHead(th.nxt, th.seen), stack := if s.stack == [] then [] else s.stack[1..], ver := s.ver + 1), t,
             th.(pc := Idle, owned := th.owned + {Ptr(th.seen)}))
      else
        With(s, t, th.(pc := PopLoaded, seen := s.head, loadVer := s.ver))
  }

  /** The list in memory is the stack, and it ends with null. */
  ghost predicate ListIs(s: State) {
    && s.head < WORD && Ptr(s.head) == At(s.stack, 0) && Tag(s.head) == s.ver % TAGS
    && NoRepeats(s.stack) && (forall i: nat :: i < |s.stack| ==> LinkedAt(s.next, s.stack, i))
  }

  ghost predicate Covered(s: State) {
    forall c :: c in s.next ==> c in s.stack || exists t: nat :: t < |s.threads| && c in s.threads[t].owned
  }

  ghost predicate Apart(s: State) {
    forall t: nat, c :: t < |s.threads| && c in s.threads[t].owned ==> c in s.next && c !in s.stack
  }

  ghost predicate Exclusive(s: State) {
    forall t: nat, u: nat, c :: t < |s.threads| && u < |s.threads| && c in s.threads[t].owned && c in s.threads[u].owned ==> t == u
  }

  /** Every chunk is on the stack or held by one thread, and not both. */
  ghost predicate Partitioned(s: State) {
    && (forall c :: c in s.next ==> 0 < c < MASK)
    && (forall c :: c in s.stack ==> c in s.next)
    && Covered(s) && Apart(s) && Exclusive(s)
  }

  /** What a thread knows: its load is dated, and if nothing has happened since, it is current. */
  ghost predicate ThreadOk(s: State, th: Thread) {
    && (th.pc != Idle ==> th.seen < WORD && th.loadVer <= s.ver && Tag(th.seen) == th.loadVer % TAGS && (th.loadVer == s.ver ==> th.seen == s.head))
    && (th.pc != Idle && Ptr(th.seen) != 0 ==> Ptr(th.seen) in s.next)
    && (th.pc.PushLoaded? || th.pc.PushLinked? ==> th.list != [] && Chained(s.next, th.list))
    && (th.pc.Idle? || th.pc.PopLoaded? || th.pc.PopRead? ==> th.list == [])
    && (forall c :: c in th.list ==> c in th.owned)
    && (th.pc == PushLinked ==> s.next.Keys >= {th.list[|th.list| - 1]} && s.next[th.list[|th.list| - 1]] == Ptr(th.seen))
    && (th.pc == PopRead ==> Ptr(th.seen) != 0)
    && (th.pc == PopRead && th.loadVer == s.ver ==> Ptr(th.seen) in s.next && s.next[Ptr(th.seen)] == th.nxt)
  }

  ghost predicate Inv(s: State) {
    ListIs(s) && Partitioned(s) && forall t: nat :: t < |s.threads| ==> ThreadOk(s, s.threads[t])
  }

  /** Fewer than 2^16 operations have succeeded since the thread loaded the head. */
  ghost predicate Timely(s: State, t: nat)
    requires t < |s.threads|
  {
    s.ver - s.threads[t].loadVer < TAGS
  }

  /** A compare-and-swap that succeeds in time has seen the current list. */
  lemma NoAba(s: State, t: nat)
    requires Inv(s) && t < |s.threads| && s.threads[t].pc != Idle && Timely(s, t) && s.head == s.threads[t].seen
    ensures s.threads[t].loadVer == s.ver
  {
    var th := s.threads[t];
    assert ThreadOk(s, th);
    assert s.ver % TAGS == th.loadVer % TAGS;
    SameTag(s.ver, th.loadVer);
  }

  lemma SameTag(a: nat, b: nat)
    requires b <= a && a - b < TAGS && a % TAGS == b % TAGS
    ensures a == b
  {
    assert a - b == TAGS * (a / TAGS - b / TAGS);
  }

  /** A thread that does not move keeps what it knows. */
  lemma OtherThread(s: State, s': State, u: nat)
    requires Inv(s) && u < |s.threads| == |s'.threads| && s'.threads[u] == s.threads[u]
    requires s.ver <= s'.ver && s'.next.Keys == s.next.Keys
    requires s'.ver == s.ver ==> s'.head == s.head && (forall c :: c in s.stack ==> s'.next[c] == s.next[c])
    requires forall c :: c in s.threads[u].owned && c in s.next ==> s'.next[c] == s.next[c]
    ensures ThreadOk(s', s'.threads[u])
  {
    var th := s.threads[u];
    assert ThreadOk(s, th);
    if th.pc == PopRead && th.loadVer == s'.ver {
      assert Ptr(th.seen) == At(s.stack, 0);
    }
    forall i: nat | i < |th.list| - 1 && Chained(s.next, th.list) ensures LinkedAt(s'.next, th.list, i) {
      assert LinkedAt(s.next, th.list, i) && th.list[i] in th.list;
    }
    if th.pc == PushLinked {
      assert th.list[|th.list| - 1] in th.list;
    }
  }

  /** Ownership depends on the chunks, the stack and the threads' holdings only. */
  lemma SameOwners(s: State, s': State)
    requires Partitioned(s) && s'.next.Keys == s.next.Keys && s'.stack == s.stack && |s'.threads| == |s.threads|
    requires forall t: nat :: t < |s.threads| ==> s'.threads[t].owned == s.threads[t].owned
    ensures Partitioned(s')
  {
    forall c | c in s'.next ensures c in s'.stack || exists u: nat :: u < |s'.threads| && c in s'.threads[u].owned {
      if c !in s.stack {
        var u: nat :| u < |s.threads| && c in s.threads[u].owned;
        assert c in s'.threads[u].owned;
      }
    }
    forall t: nat, u: nat, c | t < |s'.threads| && u < |s'.threads| && c in s'.threads[t].owned && c in s'.threads[u].owned ensures t == u {
      assert c in s.threads[t].owned && c in s.threads[u].owned;
    }
  }

  /** A step that changes only what thread t knows. */
  lemma LocalStep(s: State, t: nat, th: Thread)
    requires Inv(s) && t < |s.threads| && th.owned == s.threads[t].owned && ThreadOk(s, th)
    ensures Inv(With(s, t, th))
  {
    var s' := With(s, t, th);
    hide Partitioned;
    SameOwners(s, s');
    forall u: nat | u < |s'.threads| ensures ThreadOk(s', s'.threads[u]) {
      assert ThreadOk(s, s.threads[u]);
    }
  }

  /** Thread t writes the next pointer of a chunk that it holds. */
  lemma OwnWrite(s: State, t: nat, c: nat, v: nat, th: Thread)
    requires Inv(s) && t < |s.threads| && c in s.threads[t].owned && th.owned == s.threads[t].owned
    requires ThreadOk(s.(next := s.next[c := v]), th)
    ensures Inv(With(s.(next := s.next[c := v]), t, th))
  {
    var s' := With(s.(next := s.next[c := v]), t, th);
    assert c in s.next && c !in s.stack;
    assert s'.next.Keys == s.next.Keys;
    forall i: nat | i < |s'.stack| ensures LinkedAt(s'.next, s'.stack, i) {
      assert LinkedAt(s.next, s.stack, i) && s.stack[i] in s.stack;
    }
    SameOwners(s, s');
    forall u: nat | u < |s'.threads| ensures ThreadOk(s', s'.threads[u]) {
      if u != t {
        OtherThread(s, s', u);
      }
    }
  }

  lemma ScribbleKeeps(s: State, a: Action)
    requires Inv(s) && Enabled(s, a) && a.Scribble?
    ensures Inv(Apply(s, a))
  {
    var th := s.threads[a.t];
    var s1 := s.(next := s.next[a.c := a.v]);
    assert ThreadOk(s, th);
    forall i: nat | i < |th.list| - 1 && Chained(s.next, th.list) ensures LinkedAt(s1.next, th.list, i) {
      assert LinkedAt(s.next, th.list, i) && th.list[i] in th.list;
    }
    if th.pc == PushLinked {
      assert th.list[|th.list| - 1] in th.list;
    }
    if th.pc == PopRead && th.loadVer == s.ver {
      assert Ptr(th.seen) == At(s.stack, 0);
    }
    OwnWrite(s, a.t, a.c, a.v, th);
    assert s1.threads[a.t := th] == s1.threads;
  }

  lemma LinkKeeps(s: State, a: Action)
    requires Inv(s) && Enabled(s, a) && a.Link?
    ensures Inv(Apply(s, a))
  {
    hide Inv, ThreadOk;
    LinkKnows(s, a);
    var th := s.threads[a.t];
    OwnWrite(s, a.t, th.list[|th.list| - 1], Ptr(th.seen), th.(pc := PushLinked));
  }

  /** What the thread knows once it has linked the last chunk of its list. */
  lemma LinkKnows(s: State, a: Action)
    requires Inv(s) && Enabled(s, a) && a.Link?
    ensures var th := s.threads[a.t];
            && th.list != [] && th.list[|th.list| - 1] in th.owned
            && ThreadOk(s.(next := s.next[th.list[|th.list| - 1] := Ptr(th.seen)]), th.(pc := PushLinked))
  {
    hide ListIs, Partitioned, Ptr, Tag;
    var th := s.threads[a.t];
    assert ThreadOk(s, th);
    var last := th.list[|th.list| - 1];
    assert last in th.list;
    var next := s.next[last := Ptr(th.seen)];
    forall i: nat | i < |th.list| - 1 ensures LinkedAt(next, th.list, i) {
      assert LinkedAt(s.next, th.list, i);
    }
  }

  lemma LoadKeeps(s: State, a: Action)
    requires Inv(s) && Enabled(s, a) && (a.StartPush? || a.StartPop? || a.ReadNext?)
    ensures Inv(Apply(s, a))
  {
    var th := s.threads[a.t];
    assert ThreadOk(s, th);
    HeadOnStack(s);
    LocalStep(s, a.t, Apply(s, a).threads[a.t]);
  }

  lemma HeadOnStack(s: State)
    requires Inv(s)
    ensures Ptr(s.head) != 0 ==> Ptr(s.head) in s.next && s.stack != [] && Ptr(s.head) == s.stack[0]
  {
    if Ptr(s.head) != 0 {
      assert s.stack[0] in s.stack;
    }
  }

  lemma FailedCasKeeps(s: State, a: Action)
    requires Inv(s) && Enabled(s, a) && (a.PushCas? || a.PopCas?) && s.head != s.threads[a.t].seen
    ensures Inv(Apply(s, a))
  {
    var th := s.threads[a.t];
    assert ThreadOk(s, th);
    HeadOnStack(s);
    LocalStep(s, a.t, Apply(s, a).threads[a.t]);
  }

  /** A successful push in time: the list in memory is the pushed list on top of the old stack. */
  lemma PushList(s: State, a: Action)
    requires Inv(s) && Enabled(s, a) && a.PushCas? && s.head == s.threads[a.t].seen && Timely(s, a.t)
    ensures ListIs(Apply(s, a))
  {
    var th := s.threads[a.t];
    assert ThreadOk(s, th);
    NoAba(s, a.t);
    var all := th.list + s.stack;
    assert th.list[0] in th.list;
    assert th.list[0] in s.next;
    NewHeadParts(th.list[0], th.seen);
    NextTag(s.ver);
    forall i, j | 0 <= i < j < |all| ensures all[i] != all[j] {
      assert i < |th.list| ==> all[i] in th.list;
      assert j >= |th.list| ==> all[j] in s.stack;
    }
    forall i: nat | i < |all| ensures LinkedAt(s.next, all, i) {
      if i >= |th.list| {
        assert LinkedAt(s.next, s.stack, i - |th.list|);
      } else if i < |th.list| - 1 {
        assert LinkedAt(s.next, th.list, i);
      }
    }
  }

  lemma NextTag(v: nat)
    ensures (v + 1) % TAGS == (v % TAGS + 1) % TAGS
  {
  }

  lemma PushOwners(s: State, a: Action)
    requires Inv(s) && Enabled(s, a) && a.PushCas? && s.head == s.threads[a.t].seen
    ensures Partitioned(Apply(s, a))
  {
    var s' := Apply(s, a);
    var th := s.threads[a.t];
    assert ThreadOk(s, th);
    forall u: nat, c | u < |s'.threads| && c in s'.threads[u].owned ensures c in s.threads[u].owned && (u == a.t ==> c !in th.list) {
    }
    forall c | c in s'.next ensures c in s'.stack || exists u: nat :: u < |s'.threads| && c in s'.threads[u].owned {
      if c !in s'.stack {
        var u: nat :| u < |s.threads| && c in s.threads[u].owned;
        assert c in s'.threads[u].owned;
      }
    }
    forall u: nat, c | u < |s'.threads| && c in s'.threads[u].owned ensures c in s'.next && c !in s'.stack {
      assert c in s.threads[u].owned;
    }
    forall u: nat, w: nat, c | u < |s'.threads| && w < |s'.threads| && c in s'.threads[u].owned && c in s'.threads[w].owned ensures u == w {
      assert c in s.threads[u].owned && c in s.threads[w].owned;
    }
  }

  /** What every thread knows after a successful compare-and-swap of thread t. */
  lemma OthersAfterCas(s: State, s': State, t: nat)
    requires Inv(s) && t < |s.threads| == |s'.threads| && s'.next == s.next && s'.ver == s.ver + 1
    requires forall u: nat :: u < |s.threads| && u != t ==> s'.threads[u] == s.threads[u]
    requires ThreadOk(s', s'.threads[t])
    ensures forall u: nat :: u < |s'.threads| ==> ThreadOk(s', s'.threads[u])
  {
    forall u: nat | u < |s'.threads| ensures ThreadOk(s', s'.threads[u]) {
      if u != t {
        OtherThread(s, s', u);
      }
    }
  }

  lemma PushKeeps(s: State, a: Action)
    requires Inv(s) && Enabled(s, a) && a.PushCas? && Timely(s, a.t)
    ensures Inv(Apply(s, a))
  {
    hide ListIs, Partitioned, NewHead;
    if s.head == s.threads[a.t].seen {
      PushList(s, a);
      PushOwners(s, a);
      assert ThreadOk(Apply(s, a), Apply(s, a).threads[a.t]);
      OthersAfterCas(s, Apply(s, a), a.t);
    } else {
      FailedCasKeeps(s, a);
    }
  }

  /** A successful pop in time takes the top of the stack. */
  lemma PopTakesTop(s: State, a: Action)
    requires Inv(s) && Enabled(s, a) && a.PopCas? && s.head == s.threads[a.t].seen && Timely(s, a.t)
    ensures s.stack != [] && Ptr(s.threads[a.t].seen) == s.stack[0] && s.threads[a.t].nxt == At(s.stack, 1)
  {
    assert ThreadOk(s, s.threads[a.t]);
    NoAba(s, a.t);
    HeadOnStack(s);
    assert LinkedAt(s.next, s.stack, 0);
  }

  lemma PopList(s: State, a: Action)
    requires Inv(s) && Enabled(s, a) && a.PopCas? && s.head == s.threads[a.t].seen && Timely(s, a.t)
    ensures ListIs(Apply(s, a))
  {
    PopTakesTop(s, a);
    var th := s.threads[a.t];
    var rest := s.stack[1..];
    assert |s.stack| > 1 ==> s.stack[1] in s.stack;
    NewHeadParts(th.nxt, th.seen);
    NextTag(s.ver);
    forall i: nat | i < |rest| ensures LinkedAt(s.next, rest, i) {
      assert LinkedAt(s.next, s.stack, i + 1);
    }
  }

  lemma PopOwned(s: State, a: Action, u: nat, c: nat)
    requires Inv(s) && Enabled(s, a) && a.PopCas? && s.head == s.threads[a.t].seen && Timely(s, a.t) && u < |s.threads|
    ensures s.stack != [] && s.stack[0] in s.stack && s.stack[0] !in s.stack[1..]
    ensures c in Apply(s, a).threads[u].owned <==> c in s.threads[u].owned || (u == a.t && c == s.stack[0])
  {
    PopTakesTop(s, a);
  }

  lemma PopCovered(s: State, a: Action)
    requires Inv(s) && Enabled(s, a) && a.PopCas? && s.head == s.threads[a.t].seen && Timely(s, a.t)
    ensures Covered(Apply(s, a))
  {
    PopTakesTop(s, a);
    var s' := Apply(s, a);
    assert s'.stack == s.stack[1..] && s'.next == s.next && |s'.threads| == |s.threads|;
    var top := s.stack[0];
    hide Apply, Inv, ListIs, Enabled, NewHead;
    forall c | c in s'.next ensures c in s'.stack || exists u: nat :: u < |s'.threads| && c in s'.threads[u].owned {
      if c == top {
        PopOwned(s, a, a.t, c);
        assert c in s'.threads[a.t].owned;
      } else if c !in s.stack {
        HasOwner(s, c);
        var u: nat :| u < |s.threads| && c in s.threads[u].owned;
        PopOwned(s, a, u, c);
        assert c in s'.threads[u].owned;
      }
    }
  }

  lemma HasOwner(s: State, c: nat)
    requires Inv(s) && c in s.next && c !in s.stack
    ensures exists u: nat :: u < |s.threads| && c in s.threads[u].owned
  {
  }

  lemma PopApart(s: State, a: Action)
    requires Inv(s) && Enabled(s, a) && a.PopCas? && s.head == s.threads[a.t].seen && Timely(s, a.t)
    ensures Apart(Apply(s, a))
  {
    PopTakesTop(s, a);
    var s' := Apply(s, a);
    assert s'.stack == s.stack[1..] && s'.next == s.next && |s'.threads| == |s.threads|;
    assert Partitioned(s);
    hide Apply, Inv, ListIs, Enabled, NewHead, Covered, Exclusive;
    forall u: nat, c | u < |s'.threads| && c in s'.threads[u].owned ensures c in s'.next && c !in s'.stack {
      PopOwned(s, a, u, c);
    }
  }

  lemma PopOwners(s: State, a: Action)
    requires Inv(s) && Enabled(s, a) && a.PopCas? && s.head == s.threads[a.t].seen && Timely(s, a.t)
    ensures Partitioned(Apply(s, a))
  {
    PopTakesTop(s, a);
    PopCovered(s, a);
    PopApart(s, a);
    var s' := Apply(s, a);
    assert s'.stack == s.stack[1..] && s'.next == s.next && |s'.threads| == |s.threads|;
    assert Partitioned(s);
    hide Apply, Inv, ListIs, Enabled, NewHead, Covered;
    assert Apart(s) && Exclusive(s);
    forall u: nat, w: nat, c | u < |s'.threads| && w < |s'.threads| && c in s'.threads[u].owned && c in s'.threads[w].owned ensures u == w {
      PopOwned(s, a, u, c);
      PopOwned(s, a, w, c);
    }
    assert Exclusive(s');
    hide Apart, Exclusive;
  }

  lemma PopKeeps(s: State, a: Action)
    requires Inv(s) && Enabled(s, a) && a.PopCas? && Timely(s, a.t)
    ensures Inv(Apply(s, a))
  {
    hide ListIs, Partitioned, NewHead;
    if s.head == s.threads[a.t].seen {
      PopList(s, a);
      PopOwners(s, a);
      assert ThreadOk(s, s.threads[a.t]);
      assert ThreadOk(Apply(s, a), Apply(s, a).threads[a.t]);
      OthersAfterCas(s, Apply(s, a), a.t);
    } else {
      FailedCasKeeps(s, a);
    }
  }

  /** Every step keeps the invariant when each compare-and-swap comes in time. */
  lemma StepKeeps(s: State, a: Action)
    requires Inv(s) && Enabled(s, a) && (a.PushCas? || a.PopCas? ==> Timely(s, a.t))
    ensures Inv(Apply(s, a))
  {
    hide Inv, Apply;
    match a
    case Scribble(_, _, _) => ScribbleKeeps(s, a);
    case Link(_) => LinkKeeps(s, a);
    case PushCas(_) => PushKeeps(s, a);
    case PopCas(_) => PopKeeps(s, a);
    case _ => LoadKeeps(s, a);
  }

  /** A run in which fewer than n operations succeed between a load and its compare-and-swap. */
  ghost predicate RunWithin(s: State, acts: seq<Action>, n: nat)
    decreases |acts|
  {
    acts != [] ==> && Enabled(s, acts[0])
                   && (acts[0].PushCas? || acts[0].PopCas? ==> s.ver - s.threads[acts[0].t].loadVer < n)
                   && RunWithin(Apply(s, acts[0]), acts[1..], n)
  }

  ghost function Exec(s: State, acts: seq<Action>, n: nat): State
    requires RunWithin(s, acts, n)
    decreases |acts|
  {
    if acts == [] then s else Exec(Apply(s, acts[0]), acts[1..], n)
  }

  /** In every run within 2^16 operations the list in memory is the stack of the operations
      done so far, no chunk is on it twice, and every chunk is on it or held by one thread,
      not both. */
  lemma {:induction false} RunSafe(s: State, acts: seq<Action>)
    requires Inv(s) && RunWithin(s, acts, TAGS)
    ensures Inv(Exec(s, acts, TAGS))
    decreases |acts|
  {
    hide Inv, Apply, Enabled;
    if acts != [] {
      StepKeeps(s, acts[0]);
      RunSafe(Apply(s, acts[0]), acts[1..]);
    }
  }

  /** What a step does to the abstract stack: a compare-and-swap that succeeds pushes the
      thread's list or pops what the thread saw on top, a load of a null head finds the stack
      empty, and every other step does nothing. */
  datatype Op = Pushed(list: seq<nat>) | Popped(c: nat) | FoundEmpty | Nothing

  ghost function OpOf(s: State, a: Action): Op
    requires Enabled(s, a)
  {
    var th := s.threads[a.t];
    if a.PushCas? && s.head == th.seen then Pushed(th.list)
    else if a.PopCas? && s.head == th.seen then Popped(Ptr(th.seen))
    else if (a.StartPop? || a.PopCas?) && Ptr(s.head) == 0 then FoundEmpty
    else Nothing
  }

  /** The operations of a stack: a pop takes the top, and only an empty stack is found empty. */
  ghost predicate StackOp(stack: seq<nat>, op: Op, stack': seq<nat>) {
    match op
    case Pushed(list) => list != [] && stack' == list + stack
    case Popped(c) => stack == [c] + stack'
    case FoundEmpty => stack == [] == stack'
    case Nothing => stack' == stack
  }

  /** The chunks that a thread holds after it has done op. */
  ghost function OwnedAfter(owned: set<nat>, op: Op): set<nat> {
    match op
    case Pushed(list) => owned - (set c | c in list)
    case Popped(c) => owned + {c}
    case FoundEmpty => owned
    case Nothing => owned
  }

  /** Every step is the operation that it is said to be, on the whole stack at once: each
      successful compare-and-swap is one push of chunks the thread held or one pop of the top,
      and every other step leaves the stack and what is held alone. */
  lemma StepIsAtomic(s: State, a: Action)
    requires Inv(s) && Enabled(s, a) && (a.PushCas? || a.PopCas? ==> Timely(s, a.t))
    ensures StackOp(s.stack, OpOf(s, a), Apply(s, a).stack)
    ensures |Apply(s, a).threads| == |s.threads| && Apply(s, a).threads[a.t].owned == OwnedAfter(s.threads[a.t].owned, OpOf(s, a))
    ensures OpOf(s, a).Pushed? ==> forall c :: c in OpOf(s, a).list ==> c in s.threads[a.t].owned
    ensures forall u: nat :: u < |s.threads| && u != a.t ==> Apply(s, a).threads[u] == s.threads[u]
  {
    hide NewHead, ListIs, Partitioned;
    assert ThreadOk(s, s.threads[a.t]);
    NullHead(s);
    if a.PopCas? && s.head == s.threads[a.t].seen {
      PopTakesTop(s, a);
    }
  }

  lemma NullHead(s: State)
    requires Inv(s)
    ensures Ptr(s.head) == 0 <==> s.stack == []
  {
    if s.stack != [] {
      assert s.stack[0] in s.stack;
    }
  }

  /** The operations that the steps of a run are, in order. */
  ghost function OpsOf(s: State, acts: seq<Action>, n: nat): seq<Op>
    requires RunWithin(s, acts, n)
    decreases |acts|
  {
    if acts == [] then [] else [OpOf(s, acts[0])] + OpsOf(Apply(s, acts[0]), acts[1..], n)
  }

  /** Done one after the other, ops lead from one stack to the other. */
  ghost predicate Replay(stack: seq<nat>, ops: seq<Op>, stack': seq<nat>)
    decreases |ops|
  {
    if ops == [] then stack' == stack
    else exists next :: StackOp(stack, ops[0], next) && Replay(next, ops[1..], stack')
  }

  /** Linearizability: what the compare-and-swaps of a timely run pushed and popped, in their
      order, is a run of a stack. */
  lemma {:induction false} RunIsStack(s: State, acts: seq<Action>)
    requires Inv(s) && RunWithin(s, acts, TAGS)
    ensures Replay(s.stack, OpsOf(s, acts, TAGS), Exec(s, acts, TAGS).stack)
    decreases |acts|
  {
    hide Inv, Apply, Enabled, StackOp, OpOf;
    if acts != [] {
      var s' := Apply(s, acts[0]);
      StepKeeps(s, acts[0]);
      StepIsAtomic(s, acts[0]);
      RunIsStack(s', acts[1..]);
      var ops := OpsOf(s, acts, TAGS);
      assert ops[1..] == OpsOf(s', acts[1..], TAGS);
      assert StackOp(s.stack, ops[0], s'.stack) && Replay(s'.stack, ops[1..], Exec(s, acts, TAGS).stack);
    }
  }

  lemma {:induction false} ExecAppend(s: State, a: seq<Action>, b: seq<Action>, n: nat)
    requires RunWithin(s, a, n) && RunWithin(Exec(s, a, n), b, n)
    ensures RunWithin(s, a + b, n) && Exec(s, a + b, n) == Exec(Exec(s, a, n), b, n)
    decreases |a|
  {
    hide Apply, Enabled;
    if a == [] {
      assert a + b == b;
    } else {
      ExecAppend(Apply(s, a[0]), a[1..], b, n);
      assert (a + b)[1..] == a[1..] + b;
    }
  }

  /** The operations of thread t in a run, in order. */
  ghost function DoneBy(s: State, acts: seq<Action>, t: nat, n: nat): seq<Op>
    requires RunWithin(s, acts, n)
    decreases |acts|
  {
    if acts == [] then []
    else
      (if acts[0].t == t && OpOf(s, acts[0]) != Nothing then [OpOf(s, acts[0])] else [])
      + DoneBy(Apply(s, acts[0]), acts[1..], t, n)
  }

  /** Thread t is inside a call up to the end of the run. */
  ghost predicate Busy(s: State, acts: seq<Action>, t: nat, n: nat)
    requires RunWithin(s, acts, n)
    decreases |acts|
  {
    acts != [] ==> t < |s.threads| && s.threads[t].pc != Idle && Busy(Apply(s, acts[0]), acts[1..], t, n)
  }

  /** What a call has done so far: nothing, except that a pop that has loaded a null head has
      found the stack empty. */
  ghost function SoFar(th: Thread): seq<Op> {
    if th.pc == PopLoaded && Ptr(th.seen) == 0 then [FoundEmpty] else []
  }

  ghost predicate Starts(call: Action) {
    call.StartPush? || call.StartPop?
  }

  /** The call that thread th is inside of. */
  ghost predicate Inside(th: Thread, call: Action) {
    match call
    case StartPush(_, list) => (th.pc == PushLoaded || th.pc == PushLinked) && th.list == list
    case StartPop(_) => th.pc == PopLoaded || th.pc == PopRead
    case _ => false
  }

  /** The operation that a call is for. */
  ghost predicate Performs(call: Action, op: Op) {
    match call
    case StartPush(_, list) => op == Pushed(list)
    case StartPop(_) => op.Popped? || op.FoundEmpty?
    case _ => false
  }

  /** One step of any thread while thread call.t is inside the call: it stays inside, having done
      what SoFar says, or returns, having done its operation and no other. */
  lemma CallStep(s: State, a: Action, call: Action)
    requires Inv(s) && Enabled(s, a) && Starts(call) && call.t < |s.threads| && Inside(s.threads[call.t], call)
    ensures var s', t := Apply(s, a), call.t;
            var op := if a.t == t && OpOf(s, a) != Nothing then [OpOf(s, a)] else [];
            && |s'.threads| == |s.threads|
            && (s'.threads[t].pc != Idle ==> Inside(s'.threads[t], call) && SoFar(s.threads[t]) + op == SoFar(s'.threads[t]))
            && (s'.threads[t].pc == Idle ==> |SoFar(s.threads[t]) + op| == 1 && Performs(call, (SoFar(s.threads[t]) + op)[0]))
  {
    hide ListIs, Partitioned, NewHead, Chained;
    assert ThreadOk(s, s.threads[call.t]);
  }

  /** From any point of a call on, up to its return. */
  lemma {:induction false} CallGoesOn(s: State, acts: seq<Action>, call: Action)
    requires Inv(s) && RunWithin(s, acts, TAGS) && Starts(call) && call.t < |s.threads| && Inside(s.threads[call.t], call)
    requires Busy(s, acts, call.t, TAGS) && |Exec(s, acts, TAGS).threads| == |s.threads| && Exec(s, acts, TAGS).threads[call.t].pc == Idle
    ensures var ops := SoFar(s.threads[call.t]) + DoneBy(s, acts, call.t, TAGS); |ops| == 1 && Performs(call, ops[0])
    decreases |acts|
  {
    hide Inv, Apply, Enabled, OpOf, SoFar;
    if acts != [] {
      var s', rest := Apply(s, acts[0]), acts[1..];
      StepKeeps(s, acts[0]);
      CallStep(s, acts[0], call);
      if s'.threads[call.t].pc == Idle {
        assert rest == [];
      } else {
        CallGoesOn(s', rest, call);
      }
    }
  }

  /** What thread t holds after a run is what its operations make of what it held. */
  ghost function OwnedAfterAll(owned: set<nat>, ops: seq<Op>): set<nat>
    decreases |ops|
  {
    if ops == [] then owned else OwnedAfterAll(OwnedAfter(owned, ops[0]), ops[1..])
  }

  lemma {:induction false} RunOwned(s: State, acts: seq<Action>, t: nat)
    requires Inv(s) && RunWithin(s, acts, TAGS) && t < |s.threads|
    ensures var s' := Exec(s, acts, TAGS);
            |s'.threads| == |s.threads| && s'.threads[t].owned == OwnedAfterAll(s.threads[t].owned, DoneBy(s, acts, t, TAGS))
    decreases |acts|
  {
    hide Inv, Apply, Enabled, OpOf;
    if acts != [] {
      StepKeeps(s, acts[0]);
      StepIsAtomic(s, acts[0]);
      RunOwned(Apply(s, acts[0]), acts[1..], t);
      var ops, rest := DoneBy(s, acts, t, TAGS), DoneBy(Apply(s, acts[0]), acts[1..], t, TAGS);
      assert acts[0].t == t && OpOf(s, acts[0]) != Nothing ==> ops[1..] == rest;
      assert acts[0].t != t || OpOf(s, acts[0]) == Nothing ==> ops == rest;
    }
  }

  /** Every call performs its operation: in every timely run, from the start of a call of a thread
      to its return, the thread does exactly one operation. A push has pushed its list, and a pop
      has popped a chunk, which the thread then holds, or has found the stack empty. */
  lemma EveryCall(s: State, before: seq<Action>, call: Action, acts: seq<Action>)
    requires Inv(s) && RunWithin(s, before, TAGS) && Starts(call)
    requires var s0 := Exec(s, before, TAGS);
             && RunWithin(s0, [call] + acts, TAGS) && RunWithin(Apply(s0, call), acts, TAGS) && Busy(Apply(s0, call), acts, call.t, TAGS)
             && var s' := Exec(s0, [call] + acts, TAGS); call.t < |s'.threads| && s'.threads[call.t].pc == Idle
    ensures var s0 := Exec(s, before, TAGS);
            var s', ops := Exec(s0, [call] + acts, TAGS), DoneBy(s0, [call] + acts, call.t, TAGS);
            && |ops| == 1 && Performs(call, ops[0])
            && call.t < |s0.threads| == |s'.threads| && s'.threads[call.t].owned == OwnedAfter(s0.threads[call.t].owned, ops[0])
  {
    hide Inv, Apply, Enabled, OpOf;
    var s0 := Exec(s, before, TAGS);
    RunSafe(s, before);
    CallDoes(s0, call, acts);
    RunOwned(s0, [call] + acts, call.t);
    var ops := DoneBy(s0, [call] + acts, call.t, TAGS);
    assert OwnedAfterAll(OwnedAfter(s0.threads[call.t].owned, ops[0]), ops[1..]) == OwnedAfter(s0.threads[call.t].owned, ops[0]);
  }

  lemma CallDoes(s: State, call: Action, acts: seq<Action>)
    requires Inv(s) && RunWithin(s, [call] + acts, TAGS) && Starts(call) && RunWithin(Apply(s, call), acts, TAGS)
    requires Busy(Apply(s, call), acts, call.t, TAGS)
    requires var s' := Exec(s, [call] + acts, TAGS); call.t < |s'.threads| && s'.threads[call.t].pc == Idle
    ensures call.t < |s.threads|
    ensures var ops := DoneBy(s, [call] + acts, call.t, TAGS); |ops| == 1 && Performs(call, ops[0])
  {
    assert ([call] + acts)[1..] == acts;
    StepKeeps(s, call);
    CallBegins(s, call);
    RunOwned(Apply(s, call), acts, call.t);
    CallGoesOn(Apply(s, call), acts, call);
  }

  lemma CallBegins(s: State, call: Action)
    requires Inv(s) && Enabled(s, call) && Starts(call)
    ensures var s' := Apply(s, call);
            && |s'.threads| == |s.threads| && Inside(s'.threads[call.t], call) && s'.threads[call.t].pc != Idle
            && SoFar(s'.threads[call.t]) == if OpOf(s, call) != Nothing then [OpOf(s, call)] else []
  {
  }

  /** A compare-and-swap fails only because another one has succeeded since its load. */
  lemma FailsForAnother(s: State, t: nat)
    requires Inv(s) && t < |s.threads| && s.threads[t].pc != Idle && s.head != s.threads[t].seen
    ensures s.threads[t].loadVer < s.ver
  {
    assert ThreadOk(s, s.threads[t]);
  }

  /** Thread 0 has read the head 1 with tag 0 and its successor 2; thread 1 has since taken
      everything and holds 2 and 3, and the stack is 1 again. */
  ghost predicate Stalled(s: State, v: nat) {
    && s.head == 1 + v % TAGS * MASK && s.ver == v && s.stack == [1] && |s.threads| == 2
    && s.next.Keys == {1, 2, 3} && s.next[1] == 0
    && s.threads[0] == Thread(PopRead, 1, 2, [], {}, 0)
    && s.threads[1].pc == Idle && s.threads[1].owned == {2, 3} && s.threads[1].list == []
  }

  lemma HeadWord(p: nat, v: nat, q: nat)
    requires p < MASK && q < MASK
    ensures Ptr(p + v % TAGS * MASK) == p && NewHead(q, p + v % TAGS * MASK) == q + (v + 1) % TAGS * MASK
  {
    var w := p + v % TAGS * MASK;
    assert w / MASK == v % TAGS && w % MASK == p;
    NewHeadParts(q, w);
    NextTag(v);
    var h := NewHead(q, w);
    assert h == h / MASK * MASK + h % MASK;
  }

  /** Thread 1 pops the top. */
  lemma PopSteps(s: State, v: nat, top: nat, nxt: nat, n: nat)
    requires |s.threads| == 2 && s.threads[1].pc == Idle && n > 0 && s.ver == v
    requires 0 < top < MASK && nxt < MASK && s.head == top + v % TAGS * MASK && top in s.next && s.next[top] == nxt && s.stack != []
    ensures var a := [StartPop(1), ReadNext(1), PopCas(1)];
            && RunWithin(s, a, n)
            && var s' := Exec(s, a, n);
               && s' == s.(head := nxt + (v + 1) % TAGS * MASK, stack := s.stack[1..], ver := v + 1, threads := s'.threads) && |s'.threads| == 2
               && s'.threads[0] == s.threads[0] && s'.threads[1].pc == Idle && s'.threads[1].list == s.threads[1].list
               && s'.threads[1].owned == s.threads[1].owned + {top}
  {
    hide NewHead, Ptr, Tag;
    HeadWord(top, v, nxt);
    var a := [StartPop(1), ReadNext(1), PopCas(1)];
    var s1 := Apply(s, a[0]);
    var s2 := Apply(s1, a[1]);
    var s' := Apply(s2, a[2]);
    Three(s, a, n);
  }

  /** Thread 1 pushes a chunk that it holds. */
  lemma PushSteps(s: State, v: nat, c: nat, top: nat, n: nat)
    requires |s.threads| == 2 && s.threads[1].pc == Idle && n > 0 && s.ver == v
    requires 0 < c < MASK && top < MASK && s.head == top + v % TAGS * MASK && c in s.threads[1].owned && c in s.next
    ensures var a := [StartPush(1, [c]), Link(1), PushCas(1)];
            && RunWithin(s, a, n)
            && var s' := Exec(s, a, n);
               && s' == s.(head := c + (v + 1) % TAGS * MASK, stack := [c] + s.stack, ver := v + 1, next := s.next[c := top], threads := s'.threads)
               && |s'.threads| == 2 && s'.threads[0] == s.threads[0] && s'.threads[1].pc == Idle && s'.threads[1].list == []
               && s'.threads[1].owned == s.threads[1].owned - {c}
  {
    hide NewHead, Ptr, Tag;
    HeadWord(top, v, c);
    var a := [StartPush(1, [c]), Link(1), PushCas(1)];
    assert Enabled(s, a[0]);
    var s1 := Apply(s, a[0]);
    assert s1.threads[1].list == [c] && s1.threads[1].seen == s.head && s1.threads[1].loadVer == v;
    var s2 := Apply(s1, a[1]);
    assert s2.next == s.next[c := top] && s2.head == s2.threads[1].seen;
    var s' := Apply(s2, a[2]);
    assert (set x | x in [c]) == {c};
    Three(s, a, n);
  }

  lemma Three(s: State, a: seq<Action>, n: nat)
    requires |a| == 3 && n > 0 && Enabled(s, a[0]) && Enabled(Apply(s, a[0]), a[1]) && Enabled(Apply(Apply(s, a[0]), a[1]), a[2])
    requires !a[0].PushCas? && !a[0].PopCas? && !a[1].PushCas? && !a[1].PopCas?
    requires var s2 := Apply(Apply(s, a[0]), a[1]); s2.ver - s2.threads[a[2].t].loadVer < n
    ensures RunWithin(s, a, n) && Exec(s, a, n) == Apply(Apply(Apply(s, a[0]), a[1]), a[2])
  {
    hide Apply, Enabled;
    assert a[1..][0] == a[1] && a[1..][1..][0] == a[2] && a[1..][1..][1..] == [];
    var s2 := Apply(Apply(s, a[0]), a[1]);
    assert RunWithin(Apply(s2, a[2]), a[1..][1..][1..], n);
    assert RunWithin(s2, a[1..][1..], n) && Exec(s2, a[1..][1..], n) == Apply(s2, a[2]);
    assert RunWithin(Apply(s, a[0]), a[1..], n) && Exec(Apply(s, a[0]), a[1..], n) == Exec(s2, a[1..][1..], n);
  }

  /** A pop and a push take thread 1 round the loop once. */
  lemma Round(s: State, v: nat, n: nat) returns (acts: seq<Action>)
    requires Stalled(s, v) && n > 0
    ensures RunWithin(s, acts, n) && Stalled(Exec(s, acts, n), v + 2)
  {
    hide Apply, Enabled, RunWithin, Exec;
    var a, b := [StartPop(1), ReadNext(1), PopCas(1)], [StartPush(1, [1]), Link(1), PushCas(1)];
    PopSteps(s, v, 1, 0, n);
    var s1 := Exec(s, a, n);
    PushSteps(s1, v + 1, 1, 0, n);
    ExecAppend(s, a, b, n);
    acts := a + b;
    assert [1] + [] == [1];
  }

  lemma {:induction false} Rounds(s: State, v: nat, k: nat, n: nat) returns (acts: seq<Action>)
    requires Stalled(s, v) && n > 0
    ensures RunWithin(s, acts, n) && Stalled(Exec(s, acts, n), v + 2 * k)
    decreases k
  {
    hide Apply, Enabled, Stalled;
    acts := [];
    if k > 0 {
      var a := Round(s, v, n);
      var b := Rounds(Exec(s, a, n), v + 2, k - 1, n);
      ExecAppend(s, a, b, n);
      acts := a + b;
    }
  }

  /** Three chunks on the stack and two idle threads. */
  const FRESH: State := State(1, map[1 := 2, 2 := 3, 3 := 0], [Thread(Idle, 0, 0, [], {}, 0), Thread(Idle, 0, 0, [], {}, 0)], [1, 2, 3], 0)

  lemma FreshOk()
    ensures Inv(FRESH)
  {
    assert LinkedAt(FRESH.next, FRESH.stack, 0) && LinkedAt(FRESH.next, FRESH.stack, 1) && LinkedAt(FRESH.next, FRESH.stack, 2);
  }

  lemma Start(n: nat) returns (s: State)
    ensures RunWithin(FRESH, [StartPop(0), ReadNext(0)], n) && s == Exec(FRESH, [StartPop(0), ReadNext(0)], n)
    ensures s == FRESH.(threads := [Thread(PopRead, 1, 2, [], {}, 0), Thread(Idle, 0, 0, [], {}, 0)])
  {
    var a := [StartPop(0), ReadNext(0)];
    s := Apply(Apply(FRESH, a[0]), a[1]);
    assert a[1..][0] == a[1] && a[1..][1..] == [];
    assert RunWithin(s, a[1..][1..], n);
    assert RunWithin(Apply(FRESH, a[0]), a[1..], n);
  }

  /** Thread 0 loads the head and its successor; thread 1 takes all and puts one back. */
  lemma Begin(n: nat) returns (acts: seq<Action>)
    requires n > 0
    ensures RunWithin(FRESH, acts, n) && Stalled(Exec(FRESH, acts, n), 4)
  {
    hide Apply, Enabled, RunWithin, Exec, NewHead;
    var a := [StartPop(0), ReadNext(0)];
    var s1 := Start(n);
    var p, q := [StartPop(1), ReadNext(1), PopCas(1)], [StartPush(1, [1]), Link(1), PushCas(1)];
    PopSteps(s1, 0, 1, 2, n);
    var s2 := Exec(s1, p, n);
    PopSteps(s2, 1, 2, 3, n);
    var s3 := Exec(s2, p, n);
    PopSteps(s3, 2, 3, 0, n);
    var s4 := Exec(s3, p, n);
    PushSteps(s4, 3, 1, 0, n);
    ExecAppend(s3, p, q, n);
    ExecAppend(s2, p, p + q, n);
    ExecAppend(s1, p, p + (p + q), n);
    ExecAppend(FRESH, a, p + (p + (p + q)), n);
    acts := a + (p + (p + (p + q)));
    assert Exec(FRESH, acts, n) == Exec(s4, q, n);
  }

  /** The bound is tight: with one more operation between a load and its compare-and-swap, a
      run exists after which the head of the free list is a chunk that a thread still holds. */
  lemma BoundIsTight() returns (acts: seq<Action>, s: State)
    ensures Inv(FRESH) && RunWithin(FRESH, acts, TAGS + 1) && s == Exec(FRESH, acts, TAGS + 1)
    ensures |s.threads| == 2 && Ptr(s.head) in s.threads[1].owned && !Inv(s)
  {
    hide Apply, Enabled, RunWithin, Exec, NewHead, Stalled, Inv;
    FreshOk();
    var n := TAGS + 1;
    var a := Begin(n);
    var s1 := Exec(FRESH, a, n);
    var b := Rounds(s1, 4, TAGS / 2 - 2, n);
    var s2 := Exec(s1, b, n);
    s := Collide(s2);
    ExecAppend(s1, b, [PopCas(0)], n);
    ExecAppend(FRESH, a, b + [PopCas(0)], n);
    acts := a + (b + [PopCas(0)]);
  }

  /** The tag has come round: the stalled compare-and-swap succeeds. */
  lemma Collide(s: State) returns (s': State)
    requires Stalled(s, TAGS)
    ensures RunWithin(s, [PopCas(0)], TAGS + 1) && s' == Exec(s, [PopCas(0)], TAGS + 1)
    ensures |s'.threads| == 2 && Ptr(s'.head) in s'.threads[1].owned && !Inv(s')
  {
    var c := [PopCas(0)];
    HeadWord(1, 0, 2);
    s' := Apply(s, c[0]);
    assert c[1..] == [];
    assert RunWithin(s', c[1..], TAGS + 1);
    assert s'.head == 2 + MASK && Ptr(s'.head) == 2;
    assert s'.threads[1].owned == {2, 3};
    NotFree(s');
  }

  lemma NotFree(s: State)
    requires |s.threads| == 2 && Ptr(s.head) == 2 && 2 in s.threads[1].owned
    ensures !Inv(s)
  {
    if s.stack != [] && s.stack[0] == 2 {
      assert 2 in s.stack;
    }
  }
}
