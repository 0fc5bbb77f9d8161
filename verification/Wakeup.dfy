/** Waiting on the message queue with its mutex and condition variable
    (src/svm/message_queue.c:186-218, 343-418 and 498-567): any number of producers in the
    blocking svm_msg_q_add and one consumer in the blocking svm_msg_q_sub. The consumer takes
    messages without the mutex. Each step is one access to the size, the mutex or the
    condition variable; a sleeper may also wake for no reason. */
module Wakeup {
  /** A producer: outside, holding the mutex before its check, about to sleep, asleep, woken
      and waiting for the mutex, about to add, about to broadcast, about to unlock. */
  datatype Prod = POut | PIn | PGoing | PAsleep | PWoken | PAdding | PSignal | PLeaving

  /** The consumer: outside, waiting for the mutex to wait, holding it, about to sleep, asleep,
      woken, about to unlock, about to take a message, waiting for the mutex to broadcast,
      about to broadcast, about to unlock after that; or having read the size for a batch. */
  datatype Cons =
    | COut | CWant | CIn | CGoing | CAsleep | CWoken | CLeaving | CSub | CSigWant | CSigIn | CSigLeaving
    | CBatch(size: int, n: int)

  datatype State = State(cursize: int, maxsize: int, prods: seq<Prod>, cons: Cons)

  datatype Action =
    | Lock(t: nat) | CheckFull(t: nat) | Sleep(t: nat) | Relock(t: nat) | Spurious(t: nat)
    | Add(t: nat) | Broadcast(t: nat) | Unlock(t: nat)
    | CheckEmpty | ConsLock | Recheck | ConsSleep | ConsRelock | ConsSpurious | ConsUnlock | Take | SigLock | SigBroadcast | SigUnlock
    | BatchRead(n: int) | BatchTake

  predicate Holds(p: Prod) {
    p.PIn? || p.PGoing? || p.PAdding? || p.PSignal? || p.PLeaving?
  }

  predicate ConsHolds(c: Cons) {
    c.CIn? || c.CGoing? || c.CLeaving? || c.CSigIn? || c.CSigLeaving?
  }

  ghost predicate MutexFree(s: State) {
    !ConsHolds(s.cons) && forall t :: 0 <= t < |s.prods| ==> !Holds(s.prods[t])
  }

  ghost predicate Enabled(s: State, a: Action) {
    match a
    case Lock(t) => t < |s.prods| && s.prods[t].POut? && MutexFree(s)
    case CheckFull(t) => t < |s.prods| && s.prods[t].PIn?
    case Sleep(t) => t < |s.prods| && s.prods[t].PGoing?
    case Relock(t) => t < |s.prods| && s.prods[t].PWoken? && MutexFree(s)
    case Spurious(t) => t < |s.prods| && s.prods[t].PAsleep?
    case Add(t) => t < |s.prods| && s.prods[t].PAdding?
    case Broadcast(t) => t < |s.prods| && s.prods[t].PSignal?
    case Unlock(t) => t < |s.prods| && s.prods[t].PLeaving?
    case CheckEmpty => s.cons.COut?
    case ConsLock => s.cons.CWant? && MutexFree(s)
    case Recheck => s.cons.CIn?
    case ConsSleep => s.cons.CGoing?
    case ConsRelock => s.cons.CWoken? && MutexFree(s)
    case ConsSpurious => s.cons.CAsleep?
    case ConsUnlock => s.cons.CLeaving?
    case Take => s.cons.CSub?
    case SigLock => s.cons.CSigWant? && MutexFree(s)
    case SigBroadcast => s.cons.CSigIn?
    case SigUnlock => s.cons.CSigLeaving?
    case BatchRead(n) => s.cons.CSub? && n > 0
    case BatchTake => s.cons.CBatch?
  }

  /** pthread_cond_broadcast. */
  function Wake(s: State): State {
    s.(prods := seq(|s.prods|, i requires 0 <= i < |s.prods| => if s.prods[i].PAsleep? then PWoken else s.prods[i]),
       cons := if s.cons.CAsleep? then CWoken else s.cons)
  }

  function With(s: State, t: nat, p: Prod): State
    requires t < |s.prods|
  {
    s.(prods := s.prods[t := p])
  }

  ghost function Apply(s: State, a: Action): State
    requires Enabled(s, a)
  {
    match a
    case Lock(t) => With(s, t, PIn)
    case CheckFull(t) => With(s, t, if s.cursize == s.maxsize then PGoing else PAdding)
    case Sleep(t) => With(s, t, PAsleep)
    case Relock(t) => With(s, t, PIn)
    case Spurious(t) => With(s, t, PWoken)
    case Add(t) => With(s.(cursize := s.cursize + 1), t, if s.cursize == 0 then PSignal else PLeaving)
    case Broadcast(t) => With(Wake(s), t, PLeaving)
    case Unlock(t) => With(s, t, POut)
    case CheckEmpty => s.(cons := if s.cursize == 0 then CWant else CSub)
    case ConsLock => s.(cons := CIn)
    case Recheck => s.(cons := if s.cursize == 0 then CGoing else CLeaving)
    case ConsSleep => s.(cons := CAsleep)
    case ConsRelock => s.(cons := CIn)
    case ConsSpurious => s.(cons := CWoken)
    case ConsUnlock => s.(cons := CSub)
    case Take => s.(cursize := s.cursize - 1, cons := if s.cursize == s.maxsize then CSigWant else COut)
    case SigLock => s.(cons := CSigIn)
    case SigBroadcast => Wake(s).(cons := CSigLeaving)
    case SigUnlock => s.(cons := COut)
    case BatchRead(n) => s.(cons := CBatch(s.cursize, if s.cursize < n then s.cursize else n))
    case BatchTake => s.(cursize := s.cursize - s.cons.n, cons := if s.cons.size == s.maxsize then CSigWant else COut)
  }

  /** A producer that sleeps or has decided to. */
  ghost predicate Waiting(s: State) {
    exists t :: 0 <= t < |s.prods| && Waits(s.prods[t])
  }

  predicate Waits(p: Prod) {
    p.PGoing? || p.PAsleep?
  }

  /** The consumer is on its way to a broadcast. */
  predicate BroadcastDue(c: Cons) {
    c.CSigWant? || c.CSigIn?
  }

  ghost predicate Signalling(s: State) {
    exists t :: 0 <= t < |s.prods| && s.prods[t].PSignal?
  }

  /** At most one thread holds the mutex. */
  ghost predicate Exclusive(s: State) {
    && (forall t, u :: 0 <= t < u < |s.prods| ==> !(Holds(s.prods[t]) && Holds(s.prods[u])))
    && (ConsHolds(s.cons) ==> forall t :: 0 <= t < |s.prods| ==> !Holds(s.prods[t]))
  }

  ghost predicate Sizes(s: State) {
    && 0 <= s.cursize <= s.maxsize && 0 < s.maxsize
    && (forall t :: 0 <= t < |s.prods| && s.prods[t].PAdding? ==> s.cursize < s.maxsize)
    && (s.cons.CSub? || s.cons.CLeaving? ==> s.cursize > 0)
    && (s.cons.CBatch? ==> 0 < s.cons.n <= s.cons.size <= s.cursize)
    && (s.cons.CGoing? ==> s.cursize == 0)
  }

  /** No lost wake-up: a producer waits on a queue that is not full only while the consumer's
      broadcast is due, and the consumer sleeps on a queue that is not empty only while a
      producer's broadcast is due. */
  ghost predicate NoneLost(s: State) {
    && (Waiting(s) && s.cursize < s.maxsize ==> BroadcastDue(s.cons))
    && (s.cons.CAsleep? && s.cursize > 0 ==> Signalling(s))
  }

  ghost predicate Inv(s: State) {
    Exclusive(s) && Sizes(s) && NoneLost(s)
  }

  /** A step of one producer that changes no size. */
  lemma ProdStep(s: State, t: nat, p: Prod)
    requires Inv(s) && t < |s.prods| && !s.prods[t].PSignal?
    requires Holds(p) ==> Holds(s.prods[t]) || MutexFree(s)
    requires Waits(p) ==> Waits(s.prods[t]) || s.cursize == s.maxsize
    requires p.PAdding? ==> s.cursize < s.maxsize
    ensures Inv(With(s, t, p))
  {
    var s' := With(s, t, p);
    if Waiting(s') && s'.cursize < s'.maxsize {
      var u :| 0 <= u < |s'.prods| && Waits(s'.prods[u]);
      assert Waits(s.prods[u]);
    }
    if s.cons.CAsleep? && s.cursize > 0 {
      var u :| 0 <= u < |s.prods| && s.prods[u].PSignal?;
      assert s'.prods[u].PSignal?;
    }
  }

  lemma ConsStep(s: State, c: Cons)
    requires Inv(s) && (ConsHolds(c) ==> ConsHolds(s.cons) || MutexFree(s))
    requires BroadcastDue(s.cons) ==> BroadcastDue(c)
    requires c.CAsleep? ==> s.cons.CAsleep? || s.cursize == 0
    requires (c.CSub? || c.CLeaving? ==> s.cursize > 0) && (c.CBatch? ==> 0 < c.n <= c.size <= s.cursize) && (c.CGoing? ==> s.cursize == 0)
    ensures Inv(s.(cons := c))
  {
    var s' := s.(cons := c);
    if Waiting(s') {
      var u :| 0 <= u < |s'.prods| && Waits(s'.prods[u]);
      assert Waits(s.prods[u]);
    }
    if c.CAsleep? && s.cursize > 0 {
      var u :| 0 <= u < |s.prods| && s.prods[u].PSignal?;
      assert s'.prods[u].PSignal?;
    }
  }

  /** Adding needs the mutex, so a consumer that finds the queue empty under the mutex sleeps
      before the next message, and the producer of that message will wake it. */
  lemma AddKeeps(s: State, t: nat)
    requires Inv(s) && Enabled(s, Add(t))
    ensures Inv(Apply(s, Add(t)))
  {
    var s' := Apply(s, Add(t));
    if Waiting(s') && s'.cursize < s'.maxsize {
      var u :| 0 <= u < |s'.prods| && Waits(s'.prods[u]);
      assert Waits(s.prods[u]);
    }
    forall u | 0 <= u < |s.prods| ensures !s.prods[u].PSignal? {
      assert u != t ==> !Holds(s.prods[u]);
    }
    assert s'.prods[t] == if s.cursize == 0 then PSignal else PLeaving;
  }

  lemma WakeKeeps(s: State, t: nat)
    requires Inv(s) && Enabled(s, Broadcast(t))
    ensures Inv(Apply(s, Broadcast(t)))
  {
    var s' := Apply(s, Broadcast(t));
    forall u | 0 <= u < |s'.prods| ensures !Waits(s'.prods[u]) {
      assert u != t ==> !Holds(s.prods[u]);
    }
  }

  lemma SigKeeps(s: State)
    requires Inv(s) && Enabled(s, SigBroadcast)
    ensures Inv(Apply(s, SigBroadcast))
  {
    var s' := Apply(s, SigBroadcast);
    forall u | 0 <= u < |s'.prods| ensures !Waits(s'.prods[u]) {
      assert !Holds(s.prods[u]);
    }
  }

  /** Taking a message off a full queue makes a broadcast due; nobody waits on one that is not full. */
  lemma TakeKeeps(s: State)
    requires Inv(s) && Enabled(s, Take)
    ensures Inv(Apply(s, Take))
  {
    var s' := Apply(s, Take);
    if Waiting(s') {
      var u :| 0 <= u < |s'.prods| && Waits(s'.prods[u]);
      assert Waits(s.prods[u]);
    }
  }

  ghost predicate OfProducer(a: Action) {
    a.Lock? || a.CheckFull? || a.Sleep? || a.Relock? || a.Spurious? || a.Unlock?
  }

  lemma ProducerKeeps(s: State, a: Action)
    requires Inv(s) && Enabled(s, a) && OfProducer(a)
    ensures Inv(Apply(s, a))
  {
    ProdStep(s, a.t, Apply(s, a).prods[a.t]);
  }

  lemma ConsumerKeeps(s: State, a: Action)
    requires Inv(s) && Enabled(s, a) && !OfProducer(a) && !a.Add? && !a.Broadcast? && !a.SigBroadcast? && !a.Take? && !a.BatchTake?
    ensures Inv(Apply(s, a))
  {
    ConsStep(s, Apply(s, a).cons);
  }

  lemma StepKeeps(s: State, a: Action)
    requires Inv(s) && Enabled(s, a) && !a.BatchTake?
    ensures Inv(Apply(s, a))
  {
    hide Inv, Enabled, Apply;
    if a.Add? {
      AddKeeps(s, a.t);
    } else if a.Broadcast? {
      WakeKeeps(s, a.t);
    } else if a.SigBroadcast? {
      SigKeeps(s);
    } else if a.Take? {
      TakeKeeps(s);
    } else if OfProducer(a) {
      ProducerKeeps(s, a);
    } else {
      ConsumerKeeps(s, a);
    }
  }

  /** svm_msg_q_sub_raw_batch reads the size and subtracts in two steps. It keeps the
      guarantee exactly when no producer waits or the size it read was the full size. */
  lemma BatchTakeKeeps(s: State)
    requires Inv(s) && Enabled(s, BatchTake)
    ensures Inv(Apply(s, BatchTake)) <==> !Waiting(s) || s.cons.size == s.maxsize
  {
    var s' := Apply(s, BatchTake);
    if Waiting(s) {
      var u :| 0 <= u < |s.prods| && Waits(s.prods[u]);
      assert Waits(s'.prods[u]);
    }
    if Waiting(s') {
      var u :| 0 <= u < |s'.prods| && Waits(s'.prods[u]);
      assert Waits(s.prods[u]);
    }
  }

  ghost predicate Run(s: State, acts: seq<Action>)
    decreases |acts|
  {
    acts != [] ==> Enabled(s, acts[0]) && Run(Apply(s, acts[0]), acts[1..])
  }

  ghost function Exec(s: State, acts: seq<Action>): State
    requires Run(s, acts)
    decreases |acts|
  {
    if acts == [] then s else Exec(Apply(s, acts[0]), acts[1..])
  }

  /** In every run without batches no wake-up is lost, and not everyone is asleep. */
  lemma {:induction false} RunSafe(s: State, acts: seq<Action>)
    requires Inv(s) && Run(s, acts) && s.prods != [] && (forall i :: 0 <= i < |acts| ==> !acts[i].BatchTake?)
    ensures var s' := Exec(s, acts); Inv(s') && (s'.cons.CAsleep? ==> exists t :: 0 <= t < |s'.prods| && !s'.prods[t].PAsleep?)
    decreases |acts|
  {
    hide Inv, Enabled, Apply;
    if acts != [] {
      StepKeeps(s, acts[0]);
      SameProducers(s, acts[0]);
      RunSafe(Apply(s, acts[0]), acts[1..]);
    } else if s.cons.CAsleep? {
      SomeoneAwake(s);
    }
  }

  lemma SameProducers(s: State, a: Action)
    requires Enabled(s, a)
    ensures |Apply(s, a).prods| == |s.prods|
  {
  }

  lemma SomeoneAwake(s: State)
    requires Inv(s) && s.prods != [] && s.cons.CAsleep?
    ensures exists t :: 0 <= t < |s.prods| && !s.prods[t].PAsleep?
  {
    if s.prods[0].PAsleep? {
      assert Waits(s.prods[0]);
      var u :| 0 <= u < |s.prods| && s.prods[u].PSignal?;
    }
  }

  /** An empty queue, with everyone outside. */
  function Init(maxsize: nat, n: nat): State {
    State(0, maxsize, seq(n, i => POut), COut)
  }

  /** How many messages a step adds, and how many it takes. */
  ghost function AddedBy(a: Action): nat {
    if a.Add? then 1 else 0
  }

  ghost function TakenBy(s: State, a: Action): int {
    if a.Take? then 1 else if a.BatchTake? && s.cons.CBatch? then s.cons.n else 0
  }

  ghost function AddedIn(s: State, acts: seq<Action>): nat
    requires Run(s, acts)
    decreases |acts|
  {
    if acts == [] then 0 else AddedBy(acts[0]) + AddedIn(Apply(s, acts[0]), acts[1..])
  }

  ghost function TakenIn(s: State, acts: seq<Action>): int
    requires Run(s, acts)
    decreases |acts|
  {
    if acts == [] then 0 else TakenBy(s, acts[0]) + TakenIn(Apply(s, acts[0]), acts[1..])
  }

  /** The size counts what was added and not taken. */
  lemma {:induction false} RunCounts(s: State, acts: seq<Action>)
    requires Run(s, acts)
    ensures Exec(s, acts).cursize == s.cursize + AddedIn(s, acts) - TakenIn(s, acts)
    decreases |acts|
  {
    if acts != [] {
      RunCounts(Apply(s, acts[0]), acts[1..]);
    }
  }

  /** Producer t is in its call up to the end of the run. */
  ghost predicate Adding(s: State, acts: seq<Action>, t: nat)
    requires Run(s, acts)
    decreases |acts|
  {
    acts != [] ==> t < |s.prods| && !s.prods[t].POut? && Adding(Apply(s, acts[0]), acts[1..], t)
  }

  /** How often producer t adds in a run. */
  ghost function AddsOf(acts: seq<Action>, t: nat): nat
    decreases |acts|
  {
    if acts == [] then 0 else (if acts[0] == Add(t) then 1 else 0) + AddsOf(acts[1..], t)
  }

  ghost function AddedSoFar(p: Prod): nat {
    if p.PSignal? || p.PLeaving? then 1 else 0
  }

  lemma AddStep(s: State, a: Action, t: nat)
    requires Enabled(s, a) && t < |s.prods| && !s.prods[t].POut?
    ensures var s', n := Apply(s, a), AddedSoFar(s.prods[t]) + (if a == Add(t) then 1 else 0);
            |s'.prods| == |s.prods| && if s'.prods[t].POut? then n == 1 else n == AddedSoFar(s'.prods[t])
  {
  }

  lemma {:induction false} AddGoesOn(s: State, acts: seq<Action>, t: nat)
    requires Run(s, acts) && t < |s.prods| && !s.prods[t].POut? && Adding(s, acts, t)
    requires t < |Exec(s, acts).prods| && Exec(s, acts).prods[t].POut?
    ensures AddedSoFar(s.prods[t]) + AddsOf(acts, t) == 1
    decreases |acts|
  {
    hide Enabled, Apply, AddedSoFar;
    assert acts != [];
    var s' := Apply(s, acts[0]);
    AddStep(s, acts[0], t);
    if s'.prods[t].POut? {
      assert acts[1..] == [];
    } else {
      AddGoesOn(s', acts[1..], t);
    }
  }

  /** Every call of a producer, from its lock to its return, adds exactly one message, however often
      it has to wait. */
  lemma EveryAdd(s: State, t: nat, acts: seq<Action>)
    requires Run(s, [Lock(t)] + acts) && Run(Apply(s, Lock(t)), acts) && Adding(Apply(s, Lock(t)), acts, t)
    requires t < |Exec(s, [Lock(t)] + acts).prods| && Exec(s, [Lock(t)] + acts).prods[t].POut?
    ensures AddsOf([Lock(t)] + acts, t) == 1
  {
    assert ([Lock(t)] + acts)[1..] == acts;
    AddGoesOn(Apply(s, Lock(t)), acts, t);
  }

  /** The consumer is in its call up to the end of the run. */
  ghost predicate Taking(s: State, acts: seq<Action>)
    requires Run(s, acts)
    decreases |acts|
  {
    acts != [] ==> !s.cons.COut? && Taking(Apply(s, acts[0]), acts[1..])
  }

  /** How often the consumer takes messages in a run. */
  ghost function TakesOf(acts: seq<Action>): nat
    decreases |acts|
  {
    if acts == [] then 0 else (if acts[0].Take? || acts[0].BatchTake? then 1 else 0) + TakesOf(acts[1..])
  }

  ghost function TakenSoFar(c: Cons): nat {
    if c.CSigWant? || c.CSigIn? || c.CSigLeaving? then 1 else 0
  }

  lemma TakeStep(s: State, a: Action)
    requires Enabled(s, a) && !s.cons.COut?
    ensures var s', n := Apply(s, a), TakenSoFar(s.cons) + (if a.Take? || a.BatchTake? then 1 else 0);
            if s'.cons.COut? then n == 1 else n == TakenSoFar(s'.cons)
  {
  }

  lemma {:induction false} TakeGoesOn(s: State, acts: seq<Action>)
    requires Run(s, acts) && !s.cons.COut? && Taking(s, acts) && Exec(s, acts).cons.COut?
    ensures TakenSoFar(s.cons) + TakesOf(acts) == 1
    decreases |acts|
  {
    hide Enabled, Apply, TakenSoFar;
    assert acts != [];
    TakeStep(s, acts[0]);
    if Apply(s, acts[0]).cons.COut? {
      assert acts[1..] == [];
    } else {
      TakeGoesOn(Apply(s, acts[0]), acts[1..]);
    }
  }

  /** Every call of the consumer takes messages exactly once. */
  lemma EveryTake(s: State, acts: seq<Action>)
    requires Run(s, [CheckEmpty] + acts) && Run(Apply(s, CheckEmpty), acts) && Taking(Apply(s, CheckEmpty), acts)
    requires Exec(s, [CheckEmpty] + acts).cons.COut?
    ensures TakesOf([CheckEmpty] + acts) == 1
  {
    assert ([CheckEmpty] + acts)[1..] == acts;
    TakeGoesOn(Apply(s, CheckEmpty), acts);
  }

  lemma InitOk(maxsize: nat, n: nat)
    requires maxsize > 0
    ensures Inv(Init(maxsize, n))
  {
  }

  lemma {:induction false} ExecAppend(s: State, a: seq<Action>, b: seq<Action>)
    requires Run(s, a) && Run(Exec(s, a), b)
    ensures Run(s, a + b) && Exec(s, a + b) == Exec(Exec(s, a), b)
    decreases |a|
  {
    hide Apply, Enabled;
    if a == [] {
      assert a + b == b;
    } else {
      ExecAppend(Apply(s, a[0]), a[1..], b);
      assert (a + b)[1..] == a[1..] + b;
    }
  }

  ghost predicate Leads(s: State, a: Action, s': State) {
    Enabled(s, a) && Apply(s, a) == s'
  }

  lemma {:induction false} Traced(states: seq<State>, acts: seq<Action>)
    requires |states| == |acts| + 1 && forall i: nat :: i < |acts| ==> Leads(states[i], acts[i], states[i + 1])
    ensures Run(states[0], acts) && Exec(states[0], acts) == states[|acts|]
    decreases |acts|
  {
    hide Apply, Enabled;
    if acts != [] {
      assert Leads(states[0], acts[0], states[1]);
      forall i: nat | i < |acts[1..]| ensures Leads(states[1..][i], acts[1..][i], states[1..][i + 1]) {
        assert Leads(states[i + 1], acts[i + 1], states[i + 2]);
      }
      Traced(states[1..], acts[1..]);
    }
  }

  /** A message is added to the empty queue and the consumer comes to take it, while the same
      producer is back in for another. */
  const OPENING: seq<Action> := [Lock(0), CheckFull(0), Add(0), Broadcast(0), Unlock(0), CheckEmpty, Lock(0)]

  lemma Opens()
    ensures Run(Init(2, 2), OPENING) && Exec(Init(2, 2), OPENING) == State(1, 2, [PIn, POut], CSub)
  {
    var states := [Init(2, 2), State(0, 2, [PIn, POut], COut), State(0, 2, [PAdding, POut], COut), State(1, 2, [PSignal, POut], COut),
      State(1, 2, [PLeaving, POut], COut), State(1, 2, [POut, POut], COut), State(1, 2, [POut, POut], CSub), State(1, 2, [PIn, POut], CSub)];
    forall i: nat | i < 7 ensures Leads(states[i], OPENING[i], states[i + 1]) {
    }
    hide Leads, Init;
    Traced(states, OPENING);
  }

  /** The queue fills up between the read of its size and the subtraction, and a producer
      goes to sleep. */
  const LOSING: seq<Action> := [BatchRead(1), CheckFull(0), Add(0), Unlock(0), Lock(1), CheckFull(1), Sleep(1), BatchTake]

  lemma Sleeps()
    ensures Run(State(1, 2, [PIn, POut], CSub), LOSING) && Exec(State(1, 2, [PIn, POut], CSub), LOSING) == State(1, 2, [POut, PAsleep], COut)
  {
    var c := CBatch(1, 1);
    var states := [State(1, 2, [PIn, POut], CSub), State(1, 2, [PIn, POut], c), State(1, 2, [PAdding, POut], c), State(2, 2, [PLeaving, POut], c),
      State(2, 2, [POut, POut], c), State(2, 2, [POut, PIn], c), State(2, 2, [POut, PGoing], c), State(2, 2, [POut, PAsleep], c),
      State(1, 2, [POut, PAsleep], COut)];
    forall i: nat | i < 8 ensures Leads(states[i], LOSING[i], states[i + 1]) {
    }
    hide Leads;
    Traced(states, LOSING);
  }

  /** A run from the initial state in which a batch loses a wake-up: a producer sleeps on a
      queue that is not full, and no broadcast is due. */
  lemma BatchLoses() returns (acts: seq<Action>, s: State)
    ensures Inv(Init(2, 2)) && Run(Init(2, 2), acts) && s == Exec(Init(2, 2), acts)
    ensures |s.prods| == 2 && s.prods[1] == PAsleep && s.cursize < s.maxsize && !BroadcastDue(s.cons) && !NoneLost(s)
  {
    hide Apply, Enabled, Run, Exec, Inv, Init;
    InitOk(2, 2);
    Opens();
    Sleeps();
    ExecAppend(Init(2, 2), OPENING, LOSING);
    acts := OPENING + LOSING;
    s := State(1, 2, [POut, PAsleep], COut);
    assert Waits(s.prods[1]);
  }
}
