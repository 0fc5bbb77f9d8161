/** The bump allocator of a segment (src/svm/fifo_segment.c:18-41): any number of threads
    load the byte index and try to move it with a weak compare-and-swap, which may also fail
    for no reason. */
module Bump {
  /** round_pow2_u64. */
  function RoundUp(x: nat, align: nat): (r: nat)
    requires align > 0
    ensures x <= r < x + align && r % align == 0
  {
    Rounding(x, align);
    (x + align - 1) / align * align
  }

  lemma Rounding(x: nat, align: nat)
    requires align > 0
    ensures x <= (x + align - 1) / align * align < x + align
    ensures ((x + align - 1) / align * align) % align == 0
  {
    var q := (x + align - 1) / align;
    assert x + align - 1 == q * align + (x + align - 1) % align;
    Multiple(q, align);
  }

  lemma Multiple(q: nat, align: nat)
    requires align > 0
    ensures (q * align) % align == 0
  {
    var r, d := (q * align) % align, q - q * align / align;
    assert d * align == r;
    assert d >= 1 ==> d * align >= align;
    assert d <= 0 ==> d * align <= 0;
  }

  /** A call in progress: what it asks for and the index it has seen. */
  datatype Thread = Idle | Trying(size: nat, align: nat, seen: nat)

  /** A region that was handed out. */
  datatype Region = Region(at: nat, size: nat, align: nat)

  datatype State = State(byteIndex: nat, max: nat, threads: seq<Thread>, regions: seq<Region>)

  datatype Action = Call(t: nat, size: nat, align: nat) | Cas(t: nat, spurious: bool)

  ghost predicate Enabled(s: State, a: Action) {
    && a.t < |s.threads|
    && match a
       case Call(t, _, align) => s.threads[t] == Idle && align > 0
       case Cas(t, _) => s.threads[t].Trying? && s.threads[t].align > 0
  }

  /** The start of the region and the new index for a request that has seen an index. */
  function Target(size: nat, align: nat, seen: nat): (r: (nat, nat))
    requires align > 0
  {
    (RoundUp(seen, align), RoundUp(seen, align) + RoundUp(size, align))
  }

  /** A thread that has loaded the index goes on or, when nothing fits, returns null. */
  function Loaded(s: State, t: nat, size: nat, align: nat): State
    requires t < |s.threads| && align > 0
  {
    if Target(size, align, s.byteIndex).1 >= s.max then
      s.(threads := s.threads[t := Idle])
    else
      s.(threads := s.threads[t := Trying(size, align, s.byteIndex)])
  }

  ghost function Apply(s: State, a: Action): State
    requires Enabled(s, a)
  {
    match a
    case Call(t, size, align) => Loaded(s, t, size, align)
    case Cas(t, spurious) =>
      var th := s.threads[t];
      if spurious || s.byteIndex != th.seen then
        Loaded(s, t, th.size, th.align)
      else
        var r := Target(th.size, th.align, th.seen);
        State(r.1, s.max, s.threads[t := Idle], s.regions + [Region(r.0, th.size, th.align)])
  }

  ghost predicate RegionOk(s: State, i: nat)
    requires i < |s.regions|
  {
    var r := s.regions[i];
    r.align > 0 && r.at % r.align == 0 && r.at + r.size <= s.byteIndex
  }

  ghost predicate Inv(s: State) {
    && s.byteIndex < s.max
    && (forall i: nat :: i < |s.regions| ==> RegionOk(s, i))
    && (forall i, j :: 0 <= i < j < |s.regions| ==> s.regions[i].at + s.regions[i].size <= s.regions[j].at)
    && (forall t: nat :: t < |s.threads| && s.threads[t].Trying? ==>
          s.threads[t].align > 0 && s.threads[t].seen <= s.byteIndex && Target(s.threads[t].size, s.threads[t].align, s.threads[t].seen).1 < s.max)
  }

  lemma StepKeeps(s: State, a: Action)
    requires Inv(s) && Enabled(s, a)
    ensures Inv(Apply(s, a)) && s.byteIndex <= Apply(s, a).byteIndex && s.regions <= Apply(s, a).regions && Apply(s, a).max == s.max
  {
    var s' := Apply(s, a);
    forall i: nat | i < |s'.regions| ensures RegionOk(s', i) {
      assert i < |s.regions| ==> RegionOk(s, i);
    }
    forall i, j | 0 <= i < j < |s'.regions| ensures s'.regions[i].at + s'.regions[i].size <= s'.regions[j].at {
      assert RegionOk(s, i);
    }
  }

  ghost predicate Run(s: State, acts: seq<Action>)
    decreases |acts|
  {
    acts != [] ==> Enabled(s, acts[0]) && Run(Apply(s, acts[0]), acts[1..])
  }

  ghost function Exec(s: State, acts: seq<Action>): State
    requires Run(s, acts)
    decreases |acts|
  {
    if acts == [] then s else Exec(Apply(s, acts[0]), acts[1..])
  }

  /** In every run the regions handed out are aligned, inside the segment and, in the order in
      which they were handed out, one after the other, so no two overlap. */
  lemma {:induction false} RunSafe(s: State, acts: seq<Action>)
    requires Inv(s) && Run(s, acts)
    ensures Inv(Exec(s, acts)) && s.regions <= Exec(s, acts).regions && Exec(s, acts).max == s.max
    decreases |acts|
  {
    hide Inv, Apply, Enabled;
    if acts != [] {
      StepKeeps(s, acts[0]);
      RunSafe(Apply(s, acts[0]), acts[1..]);
    }
  }

  /** A call that has the allocator for itself fails only when its request does not fit. */
  lemma AloneSucceeds(s: State, t: nat, size: nat, align: nat)
    requires Inv(s) && t < |s.threads| && s.threads[t] == Idle && align > 0
    ensures var s1 := Apply(s, Call(t, size, align));
            if s1.threads[t] == Idle then
              RoundUp(s.byteIndex, align) + RoundUp(size, align) >= s.max
            else
              Enabled(s1, Cas(t, false)) && Apply(s1, Cas(t, false)).regions == s.regions + [Region(RoundUp(s.byteIndex, align), size, align)]
  {
  }

  /** The regions that a run hands out to thread t. */
  ghost function GotBy(s: State, acts: seq<Action>, t: nat): seq<Region>
    requires Inv(s) && Run(s, acts)
    decreases |acts|
  {
    if acts == [] then []
    else
      StepKeeps(s, acts[0]);
      var s' := Apply(s, acts[0]);
      (if acts[0].t == t then s'.regions[|s.regions|..] else []) + GotBy(s', acts[1..], t)
  }

  /** Thread t is inside a call up to the end of the run. */
  ghost predicate Busy(s: State, acts: seq<Action>, t: nat)
    requires Run(s, acts)
    decreases |acts|
  {
    acts != [] ==> t < |s.threads| && s.threads[t] != Idle && Busy(Apply(s, acts[0]), acts[1..], t)
  }

  /** What a call has come to: one region of the size and alignment asked for, or none, and then
      the next aligned bytes do not fit. */
  ghost predicate Answered(call: Action, got: seq<Region>, s: State)
    requires call.Call? && call.align > 0
  {
    if got == [] then RoundUp(s.byteIndex, call.align) + RoundUp(call.size, call.align) >= s.max
    else got == [Region(got[0].at, call.size, call.align)]
  }

  ghost predicate Asks(th: Thread, call: Action) {
    th.Trying? && call.Call? && th.size == call.size && th.align == call.align
  }

  /** One step of any thread while thread call.t is inside the call. */
  lemma CallStep(s: State, a: Action, call: Action)
    requires Inv(s) && Enabled(s, a) && call.Call? && call.align > 0 && call.t < |s.threads|
    requires if a == call then s.threads[call.t] == Idle else Asks(s.threads[call.t], call)
    ensures var s', t := Apply(s, a), call.t;
            && |s'.threads| == |s.threads| && s.regions <= s'.regions
            && var got := if a.t == t then s'.regions[|s.regions|..] else [];
               if s'.threads[t] == Idle then Answered(call, got, s') else got == [] && Asks(s'.threads[t], call)
  {
    StepKeeps(s, a);
  }

  lemma {:induction false} CallGoesOn(s: State, acts: seq<Action>, call: Action)
    requires Inv(s) && Run(s, acts) && call.Call? && call.align > 0 && call.t < |s.threads| && acts != [] && Busy(Apply(s, acts[0]), acts[1..], call.t)
    requires if acts[0] == call then s.threads[call.t] == Idle else Asks(s.threads[call.t], call)
    requires var s' := Exec(s, acts); call.t < |s'.threads| && s'.threads[call.t] == Idle
    ensures Answered(call, GotBy(s, acts, call.t), Exec(s, acts))
    decreases |acts|
  {
    hide Inv, Apply, Enabled, Answered;
    var s', rest := Apply(s, acts[0]), acts[1..];
    StepKeeps(s, acts[0]);
    CallStep(s, acts[0], call);
    if rest == [] {
      assert GotBy(s, acts, call.t) == if acts[0].t == call.t then s'.regions[|s.regions|..] else [];
    } else {
      NotCalled(s', rest[0], call);
      CallGoesOn(s', rest, call);
      assert GotBy(s, acts, call.t) == GotBy(s', rest, call.t);
    }
  }

  lemma NotCalled(s: State, a: Action, call: Action)
    requires Enabled(s, a) && call.Call? && call.t < |s.threads| && s.threads[call.t] != Idle
    ensures a != call
  {
  }

  /** In every run, from a call of a thread to its return, the thread gets exactly one region of
      the size and alignment that it asked for, or it gets none and nothing fits. */
  lemma EveryCall(s: State, before: seq<Action>, call: Action, acts: seq<Action>)
    requires Inv(s) && Run(s, before) && call.Call?
    requires var s0 := Exec(s, before);
             && Run(s0, [call] + acts) && Run(Apply(s0, call), acts) && Busy(Apply(s0, call), acts, call.t)
             && var s' := Exec(s0, [call] + acts); call.t < |s'.threads| && s'.threads[call.t] == Idle
    ensures var s0 := Exec(s, before);
            Inv(s0) && call.align > 0 && Answered(call, GotBy(s0, [call] + acts, call.t), Exec(s0, [call] + acts))
  {
    hide Inv, Apply, Answered;
    RunSafe(s, before);
    var s0 := Exec(s, before);
    assert ([call] + acts)[1..] == acts;
    CallGoesOn(s0, [call] + acts, call);
  }
}
