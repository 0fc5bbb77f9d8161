/** Who holds which chunk of a segment. An operation of one owner changes only chunks that
    it holds, before or after, and every chunk stays with someone or on a free list. */
module Ownership {
  import opened Sequences
  import opened Chunks
  import opened FreeLists
  import opened SegmentState

  /** The chunk is handed out, and not to the owner of own. */
  ghost predicate Held(place: Places, own: seq<Sptr>, x: Sptr) {
    x in place && !place[x].free && x !in own
  }

  /** The others hold what they held and find it unchanged; so what left own0 and is not in
      own is free, and what came into own was free. */
  ghost predicate Conserves(mem0: Memory, place0: Places, own0: seq<Sptr>, mem: Memory, place: Places, own: seq<Sptr>) {
    && (forall x :: Held(place, own, x) <==> Held(place0, own0, x))
    && (forall x :: Held(place0, own0, x) ==> x in place && place[x] == place0[x] && x in mem0 && x in mem && mem[x] == mem0[x])
  }

  lemma ConservesRefl(mem: Memory, place: Places, own: seq<Sptr>)
    requires place.Keys <= mem.Keys
    ensures Conserves(mem, place, own, mem, place, own)
  {
  }

  lemma ConservesTrans(mem0: Memory, place0: Places, own0: seq<Sptr>, mem1: Memory, place1: Places, own1: seq<Sptr>,
                       mem: Memory, place: Places, own: seq<Sptr>)
    requires Conserves(mem0, place0, own0, mem1, place1, own1) && Conserves(mem1, place1, own1, mem, place, own)
    ensures Conserves(mem0, place0, own0, mem, place, own)
  {
    hide Held;
  }

  lemma ConservesWrite(mem: Memory, place: Places, own: seq<Sptr>, m: Memory)
    requires OwnWrite(mem, m, own) && place.Keys <= mem.Keys
    ensures Conserves(mem, place, own, m, place, own)
  {
  }

  lemma ConservesExtends(mem0: Memory, place0: Places, own: seq<Sptr>, mem: Memory, place: Places)
    requires Extends(mem0, place0, mem, place) && place0.Keys <= mem0.Keys
    ensures Conserves(mem0, place0, own, mem, place, own)
  {
  }

  lemma ConservesAllocated(mem0: Memory, place0: Places, own: seq<Sptr>, mem: Memory, place: Places, first: Sptr, got: seq<Sptr>, s: nat)
    requires Allocated(mem0, place0, mem, place, first, got, s) && HandedOut(place0, own, s) && place0.Keys <= mem0.Keys
    ensures Conserves(mem0, place0, own, mem, place, own + got)
    ensures HandedOut(place, own + got, s) && (forall x :: x in got ==> x !in own)
    ensures SameOn(mem0, mem, own)
  {
    hide ListOk;
    forall x ensures Held(place, own + got, x) <==> Held(place0, own, x) {
    }
  }

  lemma ConservesCollect(mem0: Memory, place0: Places, own0: seq<Sptr>, mem: Memory, freed: seq<Sptr>, own: seq<Sptr>, s: nat)
    requires HandedOut(place0, own0, s) && own0 == freed + own && NoRepeats(own0)
    requires OnlyNext(mem0, mem, freed) && place0.Keys <= mem0.Keys
    ensures Conserves(mem0, place0, own0, mem, Marked(place0, freed, true), own)
    ensures HandedOut(Marked(place0, freed, true), own, s)
    ensures SameOn(mem0, mem, own)
    ensures Freed(Marked(place0, freed, true), freed)
  {
    forall x | x in own ensures x in own0 && x !in freed {
      var i :| 0 <= i < |own| && own[i] == x;
      assert own0[|freed| + i] == x;
      forall j | 0 <= j < |freed| ensures freed[j] != x {
        assert own0[j] == freed[j];
      }
    }
  }

  /** What an owner's operation conserves, every other owner keeps. */
  lemma OthersKeep(mem0: Memory, place0: Places, own0: seq<Sptr>, mem: Memory, place: Places, own: seq<Sptr>, other: seq<Sptr>, s: nat)
    requires Conserves(mem0, place0, own0, mem, place, own) && HandedOut(place0, other, s)
    requires forall x :: x in other ==> x !in own0
    ensures HandedOut(place, other, s) && SameOn(mem0, mem, other) && (forall x :: x in other ==> x !in own)
  {
    forall x | x in other ensures Held(place0, own0, x) && Held(place, own, x) {
    }
  }

  /** Every chunk that is handed out is in own or in one of the chains, if it was so before. */
  lemma NoLeak(mem0: Memory, place0: Places, own0: seq<Sptr>, mem: Memory, place: Places, own: seq<Sptr>, x: Sptr)
    requires Conserves(mem0, place0, own0, mem, place, own) && x in place && !place[x].free && x !in own
    ensures x in place0 && !place0[x].free && x !in own0
  {
    assert Held(place, own, x);
    assert Held(place0, own0, x);
  }
}
