/** Chunk size classes of a fifo segment (src/svm/fifo_segment.c:466-490). */
module SizeClasses {

  const MIN_LOG2_SIZE: nat := 12
  const VEC_LEN: nat := 11
  const MIN_SIZE: nat := 4096
  const MAX_SIZE: nat := 0x40_0000

  function Pow2(n: nat): nat {
    if n == 0 then 1 else 2 * Pow2(n - 1)
  }

  /** The position of the highest set bit. */
  function MinLog2(x: nat): nat {
    if x <= 1 then 0 else 1 + MinLog2(x / 2)
  }

  function MaxLog2(x: nat): nat {
    var l := MinLog2(x);
    if x > Pow2(l) then l + 1 else l
  }

  lemma {:induction false} FloorLog(x: nat)
    requires x >= 1
    ensures Pow2(MinLog2(x)) <= x < 2 * Pow2(MinLog2(x))
  {
    if x > 1 {
      FloorLog(x / 2);
    }
  }

  /** max_log2 is the least exponent whose power reaches x. */
  lemma CeilingLog(x: nat)
    requires x >= 1
    ensures x <= Pow2(MaxLog2(x)) && (MaxLog2(x) > 0 ==> Pow2(MaxLog2(x) - 1) < x)
  {
    FloorLog(x);
  }

  lemma {:induction false} Pow2Monotone(m: nat, n: nat)
    requires m <= n
    ensures Pow2(m) <= Pow2(n)
    decreases n
  {
    if m < n {
      Pow2Monotone(m, n - 1);
    }
  }

  lemma Pow2Values()
    ensures Pow2(11) == 2048 && Pow2(12) == 4096 && Pow2(13) == 8192 && Pow2(21) == 0x20_0000
    ensures Pow2(22) == MAX_SIZE && Pow2(23) == 2 * MAX_SIZE
  {
    assert Pow2(4) == 16;
    assert Pow2(8) == 256;
    assert Pow2(12) == 4096;
    assert Pow2(16) == 0x1_0000;
    assert Pow2(20) == 0x10_0000;
  }

  lemma AtLeastMin(size: nat)
    requires size >= MIN_SIZE
    ensures MaxLog2(size) >= MIN_LOG2_SIZE
  {
    Pow2Values();
    CeilingLog(size);
    if MaxLog2(size) < MIN_LOG2_SIZE {
      Pow2Monotone(MaxLog2(size), 11);
    }
  }

  function FreelistForSize(size: nat): nat {
    if size < MIN_SIZE then 0
    else
      AtLeastMin(size);
      if MaxLog2(size) - MIN_LOG2_SIZE < VEC_LEN - 1 then MaxLog2(size) - MIN_LOG2_SIZE else VEC_LEN - 1
  }

  function IndexToSize(fl: nat): nat {
    Pow2(fl + MIN_LOG2_SIZE)
  }

  lemma ClassBounds(fl: nat)
    requires fl < VEC_LEN
    ensures MIN_SIZE <= IndexToSize(fl) <= MAX_SIZE
    ensures fl + 1 < VEC_LEN ==> IndexToSize(fl + 1) == 2 * IndexToSize(fl)
  {
    Pow2Values();
    Pow2Monotone(12, fl + 12);
    Pow2Monotone(fl + 12, 22);
  }

  /** A chunk of the class chosen for a request holds the request exactly when the
      request is at most 4 MB: the class index is clamped to the last list. */
  lemma ClassCovers(size: nat)
    ensures FreelistForSize(size) < VEC_LEN
    ensures size <= IndexToSize(FreelistForSize(size)) <==> size <= MAX_SIZE
  {
    Pow2Values();
    if size >= MIN_SIZE {
      CeilingLog(size);
      if MaxLog2(size) <= 22 {
        Pow2Monotone(MaxLog2(size), 22);
      } else {
        Pow2Monotone(22, MaxLog2(size) - 1);
      }
    }
  }

  /** The class below the chosen one is too small: at most twice the request is handed out. */
  lemma ClassTight(size: nat)
    requires FreelistForSize(size) > 0
    ensures IndexToSize(FreelistForSize(size) - 1) < size
  {
    Pow2Values();
    CeilingLog(size);
    if MaxLog2(size) >= 22 {
      Pow2Monotone(21, MaxLog2(size) - 1);
    }
  }

  /** A chunk goes back to the list of its own size. */
  lemma ClassOfSize(fl: nat)
    requires fl < VEC_LEN
    ensures FreelistForSize(IndexToSize(fl)) == fl
  {
    ClassBounds(fl);
    LogOfPower(fl + MIN_LOG2_SIZE);
  }

  lemma LogOfPower(e: nat)
    ensures Pow2(e) >= 1 && MaxLog2(Pow2(e)) == e
  {
    hide Pow2, MaxLog2;
    PowerPositive(e);
    var m := MaxLog2(Pow2(e));
    CeilingLog(Pow2(e));
    if m < e {
      Pow2Monotone(m + 1, e);
      PowerPositive(m);
      PowerStep(m);
    } else if m > e {
      Pow2Monotone(e, m - 1);
    }
  }

  lemma {:induction false} PowerPositive(e: nat)
    ensures Pow2(e) >= 1
  {
    if e > 0 {
      PowerPositive(e - 1);
    }
  }

  lemma PowerStep(e: nat)
    ensures Pow2(e + 1) == 2 * Pow2(e)
  {
  }

  lemma ClassClamped(size: nat)
    requires FreelistForSize(size) < VEC_LEN - 1
    ensures size <= MAX_SIZE
  {
    Pow2Values();
    if size >= MIN_SIZE {
      CeilingLog(size);
      Pow2Monotone(MaxLog2(size), 22);
    }
  }
}
