/** Byte positions of a fifo: 32-bit counters that wrap and are compared by the
    sign of their difference (src/svm/svm_fifo.h). The model pairs every stored
    position with the unbounded integer it stands for. */
module Position {

  const TWO_31: int := 0x8000_0000
  const TWO_32: int := 0x1_0000_0000

  type u32 = x: int | 0 <= x < 0x1_0000_0000

  function Least(a: int, b: int): int {
    if a < b then a else b
  }

  /** The stored form of an unbounded position. */
  function Wrap(x: int): u32 {
    x % TWO_32
  }

  /** Reinterpretation of a 32-bit value as a signed one. */
  function Signed(x: u32): int {
    if x < TWO_31 then x else x - TWO_32
  }

  function Sub(a: u32, b: u32): u32 {
    Wrap(a - b)
  }

  function Add(a: u32, b: int): u32 {
    Wrap(a + b)
  }

  predicate PosLt(a: u32, b: u32) {
    Signed(Sub(a, b)) < 0
  }

  predicate PosLeq(a: u32, b: u32) {
    Signed(Sub(a, b)) <= 0
  }

  predicate PosGt(a: u32, b: u32) {
    Signed(Sub(a, b)) > 0
  }

  predicate PosGeq(a: u32, b: u32) {
    Signed(Sub(a, b)) >= 0
  }

  /** The signed difference of two stored positions is the true distance exactly
      when the true distance fits in 32 signed bits. */
  lemma SignedDistance(a: int, b: int)
    ensures Signed(Sub(Wrap(a), Wrap(b))) == a - b <==> -TWO_31 <= a - b < TWO_31
  {
    var k, l := a / TWO_32, b / TWO_32;
    assert (Wrap(a) - Wrap(b)) - (a - b) == TWO_32 * (l - k);
  }

  /** Stored positions less than 2^31 apart compare as the unbounded ones do. */
  lemma Compare(a: int, b: int)
    requires -TWO_31 <= a - b < TWO_31
    ensures PosLt(Wrap(a), Wrap(b)) <==> a < b
    ensures PosLeq(Wrap(a), Wrap(b)) <==> a <= b
    ensures PosGt(Wrap(a), Wrap(b)) <==> a > b
    ensures PosGeq(Wrap(a), Wrap(b)) <==> a >= b
    ensures a >= b ==> Sub(Wrap(a), Wrap(b)) == a - b
  {
    SignedDistance(a, b);
  }

  /** Addition commutes with wrapping. */
  lemma AddWraps(a: int, n: int)
    ensures Add(Wrap(a), n) == Wrap(a + n)
  {
    assert (Wrap(a) + n) - (a + n) == TWO_32 * -(a / TWO_32);
  }

  /** Subtraction of stored positions is the distance between them. */
  lemma SubWraps(a: int, b: int)
    requires 0 <= b - a < TWO_32
    ensures Sub(Wrap(b), Wrap(a)) == b - a
  {
    assert (Wrap(b) - Wrap(a)) - (b - a) == TWO_32 * (a / TWO_32 - b / TWO_32);
  }

  /** The unsigned difference a - b, read as signed, tells whether b is at or before a. */
  lemma SignedSub(a: int, b: int, n: int)
    requires -TWO_31 <= a - b < n < TWO_31
    ensures 0 <= Signed(Sub(Wrap(a), Wrap(b))) <==> b <= a
    ensures b <= a ==> Sub(Wrap(a), Wrap(b)) == a - b
    ensures a < b ==> Sub(Wrap(a), Wrap(b)) > n
  {
    SignedDistance(a, b);
  }
}
