/** The search trees that index a fifo's chunks by start position. The walk is
    f_find_node_rbtree of src/svm/svm_fifo.c; of the tree itself only the ordered-set
    contract is modelled, by an unbalanced search tree. */
module ChunkTree {
  import opened Position

  datatype Tree = Nil | Node(left: Tree, key: u32, chunk: nat, right: Tree)

  /** The unbounded position that a stored key stands for in the window from w. */
  ghost function Unwrap(w: int, x: u32): (p: int)
    ensures w <= p < w + TWO_32 && Wrap(p) == x
  {
    var p := w + (x - w) % TWO_32;
    assert p - x == TWO_32 * -((x - w) / TWO_32);
    p
  }

  lemma UnwrapWrap(w: int, p: int)
    requires w <= p < w + TWO_32
    ensures Unwrap(w, Wrap(p)) == p
  {
    var q := Unwrap(w, Wrap(p));
    assert q - p == TWO_32 * (q / TWO_32 - p / TWO_32);
  }

  /** Keys of a window of half the counter range compare as the positions they stand for. */
  lemma KeysCompare(w: int, a: u32, b: u32)
    requires Unwrap(w, a) < w + TWO_31 && Unwrap(w, b) < w + TWO_31
    ensures PosLt(a, b) <==> Unwrap(w, a) < Unwrap(w, b)
    ensures a == b <==> Unwrap(w, a) == Unwrap(w, b)
  {
    Compare(Unwrap(w, a), Unwrap(w, b));
  }

  /** Search-tree order, with all keys in lo..hi. */
  ghost predicate Ordered(t: Tree, w: int, lo: int, hi: int) {
    t.Node? ==>
      && lo <= Unwrap(w, t.key) < hi
      && Ordered(t.left, w, lo, Unwrap(w, t.key))
      && Ordered(t.right, w, Unwrap(w, t.key) + 1, hi)
  }

  ghost predicate Has(t: Tree, key: u32, chunk: nat) {
    t.Node? && ((t.key == key && t.chunk == chunk) || Has(t.left, key, chunk) || Has(t.right, key, chunk))
  }

  lemma {:induction false} HasInRange(t: Tree, w: int, lo: int, hi: int, key: u32, chunk: nat)
    requires Ordered(t, w, lo, hi) && Has(t, key, chunk)
    ensures lo <= Unwrap(w, key) < hi
  {
    if Has(t.left, key, chunk) {
      HasInRange(t.left, w, lo, Unwrap(w, t.key), key, chunk);
    } else if Has(t.right, key, chunk) {
      HasInRange(t.right, w, Unwrap(w, t.key) + 1, hi, key, chunk);
    }
  }

  /** The entry with the greatest key at or before p. */
  ghost predicate IsFloor(t: Tree, w: int, p: int, key: u32, chunk: nat) {
    && Has(t, key, chunk) && Unwrap(w, key) <= p
    && (forall k, c :: Has(t, k, c) && Unwrap(w, k) <= p ==> Unwrap(w, k) <= Unwrap(w, key))
  }

  ghost predicate NoneAtOrBefore(t: Tree, w: int, p: int) {
    forall k, c :: Has(t, k, c) ==> Unwrap(w, k) > p
  }

  /** The floor of the whole tree is decided by the subtree under the cursor: if that
      subtree has nothing at or before p, it is the last node the walk turned right at. */
  ghost predicate Cursor(t: Tree, w: int, p: int, cur: Tree, right: Tree, lo: int, hi: int) {
    && Ordered(cur, w, lo, hi) && w <= lo && hi <= w + TWO_31 && lo <= p + 1
    && (forall k, c :: Has(cur, k, c) ==> Has(t, k, c))
    && (forall k, c :: Has(t, k, c) && Unwrap(w, k) <= p ==> Has(cur, k, c) || (right.Node? && Unwrap(w, k) <= Unwrap(w, right.key)))
    && (right.Node? ==> Has(t, right.key, right.chunk) && Unwrap(w, right.key) <= p && Unwrap(w, right.key) < lo)
  }

  lemma CursorLeft(t: Tree, w: int, p: int, cur: Tree, right: Tree, lo: int, hi: int)
    requires Cursor(t, w, p, cur, right, lo, hi) && cur.Node? && p < Unwrap(w, cur.key)
    ensures Cursor(t, w, p, cur.left, right, lo, Unwrap(w, cur.key))
  {
    forall k, c | Has(cur, k, c) && Unwrap(w, k) <= p ensures Has(cur.left, k, c) {
      if Has(cur.right, k, c) {
        HasInRange(cur.right, w, Unwrap(w, cur.key) + 1, hi, k, c);
      }
    }
  }

  lemma CursorRight(t: Tree, w: int, p: int, cur: Tree, right: Tree, lo: int, hi: int)
    requires Cursor(t, w, p, cur, right, lo, hi) && cur.Node? && Unwrap(w, cur.key) < p
    ensures Cursor(t, w, p, cur.right, cur, Unwrap(w, cur.key) + 1, hi)
  {
    forall k, c | Has(cur, k, c) ensures Has(cur.right, k, c) || Unwrap(w, k) <= Unwrap(w, cur.key) {
      if Has(cur.left, k, c) {
        HasInRange(cur.left, w, lo, Unwrap(w, cur.key), k, c);
      }
    }
  }

  /** f_find_node_rbtree: the walk that returns the node with the greatest key at or
      before pos, or no node. The predecessor of a node without a left child is the
      last node at which the walk to it turned right. */
  method FindNode(t: Tree, pos: u32, ghost w: int, ghost p: int) returns (n: Tree)
    requires Ordered(t, w, w, w + TWO_31) && w <= p < w + TWO_31 && pos == Wrap(p)
    ensures n.Nil? ==> NoneAtOrBefore(t, w, p)
    ensures n.Node? ==> IsFloor(t, w, p, n.key, n.chunk)
  {
    if t.Nil? {
      return Nil;
    }
    UnwrapWrap(w, p);
    var cur, right := t, Nil;
    ghost var lo, hi := w, w + TWO_31;
    while pos != cur.key
      invariant cur.Node? && Cursor(t, w, p, cur, right, lo, hi)
      decreases cur
    {
      KeysCompare(w, pos, cur.key);
      if PosLt(pos, cur.key) {
        CursorLeft(t, w, p, cur, right, lo, hi);
        hi := Unwrap(w, cur.key);
        if cur.left.Nil? {
          return right;
        }
        cur := cur.left;
      } else {
        CursorRight(t, w, p, cur, right, lo, hi);
        lo, right := Unwrap(w, cur.key) + 1, cur;
        if cur.right.Nil? {
          return cur;
        }
        cur := cur.right;
      }
    }
    return cur;
  }

  /** rb_tree_add_custom, without the rebalancing. */
  function Insert(t: Tree, key: u32, chunk: nat): Tree {
    match t
    case Nil => Node(Nil, key, chunk, Nil)
    case Node(l, k, c, r) =>
      if PosLt(key, k) then Node(Insert(l, key, chunk), k, c, r) else Node(l, k, c, Insert(r, key, chunk))
  }

  lemma {:induction false} InsertOrdered(t: Tree, w: int, lo: int, hi: int, key: u32, chunk: nat)
    requires Ordered(t, w, lo, hi) && w <= lo && hi <= w + TWO_31 && lo <= Unwrap(w, key) < hi
    requires forall c :: !Has(t, key, c)
    ensures Ordered(Insert(t, key, chunk), w, lo, hi)
  {
    if t.Node? {
      KeysCompare(w, key, t.key);
      assert Has(t, t.key, t.chunk);
      assert forall c :: Has(t.left, key, c) || Has(t.right, key, c) ==> Has(t, key, c);
      if PosLt(key, t.key) {
        InsertOrdered(t.left, w, lo, Unwrap(w, t.key), key, chunk);
      } else {
        InsertOrdered(t.right, w, Unwrap(w, t.key) + 1, hi, key, chunk);
      }
    }
  }

  lemma {:induction false} InsertHas(t: Tree, key: u32, chunk: nat, k: u32, c: nat)
    ensures Has(Insert(t, key, chunk), k, c) <==> Has(t, k, c) || (k == key && c == chunk)
  {
    if t.Node? {
      InsertHas(t.left, key, chunk, k, c);
      InsertHas(t.right, key, chunk, k, c);
    }
  }

  /** Puts r to the right of everything in l. */
  function Join(l: Tree, r: Tree): Tree {
    match l
    case Nil => r
    case Node(ll, k, c, lr) => Node(ll, k, c, Join(lr, r))
  }

  lemma {:induction false} JoinOrdered(l: Tree, r: Tree, w: int, lo: int, mid: int, hi: int)
    requires Ordered(l, w, lo, mid) && Ordered(r, w, mid, hi) && lo <= mid <= hi
    ensures Ordered(Join(l, r), w, lo, hi)
  {
    if l.Node? {
      JoinOrdered(l.right, r, w, Unwrap(w, l.key) + 1, mid, hi);
    } else {
      Widen(r, w, mid, hi, lo, hi);
    }
  }

  lemma {:induction false} Widen(t: Tree, w: int, lo: int, hi: int, lo': int, hi': int)
    requires Ordered(t, w, lo, hi) && lo' <= lo && hi <= hi'
    ensures Ordered(t, w, lo', hi')
  {
    if t.Node? {
      Widen(t.left, w, lo, Unwrap(w, t.key), lo', Unwrap(w, t.key));
      Widen(t.right, w, Unwrap(w, t.key) + 1, hi, Unwrap(w, t.key) + 1, hi');
    }
  }

  lemma {:induction false} JoinHas(l: Tree, r: Tree, k: u32, c: nat)
    ensures Has(Join(l, r), k, c) <==> Has(l, k, c) || Has(r, k, c)
  {
    if l.Node? {
      JoinHas(l.right, r, k, c);
    }
  }

  /** rb_tree_del_node, without the rebalancing. */
  function Delete(t: Tree, key: u32): Tree {
    match t
    case Nil => Nil
    case Node(l, k, c, r) =>
      if k == key then Join(l, r)
      else if PosLt(key, k) then Node(Delete(l, key), k, c, r)
      else Node(l, k, c, Delete(r, key))
  }

  lemma {:induction false} DeleteOrdered(t: Tree, w: int, lo: int, hi: int, key: u32)
    requires Ordered(t, w, lo, hi)
    ensures Ordered(Delete(t, key), w, lo, hi)
  {
    if t.Node? {
      if t.key == key {
        Widen(t.right, w, Unwrap(w, t.key) + 1, hi, Unwrap(w, t.key), hi);
        JoinOrdered(t.left, t.right, w, lo, Unwrap(w, t.key), hi);
      } else {
        DeleteOrdered(t.left, w, lo, Unwrap(w, t.key), key);
        DeleteOrdered(t.right, w, Unwrap(w, t.key) + 1, hi, key);
      }
    }
  }

  lemma {:induction false} DeleteHas(t: Tree, w: int, lo: int, hi: int, key: u32, k: u32, c: nat)
    requires Ordered(t, w, lo, hi) && w <= lo && hi <= w + TWO_31 && Unwrap(w, key) < w + TWO_31
    ensures Has(Delete(t, key), k, c) <==> Has(t, k, c) && k != key
  {
    if t.Node? {
      var m := Unwrap(w, t.key);
      KeysCompare(w, key, t.key);
      if Has(t.left, k, c) { HasInRange(t.left, w, lo, m, k, c); }
      if Has(t.right, k, c) { HasInRange(t.right, w, m + 1, hi, k, c); }
      if t.key == key {
        JoinHas(t.left, t.right, k, c);
      } else {
        DeleteHas(t.left, w, lo, m, key, k, c);
        DeleteHas(t.right, w, m + 1, hi, key, k, c);
      }
    }
  }

  /** A tree whose keys all lie at or beyond lo' is ordered in that smaller range. */
  lemma {:induction false} Narrow(t: Tree, w: int, lo: int, hi: int, lo': int)
    requires Ordered(t, w, lo, hi)
    requires forall k, c :: Has(t, k, c) ==> lo' <= Unwrap(w, k)
    ensures Ordered(t, w, lo', hi)
  {
    if t.Node? {
      assert Has(t, t.key, t.chunk);
      assert forall k, c :: Has(t.left, k, c) ==> Has(t, k, c);
      Narrow(t.left, w, lo, Unwrap(w, t.key), lo');
    }
  }

  /** The window may move up to any position at or before the smallest key. */
  lemma {:induction false} Rebase(t: Tree, w: int, w': int, lo: int, hi: int)
    requires Ordered(t, w, lo, hi) && w <= w' <= lo && hi <= w + TWO_31
    ensures Ordered(t, w', lo, hi)
  {
    if t.Node? {
      UnwrapWrap(w', Unwrap(w, t.key));
      Rebase(t.left, w, w', lo, Unwrap(w, t.key));
      Rebase(t.right, w, w', Unwrap(w, t.key) + 1, hi);
    }
  }
}
