/**
  Bitcoin blocks as the daemons see them, and what a Bitcoin node promises about them.
  A header is identified by its hash and names its parent; a block adds the height that
  the node reports for it.
 */
module Blocks {

  type Hash = nat

  /** Heights are uint32 in the daemons. */
  const U32: nat := 0x1_0000_0000

  datatype Header = Header(hash: Hash, prev: Hash)

  datatype Block = Block(height: nat, header: Header)

  /** `b` is the next block after `a`. */
  predicate Extends(a: Block, b: Block) {
    b.header.prev == a.header.hash && b.height == a.height + 1
  }

  /** A hash-linked run of consecutive heights. */
  predicate Linked(s: seq<Block>) {
    forall i :: 0 < i < |s| ==> Extends(s[i - 1], s[i])
  }

  /** The last `n` elements of `s`. */
  function LastN<T>(s: seq<T>, n: nat): (r: seq<T>)
    ensures |r| == if |s| <= n then |s| else n
  {
    if |s| <= n then s else s[|s| - n..]
  }

  /** Keeping the last `n` elements after every append keeps the last `n` of the whole history. */
  lemma LastNAppend<T>(history: seq<T>, x: T, n: nat)
    requires n > 0
    ensures LastN(LastN(history, n) + [x], n) == LastN(history + [x], n)
  {
  }

  /**
    The block tree of all blocks that ever existed: a hash names one block, and a child
    is one higher than its parent.
   */
  ghost predicate Tree(w: iset<Block>) {
    && (forall a, b :: a in w && b in w && a.header.hash == b.header.hash ==> a == b)
    && (forall a, b :: a in w && b in w && b.header.prev == a.header.hash ==> b.height == a.height + 1)
  }

  lemma LinkedConcat(a: seq<Block>, b: seq<Block>)
    requires Linked(a) && Linked(b)
    requires a != [] && b != [] ==> Extends(a[|a| - 1], b[0])
    ensures Linked(a + b)
  {
    var s := a + b;
    forall i | 0 < i < |s| ensures Extends(s[i - 1], s[i]) {
      if i < |a| {
        assert Extends(a[i - 1], a[i]);
      } else if i > |a| {
        assert Extends(b[i - |a| - 1], b[i - |a|]);
      }
    }
  }

  lemma LinkedSlice(s: seq<Block>, i: nat, j: nat)
    requires Linked(s) && i <= j <= |s|
    ensures Linked(s[i..j])
  {
    forall x | 0 < x < j - i ensures Extends(s[i..j][x - 1], s[i..j][x]) {
      assert Extends(s[i + x - 1], s[i + x]);
    }
  }

  /** Heights along a linked run are consecutive. */
  lemma {:induction false} LinkedHeights(s: seq<Block>, i: nat, j: nat)
    requires Linked(s) && i <= j < |s|
    ensures s[j].height == s[i].height + (j - i)
    decreases j
  {
    if i < j {
      LinkedHeights(s, i, j - 1);
      assert Extends(s[j - 1], s[j]);
    }
  }
}
