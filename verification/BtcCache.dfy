/** types/btccache.go: the bounded cache of recent blocks shared by the reporter and the scanner. */
module BtcCache {
  import opened Wrappers
  import opened Blocks

  /** What sort.SliceIsSorted accepts: equal neighbouring heights pass. */
  predicate NonDecreasing(s: seq<Block>) {
    forall i :: 0 < i < |s| ==> s[i - 1].height <= s[i].height
  }

  predicate StrictlyIncreasing(s: seq<Block>) {
    forall i, j :: 0 <= i < j < |s| ==> s[i].height < s[j].height
  }

  lemma LinkedIsStrictlyIncreasing(s: seq<Block>)
    requires Linked(s)
    ensures StrictlyIncreasing(s)
  {
    forall i, j | 0 <= i < j < |s| ensures s[i].height < s[j].height {
      LinkedHeights(s, i, j);
    }
  }

  lemma LinkedIsNonDecreasing(s: seq<Block>)
    requires Linked(s)
    ensures NonDecreasing(s)
  {
    forall i | 0 < i < |s| ensures s[i - 1].height <= s[i].height {
      assert Extends(s[i - 1], s[i]);
    }
  }

  /** The block a scan from the front finds at height `h`. */
  function LinearFind(s: seq<Block>, h: nat): (r: Option<Block>) {
    if s == [] then None
    else if s[0].height == h then Some(s[0])
    else LinearFind(s[1..], h)
  }

  lemma {:induction false} LinearFindAt(s: seq<Block>, h: nat, m: nat)
    requires m < |s| && s[m].height == h
    requires forall i :: 0 <= i < m ==> s[i].height != h
    ensures LinearFind(s, h) == Some(s[m])
  {
    if m > 0 {
      assert s[0].height != h;
      LinearFindAt(s[1..], h, m - 1);
    }
  }

  lemma {:induction false} LinearFindNone(s: seq<Block>, h: nat)
    requires forall b :: b in s ==> b.height != h
    ensures LinearFind(s, h) == None
  {
    if s != [] {
      assert s[0] in s;
      LinearFindNone(s[1..], h);
    }
  }

  /** What a cache of capacity `n` holds after a list of additions, one at a time. */
  function AddAll(content: seq<Block>, added: seq<Block>, n: nat): seq<Block>
    decreases |added|
  {
    if added == [] then content
    else LastN(AddAll(content, added[..|added| - 1], n) + [added[|added| - 1]], n)
  }

  /** The cache is a window on history: after any additions it holds the last `n` blocks of all. */
  lemma {:induction false} CacheHoldsLastN(content: seq<Block>, added: seq<Block>, n: nat)
    requires n > 0 && |content| <= n
    ensures AddAll(content, added, n) == LastN(content + added, n)
    decreases |added|
  {
    if added == [] {
      assert content + added == content;
    } else {
      var before, x := added[..|added| - 1], added[|added| - 1];
      CacheHoldsLastN(content, before, n);
      LastNAppend(content + before, x, n);
      assert content + added == content + before + [x];
    }
  }

  /** sort.SliceIsSorted on heights. */
  method IsSortedByHeight(ibs: seq<Block>) returns (sorted: bool)
    ensures sorted <==> NonDecreasing(ibs)
  {
    var i := |ibs| - 1;
    while i > 0
      invariant -1 <= i < |ibs|
      invariant forall j :: i < j < |ibs| && 0 < j ==> ibs[j - 1].height <= ibs[j].height
    {
      if ibs[i].height < ibs[i - 1].height {
        return false;
      }
      i := i - 1;
    }
    sorted := true;
  }

  class BTCCache {
    var blocks: seq<Block>
    var maxEntries: nat

    ghost predicate Valid()
      reads this
    {
      maxEntries > 0
    }

    constructor (max: nat)
      requires max > 0
      ensures Valid() && blocks == [] && maxEntries == max
    {
      blocks := [];
      maxEntries := max;
    }

    /** Panics exactly when the cache already holds too many blocks; otherwise the oldest makes room. */
    method Add(ib: Block) returns (panicked: bool)
      requires Valid()
      modifies this`blocks
      ensures panicked <==> old(|blocks|) > maxEntries
      ensures blocks == if panicked then old(blocks) else LastN(old(blocks) + [ib], maxEntries)
    {
      if |blocks| > maxEntries {
        return true;
      }
      if |blocks| == maxEntries {
        blocks := blocks[1..];
      }
      blocks := blocks + [ib];
      panicked := false;
    }

    /** Rejects a list that is too long or out of order; otherwise adds every block in turn. */
    method Init(ibs: seq<Block>) returns (outcome: Outcome)
      requires Valid()
      modifies this`blocks
      ensures outcome.Failed? <==> |ibs| > maxEntries || !NonDecreasing(ibs)
      ensures outcome.Panicked? <==> !outcome.Failed? && ibs != [] && old(|blocks|) > maxEntries
      ensures blocks ==
              if outcome.Done? && old(|blocks|) <= maxEntries then LastN(old(blocks) + ibs, maxEntries)
              else old(blocks)
    {
      if |ibs| > maxEntries {
        return Failed;
      }
      var sorted := IsSortedByHeight(ibs);
      if !sorted {
        return Failed;
      }
      var i := 0;
      while i < |ibs|
        invariant 0 <= i <= |ibs|
        invariant old(|blocks|) > maxEntries ==> i == 0
        invariant old(|blocks|) <= maxEntries ==> |blocks| <= maxEntries
        invariant blocks == AddAll(old(blocks), ibs[..i], maxEntries)
      {
        assert ibs[..i + 1][..i] == ibs[..i];
        var panicked := Add(ibs[i]);
        if panicked {
          return Panicked;
        }
        i := i + 1;
      }
      assert ibs[..|ibs|] == ibs;
      if old(|blocks|) <= maxEntries {
        CacheHoldsLastN(old(blocks), ibs, maxEntries);
      }
      outcome := Done;
    }

    method Tip() returns (tip: Option<Block>)
      ensures tip == if blocks == [] then None else Some(blocks[|blocks| - 1])
    {
      tip := if |blocks| == 0 then None else Some(blocks[|blocks| - 1]);
    }

    method RemoveAll()
      modifies this`blocks
      ensures blocks == []
    {
      blocks := [];
    }

    /**
      The blocks from the last one at `stopHeight` to the tip. An empty cache panics. On content
      that skips the height, the loop finds nothing and everything is returned.
     */
    method GetLastBlocks(stopHeight: nat) returns (outcome: Outcome, tail: seq<Block>)
      ensures outcome.Panicked? <==> blocks == []
      ensures outcome.Done? <==> blocks != [] && blocks[0].height <= stopHeight <= blocks[|blocks| - 1].height
      ensures outcome.Done? ==>
        exists j ::
          && 0 <= j < |blocks| && tail == blocks[j..]
          && (forall m :: j < m < |blocks| ==> blocks[m].height != stopHeight)
          && (blocks[j].height == stopHeight || j == 0)
      ensures outcome.Done? && Linked(blocks) ==> tail != [] && tail[0].height == stopHeight
    {
      tail := [];
      if |blocks| == 0 {
        return Panicked, [];
      }
      if stopHeight < blocks[0].height || blocks[|blocks| - 1].height < stopHeight {
        return Failed, [];
      }
      var j, i := 0, |blocks| - 1;
      while i >= 0
        invariant -1 <= i < |blocks|
        invariant j == 0
        invariant forall m :: i < m < |blocks| ==> blocks[m].height != stopHeight
      {
        if blocks[i].height == stopHeight {
          j := i;
          break;
        }
        i := i - 1;
      }
      if Linked(blocks) {
        LinkedHeights(blocks, 0, |blocks| - 1);
        var m := stopHeight - blocks[0].height;
        LinkedHeights(blocks, 0, m);
        assert blocks[m].height == stopHeight;
      }
      outcome, tail := Done, blocks[j..];
    }

    /** Splits the content: what is more than `k` deep is returned, the rest stays. */
    method TrimConfirmedBlocks(k: nat) returns (res: seq<Block>)
      modifies this`blocks
      ensures old(blocks) == res + blocks
      ensures |blocks| <= k
      ensures res != [] ==> |blocks| == k
    {
      var l := |blocks|;
      if l <= k {
        return [];
      }
      res := blocks[..l - k];
      blocks := blocks[l - k..];
    }

    /** Binary search; on strictly increasing heights it agrees with a scan from the front. */
    method FindBlock(h: nat) returns (outcome: Outcome, found: Option<Block>)
      ensures outcome == if blocks == [] then Panicked else Done
      ensures found.Some? ==> found.value in blocks && found.value.height == h
      ensures blocks != [] && StrictlyIncreasing(blocks) ==> found == LinearFind(blocks, h)
    {
      found := None;
      if |blocks| == 0 {
        return Panicked, None;
      }
      outcome := Done;
      if h < blocks[0].height || blocks[|blocks| - 1].height < h {
        if StrictlyIncreasing(blocks) {
          LinearFindNone(blocks, h);
        }
        return;
      }
      var left, right := 0, |blocks| - 1;
      while left <= right
        invariant 0 <= left <= |blocks| && -1 <= right < |blocks|
        invariant StrictlyIncreasing(blocks) ==> forall i :: 0 <= i < left ==> blocks[i].height < h
        invariant StrictlyIncreasing(blocks) ==> forall i :: right < i < |blocks| ==> blocks[i].height > h
        decreases right - left
      {
        var mid := left + (right - left) / 2;
        if blocks[mid].height == h {
          if StrictlyIncreasing(blocks) {
            LinearFindAt(blocks, h, mid);
          }
          return Done, Some(blocks[mid]);
        }
        if blocks[mid].height > h {
          right := mid - 1;
        } else {
          left := mid + 1;
        }
      }
      if StrictlyIncreasing(blocks) {
        LinearFindNone(blocks, h);
      }
    }

    method Resize(max: nat) returns (ok: bool)
      requires Valid()
      modifies this`maxEntries
      ensures Valid()
      ensures ok <==> max > 0
      ensures maxEntries == if ok then max else old(maxEntries)
    {
      ok := max > 0;
      if ok {
        maxEntries := max;
      }
    }

    method Trim()
      requires Valid()
      modifies this`blocks
      ensures blocks == LastN(old(blocks), maxEntries)
    {
      if |blocks| < maxEntries {
        return;
      }
      blocks := blocks[|blocks| - maxEntries..];
    }
  }
}
