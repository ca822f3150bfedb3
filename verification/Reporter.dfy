/**
  reporter/bootstrapping.go, reporter/block_handler.go and btcclient/query.go: filling the block
  cache from the best chain, checking it against Babylon's light client, and keeping it up to date.
 */
module Reporter {
  import opened Wrappers
  import opened Blocks
  import opened BtcCache

  // ---- Heights, in uint32 arithmetic ----

  /** From where the cache is filled, given Babylon's tip and base heights. */
  function BaseHeight(tip: nat, base: nat, k: nat, w: nat): nat {
    if tip > (base + k + w) % U32 then (tip - k - w + 1) % U32 else base
  }

  /** The height at which the cache and Babylon must agree. */
  function ConsistencyHeight(tip: nat, base: nat, k: nat): nat {
    if tip >= (base + k) % U32 then (tip - k) % U32 else base
  }

  /**
    With the cached tip at or above every Babylon tip, and Babylon's tip not falling between the two
    reads, the consistency height and the next one are cached, unless Babylon has fewer than k
    headers above its base and Bitcoin has none: then, and only then, the next height is missing.
   */
  lemma HeightsAreCachedIff(tip1: nat, tip2: nat, base: nat, k: nat, w: nat, btcTip: nat)
    requires k >= 1 && w >= 1 && base + k + w < U32 && btcTip < U32
    requires tip1 <= tip2 <= btcTip && base <= btcTip
    ensures var from, check := BaseHeight(tip1, base, k, w), ConsistencyHeight(tip2, base, k);
            && base <= from <= check <= btcTip
            && (check + 1 <= btcTip <==> btcTip > base || tip2 >= base + k)
  {
    assert (base + k + w) % U32 == base + k + w && (base + k) % U32 == base + k;
    if tip1 > base + k + w {
      assert (tip1 - k - w + 1) % U32 == tip1 - k - w + 1;
    }
    if tip2 >= base + k {
      assert (tip2 - k) % U32 == tip2 - k;
    }
  }

  /**
    The consistency height is the greatest one at or above the base that is k deep below Babylon's
    tip, and the base if there is none.
   */
  lemma ConsistencyHeightIsDeepest(tip: nat, base: nat, k: nat, h: nat)
    requires tip < U32 && base + k < U32
    ensures var check := ConsistencyHeight(tip, base, k);
            && base <= check && (check == base || check + k <= tip)
            && (base <= h && h + k <= tip ==> h <= check)
  {
    assert (base + k) % U32 == base + k;
    if tip >= base + k {
      assert (tip - k) % U32 == tip - k;
    }
  }

  /**
    The cache is filled from where exactly k + w blocks reach up to Babylon's tip, or from the base
    if Babylon has no more than one block beyond that.
   */
  lemma TailIsKPlusW(tip: nat, base: nat, k: nat, w: nat)
    requires k + w > 0 && tip < U32 && base + k + w < U32
    ensures var from := BaseHeight(tip, base, k, w);
            base <= from && (if tip + 1 - base > k + w + 1 then tip + 1 - from == k + w else from == base)
  {
    assert (base + k + w) % U32 == base + k + w;
    if tip > base + k + w {
      assert (tip - k - w + 1) % U32 == tip - k - w + 1;
    }
  }

  // ---- The backward walk ----

  /** What the node knows by hash: a hash names its block, and a parent is one lower. */
  ghost predicate NodeTree(tree: map<Hash, Block>, tip: Block) {
    && (forall h :: h in tree ==> tree[h].header.hash == h)
    && (forall h, p :: h in tree && p in tree && tree[h].header.prev == p ==> Extends(tree[p], tree[h]))
    && (tip.header.prev in tree ==> Extends(tree[tip.header.prev], tip))
  }

  /** The `n` blocks below and including `tip`, if the node has all of them. */
  function Walk(tree: map<Hash, Block>, tip: Block, n: nat): (r: Option<seq<Block>>)
    ensures r.Some? ==> |r.value| == n + 1 && r.value[n] == tip
    decreases n
  {
    if n == 0 then Some([tip])
    else if tip.header.prev !in tree then None
    else
      var below := Walk(tree, tree[tip.header.prev], n - 1);
      if below.None? then None else Some(below.value + [tip])
  }

  /** The walk follows parent hashes, so it yields a linked run of consecutive heights. */
  lemma {:induction false} WalkIsLinked(tree: map<Hash, Block>, tip: Block, n: nat)
    requires NodeTree(tree, tip) && Walk(tree, tip, n).Some?
    ensures Linked(Walk(tree, tip, n).value)
    ensures Walk(tree, tip, n).value[0].height + n == tip.height
    decreases n
  {
    if n > 0 {
      var parent := tree[tip.header.prev];
      WalkIsLinked(tree, parent, n - 1);
      LinkedConcat(Walk(tree, parent, n - 1).value, [tip]);
    }
  }

  /** The blocks still to fetch do not depend on what has been written above them. */
  lemma {:induction false} WalkSplits(tree: map<Hash, Block>, tip: Block, n: nat, m: nat)
    requires m <= n && Walk(tree, tip, m).Some?
    ensures Walk(tree, tip, n) ==
            var rest := Walk(tree, Walk(tree, tip, m).value[0], n - m);
            if rest.None? then None else Some(rest.value + Walk(tree, tip, m).value[1..])
    decreases m
  {
    var top := Walk(tree, tip, m).value;
    if m == 0 {
      assert top[1..] == [];
      assert forall s: seq<Block> :: s + [] == s;
    } else {
      var parent := tree[tip.header.prev];
      var below := Walk(tree, parent, m - 1).value;
      WalkSplits(tree, parent, n - 1, m - 1);
      assert top == below + [tip] && top[1..] == below[1..] + [tip];
      var rest := Walk(tree, below[0], n - m);
      if rest.Some? {
        assert rest.value + below[1..] + [tip] == rest.value + (below[1..] + [tip]);
      }
    }
  }

  /** One more parent. */
  lemma WalkOne(tree: map<Hash, Block>, tip: Block, top: seq<Block>, parent: Block, n: nat)
    requires n > 0 && Walk(tree, tip, n - 1) == Some(top)
    requires top[0].header.prev in tree && parent == tree[top[0].header.prev]
    ensures Walk(tree, tip, n) == Some([parent] + top)
  {
    WalkSplits(tree, tip, n, n - 1);
    assert Walk(tree, top[0], 1) == Some([parent, top[0]]) by {
      assert Walk(tree, parent, 0) == Some([parent]);
      assert [parent] + [top[0]] == [parent, top[0]];
    }
    assert [parent, top[0]] + top[1..] == [parent] + top;
  }

  /** A missing parent ends the walk for good. */
  lemma WalkStuck(tree: map<Hash, Block>, tip: Block, top: seq<Block>, m: nat, n: nat)
    requires m < n && Walk(tree, tip, m) == Some(top) && top[0].header.prev !in tree
    ensures Walk(tree, tip, n).None?
  {
    WalkSplits(tree, tip, n, m);
  }

  /** One turn of the loop in `getChainBlocks`. */
  method PutBelow(
    chain: array<Block>, i: nat, tree: map<Hash, Block>, prev: Hash,
    ghost tip: Block, ghost m: nat, ghost top: seq<Block>
  ) returns (ghost top': seq<Block>)
    requires 0 < i < chain.Length && prev in tree && top == chain[i..]
    requires Walk(tree, tip, m) == Some(top) && prev == top[0].header.prev
    modifies chain
    ensures top' == chain[i - 1..] && Walk(tree, tip, m + 1) == Some(top') && top'[0] == tree[prev]
  {
    WalkOne(tree, tip, top, tree[prev], m + 1);
    chain[i - 1] := tree[prev];
    top' := [tree[prev]] + top;
    assert chain[i - 1..] == top';
  }

  /** `getChainBlocks`: fills the result from its end, one parent at a time. `None` is its error. */
  method GetChainBlocks(tree: map<Hash, Block>, base: nat, tip: Block) returns (blocks: Option<seq<Block>>)
    ensures blocks == if tip.height < base then None else Walk(tree, tip, tip.height - base)
  {
    if tip.height < base {
      return None;
    }
    var n := tip.height - base;
    var chain := new Block[n + 1](_ => tip);
    var prev, i := tip.header.prev, n;
    ghost var top := [tip];
    assert chain[n..] == top;
    while i > 0
      invariant 0 <= i <= n && top == chain[i..]
      invariant Walk(tree, tip, n - i) == Some(top) && prev == top[0].header.prev
    {
      if prev !in tree {
        WalkStuck(tree, tip, top, n - i, n);
        return None;
      }
      top := PutBelow(chain, i, tree, prev, tip, n - i, top);
      prev := tree[prev].header.prev;
      i := i - 1;
    }
    blocks := Some(chain[0..]);
  }

  lemma TailIsLinked(tree: map<Hash, Block>, best: Block, n: nat, ibs: seq<Block>)
    requires NodeTree(tree, best) && Walk(tree, best, n) == Some(ibs)
    ensures Linked(ibs) && NonDecreasing(ibs) && |ibs| == n + 1
    ensures forall max: nat :: |ibs| <= max ==> LastN([] + ibs, max) == ibs
  {
    WalkIsLinked(tree, best, n);
    LinkedIsNonDecreasing(ibs);
    assert [] + ibs == ibs;
  }

  // ---- The reporter ----

  /** Everything Bitcoin and Babylon answer during one bootstrap; `None` is a failed call. */
  datatype Answers = Answers(
    synced: bool,
    tip1: Option<nat>,
    base1: Option<nat>,
    best: Option<Block>,
    tree: map<Hash, Block>,
    tip2: Option<nat>,
    base2: Option<nat>,
    contains: Option<bool>,
    headersProcessed: bool
  )

  /** The answers under which a bootstrap must not panic. */
  ghost predicate Favourable(a: Answers, k: nat, w: nat, cacheSize: nat) {
    && k >= 1 && w >= 1
    && (a.tip1.Some? && a.base1.Some? ==>
          var from := BaseHeight(a.tip1.value, a.base1.value, k, w);
          && a.best.Some? && a.best.value.height < U32
          && a.base1.value + k + w < U32
          && a.base1.value < a.best.value.height && a.tip1.value <= a.best.value.height
          && a.best.value.height - from + 1 <= cacheSize
          && (from <= a.best.value.height ==> Walk(a.tree, a.best.value, a.best.value.height - from).Some?)
          && (a.base2.Some? ==> a.base2 == a.base1)
          && (a.tip2.Some? ==> a.tip1.value <= a.tip2.value <= a.best.value.height))
    && a.contains != Some(false)
  }

  /** The tail from the chosen base to the best block can be fetched and fits the cache. */
  predicate Fillable(a: Answers, k: nat, w: nat, cacheSize: nat)
    requires a.tip1.Some? && a.base1.Some?
  {
    a.best.Some? &&
    var from, best := BaseHeight(a.tip1.value, a.base1.value, k, w), a.best.value;
    from <= best.height && best.height - from + 1 <= cacheSize && Walk(a.tree, best, best.height - from).Some?
  }

  /** The consistency height is outside the cached heights. */
  predicate NotCached(a: Answers, k: nat, w: nat)
    requires a.tip1.Some? && a.base1.Some? && a.best.Some? && a.tip2.Some? && a.base2.Some?
  {
    var from, check := BaseHeight(a.tip1.value, a.base1.value, k, w), ConsistencyHeight(a.tip2.value, a.base2.value, k);
    check < from || a.best.value.height < check
  }

  /** Nothing is cached above the consistency height. */
  predicate NothingToSync(a: Answers, k: nat)
    requires a.best.Some? && a.tip2.Some? && a.base2.Some?
  {
    ConsistencyHeight(a.tip2.value, a.base2.value, k) == a.best.value.height
  }

  /** When `bootstrap` panics, as a matter of heights and answers alone. */
  predicate BootstrapPanics(a: Answers, k: nat, w: nat, cacheSize: nat) {
    a.synced && a.tip1.Some? && a.base1.Some? &&
    (!Fillable(a, k, w, cacheSize) ||
     (a.tip2.Some? && a.base2.Some? &&
      (a.contains == Some(false) || NotCached(a, k, w) ||
       (a.contains == Some(true) && (NothingToSync(a, k) || (a.headersProcessed && (k + w) % U32 == 0))))))
  }

  /** Every call of a bootstrap succeeds. */
  predicate AllAnswered(a: Answers) {
    && a.synced && a.tip1.Some? && a.base1.Some? && a.best.Some? && a.tip2.Some? && a.base2.Some?
    && a.contains.Some? && a.headersProcessed
  }

  /** With favourable answers none of its panics is reached. */
  lemma FavourableNeverPanics(a: Answers, k: nat, w: nat, cacheSize: nat)
    requires Favourable(a, k, w, cacheSize)
    ensures !BootstrapPanics(a, k, w, cacheSize)
  {
    if a.tip1.Some? && a.base1.Some? {
      var tip1, base, best := a.tip1.value, a.base1.value, a.best.value.height;
      HeightsAreCachedIff(tip1, tip1, base, k, w, best);
      if a.tip2.Some? && a.base2.Some? {
        HeightsAreCachedIff(tip1, a.tip2.value, base, k, w, best);
        assert (k + w) % U32 == k + w;
      }
    }
  }

  /**
    The favourable condition that Bitcoin is above the base cannot be dropped: with Bitcoin's tip at
    Babylon's base, everything consistent and nothing to submit, `bootstrap` panics.
   */
  lemma NothingAboveBasePanics(a: Answers, k: nat, w: nat, cacheSize: nat)
    requires k >= 1 && w >= 1 && cacheSize >= 1 && a.synced
    requires a.tip1.Some? && a.best.Some? && a.base1 == Some(a.best.value.height)
    requires a.tip2 == a.tip1 && a.base2 == a.base1
    requires a.tip1.value <= a.best.value.height && a.best.value.height + k + w < U32 && a.contains == Some(true)
    ensures BootstrapPanics(a, k, w, cacheSize)
  {
    var h := a.best.value.height;
    HeightsAreCachedIff(a.tip1.value, a.tip1.value, h, k, w, h);
    assert Walk(a.tree, a.best.value, 0) == Some([a.best.value]);
  }

  /** The height is between the lowest and the highest cached one. */
  predicate Covers(blocks: seq<Block>, h: nat) {
    blocks != [] && blocks[0].height <= h <= blocks[|blocks| - 1].height
  }

  /** The consistency check: a height that is not cached, or not known to Babylon, is a panic. */
  function CheckOutcome(a: Answers, blocks: seq<Block>, k: nat): (r: Outcome)
    ensures r.Done? ==> a.tip2.Some? && a.base2.Some?
  {
    if a.tip2.None? || a.base2.None? then Failed
    else if !Covers(blocks, ConsistencyHeight(a.tip2.value, a.base2.value, k)) then Panicked
    else if a.contains.None? then Failed
    else if a.contains.value then Done
    else Panicked
  }

  predicate OnTop(blocks: seq<Block>, header: Header) {
    blocks != [] && header.prev == blocks[|blocks| - 1].header.hash
  }

  class Reporter {
    const k: nat
    const w: nat
    const cacheSize: nat
    var btcCache: BTCCache

    /** The cache is empty or a hash-linked run of consecutive heights, and within its capacity. */
    ghost predicate Valid()
      reads this, btcCache
    {
      btcCache.Valid() && Linked(btcCache.blocks) && |btcCache.blocks| <= btcCache.maxEntries
    }

    constructor (k: nat, w: nat, cacheSize: nat)
      requires cacheSize > 0
      ensures Valid() && fresh(btcCache) && btcCache.blocks == []
      ensures this.k == k && this.w == w && this.cacheSize == cacheSize
    {
      this.k, this.w, this.cacheSize := k, w, cacheSize;
      btcCache := new BTCCache(cacheSize);
    }

    /** `initBTCCache`: a new cache with the tail of the best chain. */
    method InitBTCCache(a: Answers) returns (outcome: Outcome)
      requires Valid() && cacheSize > 0
      requires a.best.Some? ==> NodeTree(a.tree, a.best.value)
      modifies this`btcCache
      ensures Valid() && fresh(btcCache)
      ensures outcome.Failed? <==> a.tip1.None? || a.base1.None?
      ensures outcome.Done? <==> a.tip1.Some? && a.base1.Some? && Fillable(a, k, w, cacheSize)
      ensures outcome.Done? ==>
        var from := BaseHeight(a.tip1.value, a.base1.value, k, w);
        Some(btcCache.blocks) == Walk(a.tree, a.best.value, a.best.value.height - from)
    {
      btcCache := new BTCCache(cacheSize);
      if a.tip1.None? || a.base1.None? {
        return Failed;
      }
      var from := BaseHeight(a.tip1.value, a.base1.value, k, w);
      if a.best.None? {
        return Panicked;
      }
      var ok := FillCache(a.tree, from, a.best.value);
      outcome := if ok then Done else Panicked;
    }

    /** `FindTailBlocksByHeight` and `Init`. */
    method FillCache(tree: map<Hash, Block>, from: nat, best: Block) returns (ok: bool)
      requires NodeTree(tree, best) && btcCache.Valid() && btcCache.blocks == []
      modifies btcCache`blocks
      ensures Valid()
      ensures ok <==>
        && from <= best.height && best.height - from + 1 <= btcCache.maxEntries
        && Walk(tree, best, best.height - from).Some?
      ensures ok ==> btcCache.blocks == Walk(tree, best, best.height - from).value
    {
      var ibs := GetChainBlocks(tree, from, best);
      if ibs.None? {
        return false;
      }
      TailIsLinked(tree, best, best.height - from, ibs.value);
      var filled := btcCache.Init(ibs.value);
      ok := filled.Done?;
    }

    /** A linked cache holds exactly the heights between its ends. */
    lemma HeightIsFoundIff(s: seq<Block>, h: nat)
      requires Linked(s)
      ensures LinearFind(s, h).Some? <==> Covers(s, h)
    {
      if s != [] {
        LinkedHeights(s, 0, |s| - 1);
      }
      if Covers(s, h) {
        var m := h - s[0].height;
        LinkedHeights(s, 0, m);
        forall i | 0 <= i < m ensures s[i].height != h {
          LinkedHeights(s, i, m);
        }
        LinearFindAt(s, h, m);
      } else {
        forall b | b in s ensures b.height != h {
          var i :| 0 <= i < |s| && s[i] == b;
          LinkedHeights(s, 0, i);
          LinkedHeights(s, i, |s| - 1);
        }
        LinearFindNone(s, h);
      }
    }

    /** `checkConsistency`: the height to start syncing from. */
    method CheckConsistency(a: Answers) returns (outcome: Outcome, start: nat)
      requires Valid()
      ensures outcome == CheckOutcome(a, btcCache.blocks, k)
      ensures outcome.Done? ==> start == ConsistencyHeight(a.tip2.value, a.base2.value, k) + 1
    {
      start := 0;
      if a.tip2.None? || a.base2.None? {
        return Failed, 0;
      }
      var check := ConsistencyHeight(a.tip2.value, a.base2.value, k);
      LinkedIsStrictlyIncreasing(btcCache.blocks);
      HeightIsFoundIff(btcCache.blocks, check);
      var searched, found := btcCache.FindBlock(check);
      if !searched.Done? || found.None? {
        return Panicked, 0;
      }
      if a.contains.None? {
        return Failed, 0;
      }
      if !a.contains.value {
        return Panicked, 0;
      }
      outcome, start := Done, check + 1;
    }

    /** The middle part of `bootstrap`: check the cache and pick the blocks to submit. */
    method BlocksToSubmit(a: Answers) returns (outcome: Outcome, toSubmit: seq<Block>)
      requires Valid() && btcCache.blocks != []
      ensures outcome.Done? ==>
        && a.tip2.Some? && a.base2.Some?
        && toSubmit != [] && Linked(toSubmit)
        && toSubmit[0].height == ConsistencyHeight(a.tip2.value, a.base2.value, k) + 1
        && toSubmit[|toSubmit| - 1] == btcCache.blocks[|btcCache.blocks| - 1]
      ensures outcome ==
        var checked := CheckOutcome(a, btcCache.blocks, k);
        if !checked.Done? then checked
        else if Covers(btcCache.blocks, ConsistencyHeight(a.tip2.value, a.base2.value, k) + 1) then Done
        else Panicked
    {
      toSubmit := [];
      var start;
      outcome, start := CheckConsistency(a);
      if !outcome.Done? {
        return;
      }
      outcome, toSubmit := btcCache.GetLastBlocks(start);
      if !outcome.Done? {
        return Panicked, [];
      }
      ghost var j :| 0 <= j < |btcCache.blocks| && toSubmit == btcCache.blocks[j..];
      LinkedSlice(btcCache.blocks, j, |btcCache.blocks|);
    }

    /** The end of `bootstrap`: keep the latest k + w blocks, a uint32 sum. */
    method ShrinkCache() returns (outcome: Outcome)
      requires Valid()
      modifies btcCache
      ensures Valid() && btcCache == old(btcCache)
      ensures outcome == if (k + w) % U32 > 0 then Done else Panicked
      ensures outcome.Done? ==>
        && btcCache.maxEntries == (k + w) % U32
        && btcCache.blocks == LastN(old(btcCache.blocks), (k + w) % U32)
    {
      ghost var tail := btcCache.blocks;
      var resized := btcCache.Resize((k + w) % U32);
      if !resized {
        return Panicked;
      }
      btcCache.Trim();
      LinkedSlice(tail, |tail| - |btcCache.blocks|, |tail|);
      outcome := Done;
    }

    /**
      `bootstrap`: it leaves a linked cache however it ends; it panics exactly when the heights and
      answers say so; and the headers it hands to `ProcessHeaders` are exactly the cached blocks
      after the consistency height.
     */
    method Bootstrap(a: Answers) returns (outcome: Outcome, toSubmit: seq<Block>)
      requires Valid() && cacheSize > 0
      requires a.best.Some? ==> NodeTree(a.tree, a.best.value)
      modifies this`btcCache
      ensures Valid()
      ensures outcome.Panicked? <==> BootstrapPanics(a, k, w, cacheSize)
      ensures outcome.Done? <==> !BootstrapPanics(a, k, w, cacheSize) && AllAnswered(a)
      ensures outcome.Done? ==>
        && a.best.Some? && a.tip2.Some? && a.base2.Some?
        && toSubmit != [] && Linked(toSubmit)
        && toSubmit[0].height == ConsistencyHeight(a.tip2.value, a.base2.value, k) + 1
        && toSubmit[|toSubmit| - 1] == a.best.value
      ensures outcome.Done? ==>
        && btcCache.maxEntries == (k + w) % U32
        && btcCache.blocks != [] && btcCache.blocks[|btcCache.blocks| - 1] == a.best.value
    {
      toSubmit := [];
      if !a.synced {
        return Failed, [];
      }
      outcome := InitBTCCache(a);
      if !outcome.Done? {
        return;
      }
      WalkIsLinked(a.tree, a.best.value, a.best.value.height - BaseHeight(a.tip1.value, a.base1.value, k, w));
      outcome, toSubmit := BlocksToSubmit(a);
      if !outcome.Done? {
        return;
      }
      if !a.headersProcessed {
        return Failed, [];
      }
      outcome := ShrinkCache();
    }

    /**
      `handleNewBlock`: extends the cache by a block on top of it, clears it if the block is on
      another branch, and otherwise leaves it alone. The cache's own panic is never reached.
     */
    method HandleNewBlock(
      height: nat, header: Header, fetched: Option<nat>, processed: bool
    ) returns (err: bool, panicked: bool)
      requires Valid()
      modifies btcCache`blocks
      ensures !panicked && btcCache.Valid() && |btcCache.blocks| <= btcCache.maxEntries
      ensures (fetched.Some? ==> fetched.value == height) ==> Valid()
      ensures var was := old(btcCache.blocks);
        if was == [] || height != was[|was| - 1].height + 1 then btcCache.blocks == was
        else if header.prev != was[|was| - 1].header.hash then btcCache.blocks == []
        else if fetched.None? then btcCache.blocks == was
        else btcCache.blocks == LastN(was + [Block(fetched.value, header)], btcCache.maxEntries)
      ensures !err && (fetched.Some? ==> fetched.value == height) ==>
        btcCache.blocks != [] && btcCache.blocks[|btcCache.blocks| - 1].height >= height
      ensures var was := old(btcCache.blocks);
        err <==>
          || was == [] || was[|was| - 1].height + 1 < height
          || (was[|was| - 1].height + 1 == height &&
              (header.prev != was[|was| - 1].header.hash || fetched.None? || !processed))
    {
      panicked := false;
      var tip := btcCache.Tip();
      if tip.None? {
        return true, false;
      }
      if tip.value.height >= height {
        return false, false;
      }
      if tip.value.height + 1 < height {
        return true, false;
      }
      if header.prev != tip.value.header.hash {
        btcCache.RemoveAll();
        return true, false;
      }
      if fetched.None? {
        return true, false;
      }
      var ib := Block(fetched.value, header);
      ghost var before := btcCache.blocks;
      panicked := btcCache.Add(ib);
      if fetched.value == height {
        LinkedConcat(before, [ib]);
        LinkedSlice(before + [ib], |before| + 1 - |btcCache.blocks|, |before| + 1);
      }
      err := !processed;
    }
  }
}
