/**
  btcstaking-tracker/stakingeventwatcher/tracked_delegations.go: the map of watched delegations and
  the iterator that drops its lock between batches.
 */
module TrackedDelegations {
  import opened Wrappers
  import opened Collections

  type TxHash = nat

  datatype Delegation = Delegation(stakingOutput: nat, startHeight: nat, inProgress: bool)

  // ---- Runs of the iterator ----

  /** Everything that was put into a batch so far. */
  ghost function Seen(batches: seq<seq<TxHash>>): set<TxHash> {
    if batches == [] then {} else Seen(batches[..|batches| - 1]) + ToSet(batches[|batches| - 1])
  }

  /** What one locked pass over the keys may collect: unseen keys, until the batch is full. */
  ghost predicate IsBatch(keys: set<TxHash>, seen: set<TxHash>, batch: seq<TxHash>, chunk: nat) {
    && NoDup(batch) && |batch| <= chunk
    && (forall k :: k in batch ==> k in keys && k !in seen)
    && (|batch| < chunk ==> keys <= seen + ToSet(batch))
  }

  /** Batch `r` was collected, after the iterator had seen fewer keys than were tracked at the lock before. */
  ghost predicate IsRound(locks: seq<set<TxHash>>, batches: seq<seq<TxHash>>, chunk: nat, r: nat)
    requires |locks| == |batches| && r < |batches|
  {
    && IsBatch(locks[r], Seen(batches[..r]), batches[r], chunk)
    && (r > 0 ==> |Seen(batches[..r])| < |locks[r - 1]|)
  }

  /** A run: `locks[r]` are the tracked keys when the lock was taken for batch `r`. */
  ghost predicate IsRun(locks: seq<set<TxHash>>, batches: seq<seq<TxHash>>, chunk: nat) {
    |locks| == |batches| && forall r :: 0 <= r < |batches| ==> IsRound(locks, batches, chunk, r)
  }

  ghost predicate Finished(locks: seq<set<TxHash>>, batches: seq<seq<TxHash>>) {
    |locks| == |batches| > 0 && |Seen(batches)| >= |locks[|locks| - 1]|
  }

  lemma {:induction false} SeenMember(batches: seq<seq<TxHash>>, k: TxHash)
    ensures k in Seen(batches) <==> exists r :: 0 <= r < |batches| && k in batches[r]
  {
    if batches != [] {
      var before := batches[..|batches| - 1];
      SeenMember(before, k);
      if r :| 0 <= r < |batches| && k in batches[r] {
        assert r < |before| ==> k in before[r];
      }
      if r :| 0 <= r < |before| && k in before[r] {
        assert k in batches[r];
      }
    }
  }

  lemma SeenStep(batches: seq<seq<TxHash>>, r: nat)
    requires r < |batches|
    ensures Seen(batches[..r + 1]) == Seen(batches[..r]) + ToSet(batches[r])
  {
    assert batches[..r + 1][..r] == batches[..r];
  }

  /** No key is yielded twice, whatever happens to the map between batches. */
  lemma YieldedAtMostOnce(locks: seq<set<TxHash>>, batches: seq<seq<TxHash>>, chunk: nat, q: nat, r: nat, k: TxHash)
    requires IsRun(locks, batches, chunk) && q < r < |batches| && k in batches[q]
    ensures k !in batches[r] && NoDup(batches[r])
  {
    assert IsRound(locks, batches, chunk, r);
    assert batches[..r][q] == batches[q];
    SeenMember(batches[..r], k);
  }

  /** Every batch but the last is full: a short batch means that everything tracked was seen. */
  lemma NonFinalBatchesAreFull(locks: seq<set<TxHash>>, batches: seq<seq<TxHash>>, chunk: nat, r: nat)
    requires IsRun(locks, batches, chunk) && r < |batches| - 1
    ensures |batches[r]| == chunk
  {
    assert IsRound(locks, batches, chunk, r);
    assert IsRound(locks, batches, chunk, r + 1);
    SeenStep(batches, r);
    if |batches[r]| < chunk {
      SubsetSize(locks[r], Seen(batches[..r + 1]));
    }
  }

  /** Nothing was removed while the iterator ran. */
  ghost predicate OnlyGrows(locks: seq<set<TxHash>>) {
    forall q, r :: 0 <= q <= r < |locks| ==> locks[q] <= locks[r]
  }

  lemma SeenWereTracked(locks: seq<set<TxHash>>, batches: seq<seq<TxHash>>, chunk: nat, k: TxHash)
    requires IsRun(locks, batches, chunk) && k in Seen(batches)
    ensures exists r :: 0 <= r < |locks| && k in locks[r]
  {
    SeenMember(batches, k);
    var r :| 0 <= r < |batches| && k in batches[r];
    assert IsRound(locks, batches, chunk, r);
  }

  /** If nothing is removed meanwhile, a finished run has yielded exactly what is tracked at the last lock. */
  lemma GrowingMapIsCovered(locks: seq<set<TxHash>>, batches: seq<seq<TxHash>>, chunk: nat)
    requires IsRun(locks, batches, chunk) && Finished(locks, batches) && OnlyGrows(locks)
    ensures Seen(batches) == locks[|locks| - 1]
  {
    var last := locks[|locks| - 1];
    forall k | k in Seen(batches) ensures k in last {
      SeenWereTracked(locks, batches, chunk, k);
    }
    SubsetSize(Seen(batches), last);
  }

  /**
    In general, a finished run misses at most as many tracked keys as it yielded keys that are no
    longer tracked; so a miss needs a removal of something already yielded.
   */
  lemma MissesAreBoundedByRemovals(locks: seq<set<TxHash>>, batches: seq<seq<TxHash>>)
    requires Finished(locks, batches)
    ensures |locks[|locks| - 1] - Seen(batches)| <= |Seen(batches) - locks[|locks| - 1]|
  {
    var seen, last := Seen(batches), locks[|locks| - 1];
    assert seen == (seen * last) + (seen - last) && last == (seen * last) + (last - seen);
    assert |seen| == |seen * last| + |seen - last|;
    assert |last| == |seen * last| + |last - seen|;
  }

  lemma FirstRound(keys: set<TxHash>, k: TxHash)
    requires k in keys
    ensures IsRun([keys], [[k]], 1) && Seen([[k]]) == {k}
  {
    var batches: seq<seq<TxHash>> := [[k]];
    assert batches[..0] == [] && [keys][..0] == [];
    assert IsBatch(keys, {}, [k], 1);
  }

  /** Such a miss: `a` is yielded and then removed, and `c` is never yielded although tracked throughout. */
  lemma RemovalHidesAKey(a: TxHash, b: TxHash, c: TxHash)
    requires a != b && b != c && a != c
    ensures IsRun([{a, b, c}] + [{b, c}], [[a]] + [[b]], 1)
    ensures Finished([{a, b, c}] + [{b, c}], [[a]] + [[b]])
    ensures c !in Seen([[a]] + [[b]])
  {
    FirstRound({a, b, c}, a);
    assert |{a, b, c}| == 3 && |{a}| == 1 && |{b, c}| == 2 && |{a} + {b}| == 2;
    ExtendRun([{a, b, c}], [[a]], 1, {b, c}, [b]);
  }

  /** One pass under the lock; Go ranges over the map in any order. */
  method CollectBatch(keys: set<TxHash>, seen: set<TxHash>, chunk: nat) returns (batch: seq<TxHash>)
    requires chunk > 0
    ensures IsBatch(keys, seen, batch, chunk)
  {
    batch := [];
    var todo := keys;
    while todo != {}
      invariant todo <= keys && NoDup(batch) && |batch| < chunk
      invariant forall k :: k in batch <==> k in keys && k !in seen && k !in todo
      decreases todo
    {
      var k :| k in todo;
      todo := todo - {k};
      if k !in seen {
        batch := batch + [k];
        if |batch| >= chunk {
          return;
        }
      }
    }
  }

  /** What was tracked at the first `n` locks. */
  function Locks(tracked: nat -> set<TxHash>, n: nat): seq<set<TxHash>> {
    if n == 0 then [] else Locks(tracked, n - 1) + [tracked(n - 1)]
  }

  lemma {:induction false} LocksAt(tracked: nat -> set<TxHash>, n: nat, r: nat)
    requires r < n
    ensures |Locks(tracked, n)| == n && Locks(tracked, n)[r] == tracked(r)
  {
    if r < n - 1 {
      LocksAt(tracked, n - 1, r);
    } else if r > 0 {
      LocksAt(tracked, n - 1, 0);
    }
  }

  /** One turn of the iterator's loop; unless it is the last, unseen keys became fewer. */
  method NextRound(keys: set<TxHash>, seen: set<TxHash>, chunk: nat, ghost locks: seq<set<TxHash>>,
                   ghost batches: seq<seq<TxHash>>, ghost universe: set<TxHash>)
    returns (batch: seq<TxHash>, seen': set<TxHash>)
    requires chunk > 0 && keys <= universe && seen <= universe
    requires IsRun(locks, batches, chunk) && seen == Seen(batches)
    requires batches != [] ==> |seen| < |locks[|locks| - 1]|
    ensures IsRun(locks + [keys], batches + [batch], chunk) && seen' == Seen(batches + [batch])
    ensures seen' <= universe
    ensures |seen'| < |keys| ==> |universe - seen'| < |universe - seen|
  {
    batch := CollectBatch(keys, seen, chunk);
    ExtendRun(locks, batches, chunk, keys, batch);
    BatchMakesProgress(keys, seen, batch, chunk, universe);
    seen' := seen + ToSet(batch);
  }

  /**
    `DelegationsIter`: `tracked(r)` are the keys of the map when the lock is taken for the r-th time;
    they may be any keys of a finite universe. The iterator terminates, and it is a finished run.
   */
  method DelegationsIter(tracked: nat -> set<TxHash>, chunkSize: int, ghost universe: set<TxHash>)
    returns (batches: seq<seq<TxHash>>)
    requires forall r: nat :: tracked(r) <= universe
    ensures IsRun(Locks(tracked, |batches|), batches, if chunkSize <= 0 then 100 else chunkSize)
    ensures Finished(Locks(tracked, |batches|), batches)
  {
    var chunk := if chunkSize <= 0 then 100 else chunkSize;
    var seen: set<TxHash> := {};
    batches := [];
    ghost var locks: seq<set<TxHash>> := [];
    var finished := false;
    while !finished
      invariant locks == Locks(tracked, |batches|) && seen == Seen(batches) && seen <= universe
      invariant IsRun(locks, batches, chunk)
      invariant finished ==> Finished(locks, batches)
      invariant !finished && batches != [] ==> |seen| < |locks[|locks| - 1]|
      decreases if finished then 0 else 1, |universe - seen|
    {
      var keys := tracked(|batches|);
      var batch, seen' := NextRound(keys, seen, chunk, locks, batches, universe);
      seen, batches, locks := seen', batches + [batch], locks + [keys];
      finished := |seen| >= |keys|;
    }
  }

  /** If fewer keys were seen than are tracked, the batch had something in it. */
  lemma BatchMakesProgress(keys: set<TxHash>, seen: set<TxHash>, batch: seq<TxHash>, chunk: nat, universe: set<TxHash>)
    requires IsBatch(keys, seen, batch, chunk) && chunk > 0 && keys <= universe && seen <= universe
    ensures seen + ToSet(batch) <= universe
    ensures |seen + ToSet(batch)| < |keys| ==> |universe - (seen + ToSet(batch))| < |universe - seen|
  {
    if |seen + ToSet(batch)| < |keys| {
      ShortBatchFinishes(keys, seen, batch, chunk);
      assert batch[0] in batch;
      SubsetShrinks(universe, seen, seen + ToSet(batch), batch[0]);
    }
  }

  lemma ShortBatchFinishes(keys: set<TxHash>, seen: set<TxHash>, batch: seq<TxHash>, chunk: nat)
    requires IsBatch(keys, seen, batch, chunk) && chunk > 0 && |seen + ToSet(batch)| < |keys|
    ensures |batch| == chunk
  {
    if |batch| < chunk {
      SubsetSize(keys, seen + ToSet(batch));
    }
  }

  lemma SubsetShrinks<T>(universe: set<T>, before: set<T>, after: set<T>, x: T)
    requires before <= after && x in universe && x !in before && x in after
    ensures |universe - after| < |universe - before|
  {
    SubsetSize(universe - after, universe - before);
  }

  lemma ExtendRun(locks: seq<set<TxHash>>, batches: seq<seq<TxHash>>, chunk: nat, keys: set<TxHash>, batch: seq<TxHash>)
    requires IsRun(locks, batches, chunk) && IsBatch(keys, Seen(batches), batch, chunk)
    requires batches != [] ==> |Seen(batches)| < |locks[|locks| - 1]|
    ensures IsRun(locks + [keys], batches + [batch], chunk)
    ensures Seen(batches + [batch]) == Seen(batches) + ToSet(batch)
  {
    var n, batches', locks' := |batches|, batches + [batch], locks + [keys];
    assert batches'[..n] == batches;
    forall r | 0 <= r < n ensures IsRound(locks', batches', chunk, r) {
      assert IsRound(locks, batches, chunk, r) && batches'[..r] == batches[..r];
    }
    assert IsRound(locks', batches', chunk, n);
  }

  // ---- The map itself ----

  class Tracker {
    var mapping: map<TxHash, Option<Delegation>>  // `None` is the nil entry of `AddEmptyDelegation`
    var count: int

    /** The counter is the number of tracked delegations. */
    ghost predicate Valid()
      reads this
    {
      count == |mapping|
    }

    constructor ()
      ensures Valid() && mapping == map[]
    {
      mapping, count := map[], 0;
    }

    /** A known delegation is replaced only on request. */
    method AddDelegation(hash: TxHash, d: Delegation, shouldUpdate: bool) returns (ok: bool)
      requires Valid()
      modifies this
      ensures Valid()
      ensures ok <==> hash !in old(mapping) || shouldUpdate
      ensures mapping == if ok then old(mapping)[hash := Some(d)] else old(mapping)
    {
      if hash in mapping {
        if shouldUpdate {
          mapping := mapping[hash := Some(d)];
          return true;
        }
        return false;
      }
      mapping := mapping[hash := Some(d)];
      count := count + 1;
      ok := true;
    }

    method AddEmptyDelegation(hash: TxHash) returns (ok: bool)
      requires Valid()
      modifies this
      ensures Valid()
      ensures ok <==> hash !in old(mapping)
      ensures mapping == if ok then old(mapping)[hash := None] else old(mapping)
    {
      if hash in mapping {
        return false;
      }
      mapping := mapping[hash := None];
      count := count + 1;
      ok := true;
    }

    method RemoveDelegation(hash: TxHash)
      requires Valid()
      modifies this
      ensures Valid() && mapping == old(mapping) - {hash}
    {
      if hash in mapping {
        assert mapping.Keys == (mapping - {hash}).Keys + {hash};
        mapping := mapping - {hash};
        count := count - 1;
      } else {
        assert mapping - {hash} == mapping;
      }
    }

    /** An unknown hash is an error; an empty entry is a nil dereference. */
    method UpdateActivation(hash: TxHash, inProgress: bool) returns (outcome: Outcome)
      requires Valid()
      modifies this
      ensures Valid()
      ensures outcome == if hash !in old(mapping) then Failed else if old(mapping)[hash].None? then Panicked else Done
      ensures mapping ==
              if outcome.Done?
              then old(mapping)[hash := Some(old(mapping)[hash].value.(inProgress := inProgress))]
              else old(mapping)
    {
      if hash !in mapping {
        return Failed;
      }
      if mapping[hash].None? {
        return Panicked;
      }
      mapping := mapping[hash := Some(mapping[hash].value.(inProgress := inProgress))];
      outcome := Done;
    }
  }
}
