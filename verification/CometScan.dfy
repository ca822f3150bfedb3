/**
  btcstaking-tracker/stakingeventwatcher/stakingeventwatcher.go: scanning Babylon's blocks for
  delegations that changed. Which hashes a block touched, and which lookups succeed, are inputs.
 */
module CometScan {
  import opened Wrappers
  import opened Collections

  type Hash = nat

  /** `deduplicateStrings`: every element once, in order of first appearance. */
  method Deduplicate(s: seq<Hash>) returns (r: seq<Hash>)
    ensures NoDup(r) && forall h :: h in r <==> h in s
  {
    r := [];
    var seen: set<Hash> := {};
    var i := 0;
    while i < |s|
      invariant 0 <= i <= |s|
      invariant NoDup(r) && (forall h :: h in r <==> h in s[..i]) && (forall h :: h in seen <==> h in r)
    {
      if s[i] !in seen {
        seen := seen + {s[i]};
        r := r + [s[i]];
      }
      assert s[..i + 1] == s[..i] + [s[i]];
      i := i + 1;
    }
    assert s[..i] == s;
  }

  /** What the blocks of a range touched, in order. An absent height is a query that keeps failing. */
  function Touched(blocks: map<nat, seq<Hash>>, from: nat, end: nat): seq<Hash>
    requires forall h :: from <= h < end ==> h in blocks
    decreases end - from
  {
    if from >= end then [] else Touched(blocks, from, end - 1) + blocks[end - 1]
  }

  lemma {:induction false} TouchedMember(blocks: map<nat, seq<Hash>>, from: nat, end: nat, x: Hash)
    requires forall h :: from <= h < end ==> h in blocks
    ensures x in Touched(blocks, from, end) <==> exists h :: from <= h < end && x in blocks[h]
    decreases end - from
  {
    if from < end {
      TouchedMember(blocks, from, end - 1, x);
    }
  }

  /** The scan of heights `from` to `last` inclusive succeeds. */
  predicate Succeeds(blocks: map<nat, seq<Hash>>, delegations: set<Hash>, from: nat, last: nat) {
    && (forall h :: from <= h <= last ==> h in blocks)
    && (forall h, x :: from <= h <= last && x in blocks[h] ==> x in delegations)
  }

  /**
    `fetchDelegationsByEvents`: a completed scan looks up every distinct hash that its range touched
    exactly once, and no other.
   */
  method FetchDelegationsByEvents(
    blocks: map<nat, seq<Hash>>, delegations: set<Hash>, from: nat, last: nat
  ) returns (ok: bool, lookups: seq<Hash>)
    requires from <= last
    ensures ok <==> Succeeds(blocks, delegations, from, last)
    ensures NoDup(lookups)
    ensures ok ==> forall x :: x in lookups <==> exists h :: from <= h <= last && x in blocks[h]
  {
    lookups := [];
    var hashes: seq<Hash> := [];
    var i := from;
    while i <= last
      invariant from <= i <= last + 1
      invariant forall h :: from <= h < i ==> h in blocks
      invariant hashes == Touched(blocks, from, i)
    {
      if i !in blocks {
        return false, [];
      }
      hashes := hashes + blocks[i];
      i := i + 1;
    }
    var distinct := Deduplicate(hashes);
    forall x ensures x in distinct <==> exists h :: from <= h <= last && x in blocks[h] {
      TouchedMember(blocks, from, last + 1, x);
    }
    var j := 0;
    while j < |distinct|
      invariant 0 <= j <= |distinct| && lookups == distinct[..j]
      invariant forall l :: 0 <= l < j ==> distinct[l] in delegations
    {
      lookups := lookups + [distinct[j]];
      if distinct[j] !in delegations {
        assert distinct[j] in distinct;
        var h :| from <= h <= last && distinct[j] in blocks[h];
        return false, lookups;
      }
      j := j + 1;
    }
    forall h, x | from <= h <= last && x in blocks[h] ensures x in delegations {
      assert x in distinct;
    }
    assert distinct[..j] == distinct;
    ok := true;
  }

  // ---- Across polls ----

  /** `scanned` lists the heights of completed scans, `looked` the hashes that those looked up. */
  datatype State = State(cursor: nat, scanned: seq<nat>, looked: set<Hash>)

  /** A poll: the tip that was reported, if any, and what a scan would meet. */
  datatype Poll = Poll(tip: Option<nat>, blocks: map<nat, seq<Hash>>, delegations: set<Hash>)

  function Range(from: nat, end: nat): (r: seq<nat>)
    requires from <= end
    ensures |r| == end - from && forall i :: 0 <= i < end - from ==> r[i] == from + i
  {
    seq(end - from, i requires 0 <= i < end - from => from + i)
  }

  /** `fetchCometBftBlockOnce` */
  function Polled(s: State, p: Poll): State {
    if p.tip.None? || p.tip.value <= s.cursor || !Succeeds(p.blocks, p.delegations, s.cursor, p.tip.value) then s
    else
      State(p.tip.value + 1,
            s.scanned + Range(s.cursor, p.tip.value + 1),
            s.looked + set h, x | s.cursor <= h <= p.tip.value && x in p.blocks[h] :: x)
  }

  function Run(start: nat, ps: seq<Poll>): State {
    if ps == [] then State(start, [], {}) else Polled(Run(start, ps[..|ps| - 1]), ps[|ps| - 1])
  }

  /**
    For every sequence of reported tips and failures, the completed scans cover exactly the heights
    from the initial tip to the cursor: none is skipped and none is completed twice.
   */
  lemma {:induction false} ScansCoverOnce(start: nat, ps: seq<Poll>)
    ensures start <= Run(start, ps).cursor
    ensures Run(start, ps).scanned == Range(start, Run(start, ps).cursor)
  {
    if ps != [] {
      ScansCoverOnce(start, ps[..|ps| - 1]);
    }
  }

  /** If all polls read the same chain, what was looked up is exactly what the scanned heights touched. */
  lemma {:induction false} EveryChangeIsLookedUp(start: nat, ps: seq<Poll>, chain: nat -> seq<Hash>)
    requires forall p, h :: p in ps && h in p.blocks ==> p.blocks[h] == chain(h)
    ensures start <= Run(start, ps).cursor
    ensures forall x :: x in Run(start, ps).looked <==> exists h :: start <= h < Run(start, ps).cursor && x in chain(h)
  {
    if ps != [] {
      EveryChangeIsLookedUp(start, ps[..|ps| - 1], chain);
      var s, p := Run(start, ps[..|ps| - 1]), ps[|ps| - 1];
      if Polled(s, p) != s {
        forall h | s.cursor <= h <= p.tip.value ensures p.blocks[h] == chain(h) {
          assert p in ps && h in p.blocks;
        }
      }
    }
  }

  /**
    The cursor is the next height, but a tip equal to it counts as "no new block": right after a
    completed scan the next block waits for its successor, and an unchanged tip is an error.
   */
  lemma NewBlockWaitsForSuccessor(s: State, p: Poll, q: Poll)
    requires Polled(s, p) != s && q.tip.Some? && q.tip.value <= p.tip.value + 1
    ensures Polled(Polled(s, p), q) == Polled(s, p)
  {
  }

  class Watcher {
    var cursor: nat
    ghost var scanned: seq<nat>
    ghost var looked: set<Hash>

    ghost function View(): State
      reads this
    {
      State(cursor, scanned, looked)
    }

    constructor (latestHeight: nat)
      ensures View() == State(latestHeight, [], {})
    {
      cursor, scanned, looked := latestHeight, [], {};
    }

    method FetchCometBftBlockOnce(p: Poll) returns (err: bool, lookups: seq<Hash>)
      modifies this
      ensures View() == Polled(old(View()), p)
      ensures err <==> p.tip.None? || p.tip.value < old(cursor)
                       || (p.tip.value > old(cursor) && !Succeeds(p.blocks, p.delegations, old(cursor), p.tip.value))
      ensures cursor == if p.tip.Some? && p.tip.value > old(cursor) && !err then p.tip.value + 1 else old(cursor)
      ensures NoDup(lookups)
      ensures View() != old(View()) ==>
        !err && forall x :: x in lookups <==> exists h :: old(cursor) <= h < cursor && x in p.blocks[h]
    {
      lookups := [];
      if p.tip.None? || p.tip.value < cursor {
        return true, [];
      }
      if p.tip.value == cursor {
        return false, [];
      }
      var ok;
      ok, lookups := FetchDelegationsByEvents(p.blocks, p.delegations, cursor, p.tip.value);
      if !ok {
        return true, lookups;
      }
      scanned := scanned + Range(cursor, p.tip.value + 1);
      looked := looked + set h, x | cursor <= h <= p.tip.value && x in p.blocks[h] :: x;
      cursor := p.tip.value + 1;
      err := false;
    }
  }
}
