/**
  reporter/utils.go: submitting headers to Babylon while other reporters do the same. Babylon is an
  object whose known headers may grow before every call; a failed call is one of its answers.
 */
module HeaderSubmission {
  import opened Wrappers
  import opened Collections
  import opened Blocks

  // ---- Chunks ----

  /** Consecutive pieces of `size`, the last one possibly shorter. */
  function Chunks<T>(items: seq<T>, size: nat): (r: seq<seq<T>>)
    requires size > 0
    ensures r != []
  {
    if |items| <= size then [items] else [items[..size]] + Chunks(items[size..], size)
  }

  function Flatten<T>(chunks: seq<seq<T>>): seq<T> {
    if chunks == [] then [] else chunks[0] + Flatten(chunks[1..])
  }

  /** Chunking loses nothing and keeps the order; no chunk is too long, and only the last may be short. */
  lemma {:induction false} ChunksCover<T>(items: seq<T>, size: nat)
    requires size > 0
    ensures Flatten(Chunks(items, size)) == items
    ensures forall i :: 0 <= i < |Chunks(items, size)| ==> |Chunks(items, size)[i]| <= size
    ensures forall i :: 0 <= i < |Chunks(items, size)| - 1 ==> |Chunks(items, size)[i]| == size
    ensures items != [] ==> forall i :: 0 <= i < |Chunks(items, size)| ==> Chunks(items, size)[i] != []
  {
    if |items| <= size {
      assert [items][1..] == [];
      assert Flatten([items]) == items + [];
    } else {
      ChunksCover(items[size..], size);
      var rest := Chunks(items[size..], size);
      assert ([items[..size]] + rest)[1..] == rest;
      assert items[..size] + items[size..] == items;
    }
  }

  /** `chunkBy` */
  method ChunkBy<T>(items: seq<T>, size: nat) returns (chunks: seq<seq<T>>)
    requires size > 0
    ensures chunks == Chunks(items, size)
  {
    chunks := [];
    var rest := items;
    while size < |rest|
      invariant chunks + Chunks(rest, size) == Chunks(items, size)
      decreases |rest|
    {
      assert chunks + [rest[..size]] + Chunks(rest[size..], size) == chunks + Chunks(rest, size);
      rest, chunks := rest[size..], chunks + [rest[..size]];
    }
    chunks := chunks + [rest];
  }

  // ---- Babylon ----

  /** With a header its ancestors are known, back to the base header. A hash fixes its parent. */
  predicate AncestorClosed(known: set<Hash>, root: Hash, prevOf: Hash -> Hash) {
    forall h :: h in known ==> h == root || prevOf(h) in known
  }

  function Hashes(blocks: seq<Block>): (r: seq<Hash>)
    ensures |r| == |blocks| && forall i :: 0 <= i < |r| ==> r[i] == blocks[i].header.hash
  {
    seq(|blocks|, i requires 0 <= i < |blocks| => blocks[i].header.hash)
  }

  /** A run of blocks above Babylon's base header. */
  predicate OurRun(ibs: seq<Block>, root: Hash, prevOf: Hash -> Hash) {
    && Linked(ibs)
    && (forall i :: 0 <= i < |ibs| ==> prevOf(ibs[i].header.hash) == ibs[i].header.prev)
    && (forall i :: 0 <= i < |ibs| ==> ibs[i].header.hash != root)
    && NoDup(Hashes(ibs))
  }

  /** If a block of the run is known, so are all the blocks below it. */
  lemma {:induction false} KnownBelow(
    ibs: seq<Block>, j: nat, i: nat, known: set<Hash>, root: Hash, prevOf: Hash -> Hash
  )
    requires OurRun(ibs, root, prevOf) && AncestorClosed(known, root, prevOf)
    requires i <= j < |ibs| && ibs[j].header.hash in known
    ensures ibs[i].header.hash in known
    decreases j
  {
    if i < j {
      assert Extends(ibs[j - 1], ibs[j]);
      KnownBelow(ibs, j - 1, i, known, root, prevOf);
    }
  }

  lemma OurRunSlice(ibs: seq<Block>, i: nat, j: nat, root: Hash, prevOf: Hash -> Hash)
    requires OurRun(ibs, root, prevOf) && i <= j <= |ibs|
    ensures OurRun(ibs[i..j], root, prevOf)
  {
    LinkedSlice(ibs, i, j);
    forall x, y | 0 <= x < y < j - i ensures Hashes(ibs[i..j])[x] != Hashes(ibs[i..j])[y] {
      assert Hashes(ibs)[i + x] != Hashes(ibs)[i + y];
    }
  }

  datatype Submitted = Accepted | ForkStartsWithKnownHeader | Rejected

  class Babylon {
    const root: Hash
    const prevOf: Hash -> Hash
    var known: set<Hash>
    var tipHeight: nat
    var acked: seq<Hash>  // headers whose submission was acknowledged to this reporter
    ghost var failures: nat  // calls of this reporter that failed

    ghost predicate Valid()
      reads this
    {
      && AncestorClosed(known, root, prevOf)
      && NoDup(acked)
      && forall i :: 0 <= i < |acked| ==> acked[i] in known
    }

    constructor (root: Hash, prevOf: Hash -> Hash)
      ensures Valid() && known == {root} && acked == []
    {
      this.root, this.prevOf := root, prevOf;
      known, tipHeight, acked := {root}, 0, [];
      failures := 0;
    }

    /** Other reporters insert whatever headers they like; the light client may change its tip. */
    method Interfere()
      requires Valid()
      modifies this`known, this`tipHeight
      ensures Valid() && old(known) <= known
    {
      var inserted: set<Hash> := *;
      if AncestorClosed(known + inserted, root, prevOf) {
        known := known + inserted;
      }
      var height: nat := *;
      tipHeight := height;
    }

    method ContainsBTCBlock(h: Hash) returns (r: Option<bool>)
      requires Valid()
      modifies this`known, this`tipHeight, this`failures
      ensures Valid() && old(known) <= known
      ensures r.Some? ==> (r.value <==> h in known)
      ensures failures == old(failures) + if r.None? then 1 else 0
    {
      Interfere();
      var failed: bool := *;
      failures := failures + if failed then 1 else 0;
      r := if failed then None else Some(h in known);
    }

    method BTCHeaderChainTip() returns (r: Option<nat>)
      requires Valid()
      modifies this`known, this`tipHeight, this`failures
      ensures Valid() && old(known) <= known
      ensures r.Some? ==> r.value == tipHeight
      ensures failures == old(failures) + if r.None? then 1 else 0
    {
      Interfere();
      var failed: bool := *;
      failures := failures + if failed then 1 else 0;
      r := if failed then None else Some(tipHeight);
    }

    /** Inserts headers whose first is new and has a known parent; any call may also be rejected. */
    method InsertHeaders(msg: seq<Block>) returns (r: Submitted)
      requires Valid() && OurRun(msg, root, prevOf) && msg != []
      modifies this
      ensures Valid() && old(known) <= known
      ensures acked == if r.Accepted? then old(acked) + Hashes(msg) else old(acked)
      ensures r.Accepted? ==> forall i :: 0 <= i < |msg| ==> msg[i].header.hash in known
      ensures r.ForkStartsWithKnownHeader? ==> msg[0].header.hash in known
      ensures failures == old(failures) + if r.Rejected? then 1 else 0
    {
      Interfere();
      var rejected: bool := *;
      if rejected {
        failures := failures + 1;
        return Rejected;
      }
      if msg[0].header.hash in known {
        return ForkStartsWithKnownHeader;
      }
      if prevOf(msg[0].header.hash) !in known {
        failures := failures + 1;
        return Rejected;
      }
      NoneKnown(msg);
      AddRun(msg);
      acked := acked + Hashes(msg);
      known := known + (set h | h in Hashes(msg));
      r := Accepted;
    }

    lemma NoneKnown(msg: seq<Block>)
      requires Valid() && OurRun(msg, root, prevOf) && msg != [] && msg[0].header.hash !in known
      ensures NoDup(acked + Hashes(msg))
    {
      forall i | 0 <= i < |msg| ensures msg[i].header.hash !in known {
        if msg[i].header.hash in known {
          KnownBelow(msg, i, 0, known, root, prevOf);
        }
      }
    }

    lemma AddRun(msg: seq<Block>)
      requires Valid() && OurRun(msg, root, prevOf) && msg != [] && prevOf(msg[0].header.hash) in known
      ensures AncestorClosed(known + (set h | h in Hashes(msg)), root, prevOf)
    {
      var hs := Hashes(msg);
      forall h | h in hs ensures prevOf(h) in known + (set x | x in hs) {
        var i :| 0 <= i < |hs| && hs[i] == h;
        if i > 0 {
          assert Extends(msg[i - 1], msg[i]) && hs[i - 1] in hs;
        }
      }
    }
  }

  // ---- The reporter's side ----

  /**
    The query loop of `getHeaderMsgsToSubmit`: the first block Babylon does not know. `None` is a
    failed query; the length of the list means that all are known.
   */
  method FirstUnknown(bbn: Babylon, ibs: seq<Block>) returns (start: Option<nat>)
    requires bbn.Valid()
    modifies bbn`known, bbn`tipHeight, bbn`failures
    ensures bbn.Valid() && old(bbn.known) <= bbn.known
    ensures start.Some? ==> start.value <= |ibs|
    ensures start.Some? ==> forall i :: 0 <= i < start.value ==> ibs[i].header.hash in bbn.known
    ensures start.Some? && start.value < |ibs| ==> ibs[start.value].header.hash !in bbn.known
    ensures bbn.failures == old(bbn.failures) + if start.None? then 1 else 0
  {
    var i := 0;
    while i < |ibs|
      invariant 0 <= i <= |ibs|
      invariant bbn.Valid() && old(bbn.known) <= bbn.known
      invariant forall j :: 0 <= j < i ==> ibs[j].header.hash in bbn.known
      invariant bbn.failures == old(bbn.failures)
    {
      var contains := bbn.ContainsBTCBlock(ibs[i].header.hash);
      if contains.None? {
        return None;
      }
      if !contains.value {
        return Some(i);
      }
      i := i + 1;
    }
    start := Some(|ibs|);
  }

  /** `FilterAlreadyProcessedBlocks`: from where on blocks are above `height`; `None` is "do not retry". */
  method FirstAbove(ibs: seq<Block>, height: nat) returns (start: Option<nat>)
    ensures start.None? <==> ibs == [] || height >= ibs[|ibs| - 1].height
    ensures start.Some? ==> start.value < |ibs| && ibs[start.value].height > height
    ensures start.Some? ==> forall i :: 0 <= i < start.value ==> ibs[i].height <= height
  {
    if |ibs| == 0 || height >= ibs[|ibs| - 1].height {
      return None;
    }
    var i := 0;
    while ibs[i].height <= height
      invariant 0 <= i < |ibs|
      invariant forall j :: 0 <= j < i ==> ibs[j].height <= height
      decreases |ibs| - i
    {
      i := i + 1;
    }
    start := Some(i);
  }

  /** Every block of the run is known to Babylon. */
  ghost predicate AllKnown(bbn: Babylon, ibs: seq<Block>)
    reads bbn
  {
    forall i :: 0 <= i < |ibs| ==> ibs[i].header.hash in bbn.known
  }

  lemma LastKnownMeansAll(bbn: Babylon, ibs: seq<Block>)
    requires bbn.Valid() && OurRun(ibs, bbn.root, bbn.prevOf)
    requires ibs != [] ==> ibs[|ibs| - 1].header.hash in bbn.known
    ensures AllKnown(bbn, ibs)
  {
    forall i | 0 <= i < |ibs| ensures ibs[i].header.hash in bbn.known {
      KnownBelow(ibs, |ibs| - 1, i, bbn.known, bbn.root, bbn.prevOf);
    }
  }

  /** The next message is the head of what is left, and the other messages are the chunks of the rest. */
  lemma NextChunk(ibs: seq<Block>, pos: nat, size: nat, msgs: seq<seq<Block>>, i: nat)
    requires size > 0 && pos < |ibs| && i < |msgs| && msgs[i..] == Chunks(ibs[pos..], size)
    ensures var next := pos + |msgs[i]|;
            && msgs[i] != [] && next <= |ibs| && msgs[i] == ibs[pos..next]
            && (i + 1 == |msgs| <==> next == |ibs|)
            && (i + 1 < |msgs| ==> msgs[i + 1..] == Chunks(ibs[next..], size))
  {
    var rest := ibs[pos..];
    assert msgs[i..][0] == msgs[i] && msgs[i..][1..] == msgs[i + 1..];
    if |rest| > size {
      assert rest[size..] == ibs[pos + size..];
      assert ([rest[..size]] + Chunks(rest[size..], size))[1..] == Chunks(rest[size..], size);
    }
  }

  /** Babylon has the whole run, or a chain that is at least as high. */
  ghost predicate NothingToDo(bbn: Babylon, ibs: seq<Block>)
    reads bbn
  {
    AllKnown(bbn, ibs) || (ibs != [] && bbn.tipHeight >= ibs[|ibs| - 1].height)
  }

  /** The first block that is above the tip that was read and not known to Babylon. */
  ghost predicate IsResumePoint(bbn: Babylon, ibs: seq<Block>, start: nat, tip: nat)
    requires start < |ibs|
    reads bbn
  {
    && ibs[start].height > tip && ibs[start].header.hash !in bbn.known
    && forall i :: 0 <= i < start ==> ibs[i].height <= tip || ibs[i].header.hash in bbn.known
  }

  datatype Next = Stop(err: bool) | Resume(start: nat)

  lemma HeightsAbove(ibs: seq<Block>, i: nat, j: nat, h: nat)
    requires Linked(ibs) && i <= j < |ibs| && ibs[i].height > h
    ensures ibs[j].height > h
  {
    LinkedHeights(ibs, i, j);
  }

  /**
    What happens when the message starting at `pos` met a known header: find where to resume. The
    new starting point is above the old one.
   */
  method FindResumePoint(bbn: Babylon, ibs: seq<Block>, ghost pos: nat) returns (next: Next, ghost tipRead: nat)
    requires bbn.Valid() && OurRun(ibs, bbn.root, bbn.prevOf)
    requires pos < |ibs| && ibs[pos].header.hash in bbn.known
    modifies bbn`known, bbn`tipHeight, bbn`failures
    ensures bbn.Valid() && old(bbn.known) <= bbn.known
    ensures next == Stop(false) ==> NothingToDo(bbn, ibs)
    ensures next.Resume? ==> pos < next.start < |ibs| && IsResumePoint(bbn, ibs, next.start, tipRead)
    ensures bbn.failures == old(bbn.failures) + if next == Stop(true) then 1 else 0
  {
    tipRead := 0;
    var tip := bbn.BTCHeaderChainTip();
    if tip.None? {
      return Stop(true), tipRead;
    }
    tipRead := tip.value;
    var above := FirstAbove(ibs, tip.value);
    if above.None? {
      return Stop(false), tipRead;
    }
    var first := FirstUnknown(bbn, ibs[above.value..]);
    if first.None? {
      return Stop(true), tipRead;
    }
    var start := above.value + first.value;
    if start == |ibs| {
      assert ibs[above.value..][first.value - 1] == ibs[|ibs| - 1];
      LastKnownMeansAll(bbn, ibs);
      return Stop(false), tipRead;
    }
    assert ibs[above.value..][first.value] == ibs[start];
    if start <= pos {
      KnownBelow(ibs, pos, start, bbn.known, bbn.root, bbn.prevOf);
    }
    HeightsAbove(ibs, above.value, start, tip.value);
    forall i | 0 <= i < start ensures ibs[i].height <= tip.value || ibs[i].header.hash in bbn.known {
      assert i >= above.value ==> ibs[i] == ibs[above.value..][i - above.value];
    }
    next := Resume(start);
  }

  /** Submits the next message; on acceptance the blocks up to its end are known. */
  method SubmitNext(
    bbn: Babylon, ibs: seq<Block>, ghost pos: nat, size: nat, msgs: seq<seq<Block>>, i: nat
  ) returns (r: Submitted, ghost end: nat)
    requires bbn.Valid() && OurRun(ibs, bbn.root, bbn.prevOf)
    requires size > 0 && pos < |ibs| && i < |msgs| && msgs[i..] == Chunks(ibs[pos..], size)
    modifies bbn
    ensures bbn.Valid() && old(bbn.known) <= bbn.known
    ensures |bbn.acked| == old(|bbn.acked|) + (if r.Accepted? then |msgs[i]| else 0) && old(bbn.acked) <= bbn.acked
    ensures pos < end <= |ibs|
    ensures i + 1 == |msgs| <==> end == |ibs|
    ensures i + 1 < |msgs| ==> msgs[i + 1..] == Chunks(ibs[end..], size)
    ensures r.Accepted? ==> ibs[end - 1].header.hash in bbn.known
    ensures r.ForkStartsWithKnownHeader? ==> ibs[pos].header.hash in bbn.known
    ensures bbn.failures == old(bbn.failures) + if r.Rejected? then 1 else 0
  {
    NextChunk(ibs, pos, size, msgs, i);
    end := pos + |msgs[i]|;
    OurRunSlice(ibs, pos, end, bbn.root, bbn.prevOf);
    assert msgs[i][|msgs[i]| - 1] == ibs[end - 1] && msgs[i][0] == ibs[pos];
    r := bbn.InsertHeaders(msgs[i]);
  }

  /**
    `ProcessHeaders` terminates against any other reporters, although it starts over whenever one
    of them gets ahead: the first unknown block moves up each time. No header is acknowledged
    twice (`Valid`), the result counts exactly the acknowledged headers, and a nil error means that
    every block is known, or that Babylon's tip is at least as high as the last one. An error is
    returned if and only if a query failed or a message was rejected: headers that others got in
    first are never one.
   */
  method ProcessHeaders(bbn: Babylon, ibs: seq<Block>, maxHeaders: nat) returns (numSubmitted: nat, err: bool)
    requires bbn.Valid() && OurRun(ibs, bbn.root, bbn.prevOf) && maxHeaders > 0
    modifies bbn
    ensures bbn.Valid() && old(bbn.known) <= bbn.known
    ensures |bbn.acked| == old(|bbn.acked|) + numSubmitted && old(bbn.acked) <= bbn.acked
    ensures !err ==> NothingToDo(bbn, ibs)
    ensures err <==> bbn.failures > old(bbn.failures)
  {
    numSubmitted, err := 0, false;
    var first := FirstUnknown(bbn, ibs);
    if first.None? {
      return 0, true;
    }
    if first.value == |ibs| {
      return;
    }
    ghost var start, pos := first.value, first.value;
    var msgs := ChunkBy(ibs[first.value..], maxHeaders);
    var i := 0;
    while i < |msgs|
      invariant bbn.Valid() && old(bbn.known) <= bbn.known
      invariant |bbn.acked| == old(|bbn.acked|) + numSubmitted && old(bbn.acked) <= bbn.acked
      invariant 0 <= i <= |msgs| && start <= pos <= |ibs| && start < |ibs|
      invariant bbn.failures == old(bbn.failures)
      invariant i < |msgs| ==> pos < |ibs| && msgs[i..] == Chunks(ibs[pos..], maxHeaders)
      invariant i == |msgs| ==> ibs[|ibs| - 1].header.hash in bbn.known
      decreases |ibs| - start, |msgs| - i
    {
      var r;
      ghost var end;
      r, end := SubmitNext(bbn, ibs, pos, maxHeaders, msgs, i);
      match r
      case Rejected => return numSubmitted, true;
      case Accepted =>
        numSubmitted := numSubmitted + |msgs[i]|;
        pos, i := end, i + 1;
      case ForkStartsWithKnownHeader =>
        var next, _ := FindResumePoint(bbn, ibs, pos);
        if next.Stop? {
          return numSubmitted, next.err;
        }
        start, pos := next.start, next.start;
        msgs := ChunkBy(ibs[next.start..], maxHeaders);
        i := 0;
    }
    LastKnownMeansAll(bbn, ibs);
  }
}
