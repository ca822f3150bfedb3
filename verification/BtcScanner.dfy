/**
  monitor/btcscanner: turning a reorganising chain into a stream of k-deep blocks.
  The state machine below is what `Bootstrap` and `handleNewBlock` do to the confirmed tip,
  the unconfirmed window and the emitted stream; answers of the Bitcoin node are inputs.
 */
module BtcScanner {
  import opened Wrappers
  import opened Blocks
  import opened BtcCache

  /** Why the process stopped. `NilTip` is the nil dereference of the confirmed tip. */
  datatype Halt = Running | RpcFailure | InvalidChain | NilTip

  datatype State = State(
    base: nat,
    k: nat,
    cap: nat,
    tip: Option<Block>,
    window: seq<Block>,
    emitted: seq<Block>,
    halt: Halt
  )

  /**
    One turn of the scanner with the node's answers: the best height (if it could be read), the
    headers by height (an absent height is a failed read), and the height reported for a block
    fetched by hash.
   */
  datatype Event =
    | Boot(best: Option<nat>, headers: map<nat, Header>)
    | Notify(height: nat, header: Header, fetched: Option<nat>)

  function Fresh(base: nat, k: nat, cap: nat): State {
    State(base, k, cap, None, [], [], Running)
  }

  function Emit(s: State, blocks: seq<Block>): State {
    if blocks == [] then s
    else s.(tip := Some(blocks[|blocks| - 1]), emitted := s.emitted + blocks)
  }

  /** The confirmed-block loop of `Bootstrap`, from height `i` on. */
  function ConfirmFrom(s: State, i: nat, last: nat, headers: map<nat, Header>): State
    decreases last + 1 - i
  {
    if i > last then s
    else if i !in headers then s.(halt := RpcFailure)
    else if s.tip.Some? && s.tip.value.header.hash != headers[i].prev then s.(halt := InvalidChain)
    else ConfirmFrom(Emit(s, [Block(i, headers[i])]), i + 1, last, headers)
  }

  /** The unconfirmed-block loop of `Bootstrap`, from height `i` on. */
  function CacheFrom(s: State, i: nat, last: nat, headers: map<nat, Header>): State
    decreases last + 1 - i
  {
    if i > last then s
    else if i !in headers then s.(halt := RpcFailure)
    else if s.window != [] && s.window[|s.window| - 1].header.hash != headers[i].prev then s.(halt := InvalidChain)
    else CacheFrom(s.(window := LastN(s.window + [Block(i, headers[i])], s.cap)), i + 1, last, headers)
  }

  /** The uint32 subtraction `bestHeight - k`. */
  function BestConfirmed(best: nat, k: nat): nat {
    (best - k) % U32
  }

  function FirstUnconfirmed(s: State): nat {
    if s.tip.Some? then s.tip.value.height + 1 else s.base
  }

  function SecondLoop(s: State, from: nat, best: nat, headers: map<nat, Header>): State {
    if s.halt.Running? then CacheFrom(s, from, best, headers) else s
  }

  function Bootstrapped(s: State, best: Option<nat>, headers: map<nat, Header>): State {
    var s0 := s.(window := []);
    if best.None? then s0.(halt := RpcFailure)
    else
      var confirmed := BestConfirmed(best.value, s.k);
      SecondLoop(ConfirmFrom(s0, FirstUnconfirmed(s), confirmed, headers), confirmed + 1, best.value, headers)
  }

  /** `handleNewBlock` returns an error, so that the event loop bootstraps again. */
  predicate NeedsBootstrap(s: State, height: nat, header: Header) {
    s.window == [] ||
    var top := s.window[|s.window| - 1];
    top.height < height && (top.height + 1 < height || header.prev != top.header.hash)
  }

  /** The new block is not above the cached tip. */
  predicate TooEarly(s: State, height: nat) {
    s.window != [] && s.window[|s.window| - 1].height >= height
  }

  /** What is more than k deep in the window goes out. */
  function Confirmed(s: State): State {
    var w := s.window;
    if |w| <= s.k then s
    else
      var confirmed, s' := w[..|w| - s.k], s.(window := w[|w| - s.k..]);
      if s.tip.None? then s'.(halt := NilTip)
      else if s.tip.value.header.hash != confirmed[0].header.prev then s'.(halt := InvalidChain)
      else Emit(s', confirmed)
  }

  function Notified(s: State, height: nat, header: Header, fetched: Option<nat>): State {
    if TooEarly(s, height) || NeedsBootstrap(s, height, header) then s
    else if fetched.None? then s.(halt := RpcFailure)
    else Confirmed(s.(window := LastN(s.window + [Block(fetched.value, header)], s.cap)))
  }

  function Step(s: State, e: Event): State {
    if !s.halt.Running? then s
    else match e
      case Boot(best, headers) => Bootstrapped(s, best, headers)
      case Notify(height, header, fetched) => Notified(s, height, header, fetched)
  }

  function Run(s: State, es: seq<Event>): State {
    if es == [] then s else Step(Run(s, es[..|es| - 1]), es[|es| - 1])
  }

  // ---- Safety with no assumption on reorgs, cache size or RPC failures ----

  ghost predicate AllIn(s: seq<Block>, w: iset<Block>) {
    forall b :: b in s ==> b in w
  }

  /** The node only ever answers with blocks of the tree `w`. */
  ghost predicate AnswersIn(e: Event, w: iset<Block>) {
    match e
    case Boot(_, headers) => forall i :: i in headers ==> Block(i, headers[i]) in w
    case Notify(_, header, fetched) => fetched.Some? ==> Block(fetched.value, header) in w
  }

  ghost predicate Consistent(s: State, w: iset<Block>) {
    && Linked(s.emitted) && AllIn(s.emitted, w)
    && Linked(s.window) && AllIn(s.window, w)
    && s.tip == (if s.emitted == [] then None else Some(s.emitted[|s.emitted| - 1]))
    && |s.window| <= s.cap
  }

  lemma EmitConsistent(s: State, blocks: seq<Block>, w: iset<Block>)
    requires Tree(w) && Consistent(s, w)
    requires Linked(blocks) && AllIn(blocks, w)
    requires blocks != [] && s.tip.Some? ==> blocks[0].header.prev == s.tip.value.header.hash
    ensures Consistent(Emit(s, blocks), w)
  {
    if blocks != [] && s.tip.Some? {
      assert s.tip.value in s.emitted && blocks[0] in blocks;
    }
    LinkedConcat(s.emitted, blocks);
  }

  lemma {:induction false} ConfirmConsistent(s: State, i: nat, last: nat, headers: map<nat, Header>, w: iset<Block>)
    requires Tree(w) && Consistent(s, w)
    requires forall h :: h in headers ==> Block(h, headers[h]) in w
    ensures Consistent(ConfirmFrom(s, i, last, headers), w)
    ensures ConfirmFrom(s, i, last, headers).window == s.window
    decreases last + 1 - i
  {
    if i <= last && i in headers && (s.tip.Some? ==> s.tip.value.header.hash == headers[i].prev) {
      EmitConsistent(s, [Block(i, headers[i])], w);
      ConfirmConsistent(Emit(s, [Block(i, headers[i])]), i + 1, last, headers, w);
    }
  }

  /** Appending a block whose parent is the top of the window keeps the window a linked run. */
  lemma PushLinked(window: seq<Block>, b: Block, cap: nat, w: iset<Block>)
    requires Tree(w) && Linked(window) && AllIn(window, w) && b in w
    requires window != [] ==> b.header.prev == window[|window| - 1].header.hash
    ensures Linked(window + [b])
    ensures Linked(LastN(window + [b], cap)) && AllIn(LastN(window + [b], cap), w)
  {
    if window != [] {
      assert window[|window| - 1] in window;
    }
    LinkedConcat(window, [b]);
    var n := |LastN(window + [b], cap)|;
    LinkedSlice(window + [b], |window| + 1 - n, |window| + 1);
  }

  lemma {:induction false} CacheConsistent(s: State, i: nat, last: nat, headers: map<nat, Header>, w: iset<Block>)
    requires Tree(w) && Consistent(s, w)
    requires forall h :: h in headers ==> Block(h, headers[h]) in w
    ensures Consistent(CacheFrom(s, i, last, headers), w)
    decreases last + 1 - i
  {
    if i <= last && i in headers && (s.window != [] ==> s.window[|s.window| - 1].header.hash == headers[i].prev) {
      PushLinked(s.window, Block(i, headers[i]), s.cap, w);
      CacheConsistent(s.(window := LastN(s.window + [Block(i, headers[i])], s.cap)), i + 1, last, headers, w);
    }
  }

  lemma NotifyConsistent(s: State, height: nat, header: Header, fetched: Option<nat>, w: iset<Block>)
    requires Tree(w) && Consistent(s, w)
    requires AnswersIn(Notify(height, header, fetched), w)
    ensures Consistent(Notified(s, height, header, fetched), w)
  {
    if !TooEarly(s, height) && !NeedsBootstrap(s, height, header) && fetched.Some? {
      var b := Block(fetched.value, header);
      PushLinked(s.window, b, s.cap, w);
      var win := LastN(s.window + [b], s.cap);
      if |win| > s.k {
        var cut := |win| - s.k;
        LinkedSlice(win, 0, cut);
        LinkedSlice(win, cut, |win|);
        assert win[..cut] + win[cut..] == win;
        if s.tip.Some? && s.tip.value.header.hash == win[..cut][0].header.prev {
          EmitConsistent(s.(window := win[cut..]), win[..cut], w);
        }
      }
    }
  }

  lemma StepConsistent(s: State, e: Event, w: iset<Block>)
    requires Tree(w) && Consistent(s, w) && AnswersIn(e, w)
    ensures Consistent(Step(s, e), w)
  {
    match e
    case Boot(best, headers) =>
      if s.halt.Running? && best.Some? {
        var s0, confirmed := s.(window := []), BestConfirmed(best.value, s.k);
        ConfirmConsistent(s0, FirstUnconfirmed(s), confirmed, headers, w);
        var s1 := ConfirmFrom(s0, FirstUnconfirmed(s), confirmed, headers);
        CacheConsistent(s1, confirmed + 1, best.value, headers, w);
      }
    case Notify(height, header, fetched) =>
      NotifyConsistent(s, height, header, fetched, w);
  }

  /**
    Whatever the node answers, the stream emitted by any run is hash-linked with heights rising
    by exactly one, and the confirmed tip is its last block.
   */
  lemma {:induction false} StreamIsLinked(base: nat, k: nat, cap: nat, es: seq<Event>, w: iset<Block>)
    requires Tree(w)
    requires forall e :: e in es ==> AnswersIn(e, w)
    ensures Linked(Run(Fresh(base, k, cap), es).emitted)
    ensures Consistent(Run(Fresh(base, k, cap), es), w)
  {
    if es != [] {
      StreamIsLinked(base, k, cap, es[..|es| - 1], w);
      StepConsistent(Run(Fresh(base, k, cap), es[..|es| - 1]), es[|es| - 1], w);
    }
  }

  /** The blocks a step adds to the stream. */
  function NewlyEmitted(s: State, t: State): seq<Block>
    requires |s.emitted| <= |t.emitted|
  {
    t.emitted[|s.emitted|..]
  }

  /**
    A notification that emits anything leaves a window of exactly k blocks that descend, block by
    block, from what was emitted: each emitted block has k linked descendants in the window.
   */
  lemma EmittedBlocksAreBuried(s: State, height: nat, header: Header, fetched: Option<nat>, w: iset<Block>)
    requires Tree(w) && Consistent(s, w)
    requires AnswersIn(Notify(height, header, fetched), w)
    requires Notified(s, height, header, fetched).emitted != s.emitted
    ensures var t := Notified(s, height, header, fetched);
            && |t.emitted| > |s.emitted| && s.emitted == t.emitted[..|s.emitted|]
            && |t.window| == s.k
            && Linked(NewlyEmitted(s, t) + t.window)
  {
    var b := Block(fetched.value, header);
    PushLinked(s.window, b, s.cap, w);
    var win := LastN(s.window + [b], s.cap);
    var cut, t := |win| - s.k, Notified(s, height, header, fetched);
    assert t.emitted[|s.emitted|..] == win[..cut];
    assert win[..cut] + win[cut..] == win;
  }

  /** A cache that cannot hold more than k blocks silences `handleNewBlock` for good. */
  lemma SmallCacheNeverEmits(s: State, height: nat, header: Header, fetched: Option<nat>)
    requires s.cap <= s.k
    ensures Notified(s, height, header, fetched).emitted == s.emitted
  {
  }

  // ---- Exactly-once delivery of the canonical chain ----

  /** The canonical chain from genesis; the index is the height. */
  ghost predicate IsChain(c: seq<Header>, w: iset<Block>) {
    && 0 < |c| < U32
    && (forall i :: 0 <= i < |c| ==> Block(i, c[i]) in w)
    && (forall i :: 0 < i < |c| ==> c[i].prev == c[i - 1].hash)
  }

  function Canonical(c: seq<Header>, from: nat, to: nat): (r: seq<Block>)
    requires from <= to <= |c|
    ensures |r| == to - from
    ensures forall j :: 0 <= j < to - from ==> r[j] == Block(from + j, c[from + j])
  {
    seq(to - from, j requires 0 <= j < to - from => Block(from + j, c[from + j]))
  }

  /**
    The answers, as far as calls succeed, describe the chain `c` while the step runs. A notification
    may have waited in the queue: its block exists and is not higher than the chain, but a reorg may
    have orphaned it.
   */
  ghost predicate Faithful(e: Event, c: seq<Header>, w: iset<Block>) {
    match e
    case Boot(best, headers) =>
      && (best.Some? ==> best.value == |c| - 1)
      && (forall h :: h in headers ==> h < |c| && headers[h] == c[h])
    case Notify(height, header, fetched) =>
      && height < |c| && Block(height, header) in w
      && (fetched.Some? ==> fetched.value == height)
  }

  predicate OnChain(b: Block, c: seq<Header>) {
    b.height < |c| && b.header == c[b.height]
  }

  /** Blocks of `c` that the scanner has confirmed. */
  function Settled(s: State): nat {
    if s.tip.Some? then s.tip.value.height + 1 else 0
  }

  /**
    What the environment promises between two steps: the best height does not fall, no reorg
    replaces a confirmed block, neither one confirmed before the step nor the one that a
    notification confirms, and the first bootstrap finds the base height k-deep.
   */
  ghost predicate Legal(s: State, c: seq<Header>, e: Event, c': seq<Header>, w: iset<Block>) {
    && IsChain(c', w) && Faithful(e, c', w)
    && |c'| >= |c|
    && Settled(s) <= |c'| && Settled(s) <= |c| && c'[..Settled(s)] == c[..Settled(s)]
    && (e.Notify? && Step(s, e).tip.Some? ==> OnChain(Step(s, e).tip.value, c'))
    && (s.tip.None? ==> s.base + s.k < |c'|)
  }

  /** The highest block the scanner has cached, or its confirmed tip. */
  function SeenTip(s: State): int {
    if s.window != [] then s.window[|s.window| - 1].height
    else if s.tip.Some? then s.tip.value.height
    else s.base - 1
  }

  /** The stream so far is the canonical chain from the base to the confirmed tip. */
  ghost predicate Delivered(s: State, c: seq<Header>) {
    match s.tip
    case None => s.emitted == []
    case Some(t) =>
      && s.base <= t.height < |c|
      && t == Block(t.height, c[t.height])
      && s.emitted == Canonical(c, s.base, t.height + 1)
  }

  /** What holds while the process runs: a full window on top of the confirmed tip. */
  ghost predicate Synced(s: State, c: seq<Header>, w: iset<Block>) {
    match s.tip
    case None => s.window == []
    case Some(t) =>
      && |s.window| == s.k
      && Linked([t] + s.window) && AllIn([t] + s.window, w)
      && t.height + s.k < |c|
  }

  ghost predicate Good(s: State, c: seq<Header>, w: iset<Block>) {
    && s.k < s.cap
    && Delivered(s, c)
    && match s.halt
       case Running => Synced(s, c, w)
       case RpcFailure => true
       case _ => false
  }

  lemma DeliveredTransfer(s: State, c: seq<Header>, c': seq<Header>)
    requires Delivered(s, c)
    requires Settled(s) <= |c| && Settled(s) <= |c'| && c'[..Settled(s)] == c[..Settled(s)]
    ensures Delivered(s, c')
  {
    if s.tip.Some? {
      var n := Settled(s);
      forall h | 0 <= h < n ensures c'[h] == c[h] {
        assert c'[..n][h] == c[..n][h];
      }
      assert Canonical(c', s.base, n) == Canonical(c, s.base, n);
    }
  }

  lemma CanonicalSplit(c: seq<Header>, from: nat, mid: nat, to: nat)
    requires from <= mid <= to <= |c|
    ensures Canonical(c, from, mid) + Canonical(c, mid, to) == Canonical(c, from, to)
  {
  }

  lemma EmitDelivered(s: State, c: seq<Header>, w: iset<Block>)
    requires IsChain(c, w) && Delivered(s, c)
    requires s.base <= FirstUnconfirmed(s) < |c|
    ensures var i := FirstUnconfirmed(s);
            var t := Emit(s, [Block(i, c[i])]);
            Delivered(t, c) && FirstUnconfirmed(t) == i + 1 && (s.tip.Some? ==> s.tip.value.header.hash == c[i].prev)
  {
    var i := FirstUnconfirmed(s);
    CanonicalSplit(c, s.base, i, i + 1);
    assert Canonical(c, i, i + 1) == [Block(i, c[i])];
    if s.tip.None? {
      assert Canonical(c, s.base, i) == [];
    }
  }

  lemma {:induction false} ConfirmDelivers(
    s: State, last: nat, headers: map<nat, Header>, c: seq<Header>, w: iset<Block>
  )
    requires s.halt.Running? && IsChain(c, w) && Delivered(s, c)
    requires s.base <= FirstUnconfirmed(s) <= last + 1 <= |c|
    requires forall h :: h in headers ==> h < |c| && headers[h] == c[h]
    requires s.tip.None? ==> s.base <= last
    ensures var t := ConfirmFrom(s, FirstUnconfirmed(s), last, headers);
            && Delivered(t, c) && t.window == s.window
            && (t.halt.Running? || t.halt.RpcFailure?)
            && (t.halt.Running? ==> t.tip == Some(Block(last, c[last])))
            && t.(tip := s.tip, emitted := s.emitted, halt := Running) == s
    decreases last + 1 - FirstUnconfirmed(s)
  {
    var i := FirstUnconfirmed(s);
    if i <= last {
      EmitDelivered(s, c, w);
      if i in headers {
        ConfirmDelivers(Emit(s, [Block(i, c[i])]), last, headers, c, w);
      }
    }
  }

  lemma {:induction false} CacheFills(
    s: State, from: nat, i: nat, headers: map<nat, Header>, c: seq<Header>, w: iset<Block>
  )
    requires s.halt.Running? && IsChain(c, w)
    requires from <= i <= |c| && |c| - from <= s.cap
    requires forall h :: h in headers ==> h < |c| && headers[h] == c[h]
    requires s.window == Canonical(c, from, i)
    ensures var t := CacheFrom(s, i, |c| - 1, headers);
            && (t.halt.Running? || t.halt.RpcFailure?)
            && (t.halt.Running? ==> t == s.(window := Canonical(c, from, |c|)))
            && t.(window := s.window, halt := Running) == s
    decreases |c| - i
  {
    if i < |c| && i in headers {
      CanonicalSplit(c, from, i, i + 1);
      assert Canonical(c, i, i + 1) == [Block(i, c[i])];
      var next := LastN(s.window + [Block(i, headers[i])], s.cap);
      assert next == Canonical(c, from, i + 1);
      CacheFills(s.(window := next), from, i + 1, headers, c, w);
    }
  }

  lemma CanonicalLinked(c: seq<Header>, from: nat, to: nat, w: iset<Block>)
    requires IsChain(c, w) && from <= to <= |c|
    ensures Linked(Canonical(c, from, to)) && AllIn(Canonical(c, from, to), w)
  {
  }

  lemma CanonicalLine(c: seq<Header>, last: nat, w: iset<Block>)
    requires IsChain(c, w) && last < |c|
    ensures Linked([Block(last, c[last])] + Canonical(c, last + 1, |c|))
    ensures AllIn([Block(last, c[last])] + Canonical(c, last + 1, |c|), w)
  {
    CanonicalSplit(c, last, last + 1, |c|);
    assert Canonical(c, last, last + 1) == [Block(last, c[last])];
    CanonicalLinked(c, last, |c|, w);
  }

  /** A full window reaches k blocks above the confirmed tip. */
  lemma SeenTipIsTop(s: State, c: seq<Header>, w: iset<Block>)
    requires Synced(s, c, w) && s.tip.Some?
    ensures SeenTip(s) == s.tip.value.height + s.k
  {
    var line := [s.tip.value] + s.window;
    LinkedHeights(line, 0, |line| - 1);
    assert s.window != [] ==> line[|line| - 1] == s.window[|s.window| - 1];
  }

  /** Where a bootstrap on one chain ends: everything k-deep is out, the rest is cached. */
  ghost predicate AtBest(t: State, c: seq<Header>, k: nat, cap: nat) {
    && t.k == k && t.cap == cap && t.k < t.cap && t.k < |c| && Delivered(t, c)
    && (t.halt.Running? || t.halt.RpcFailure?)
    && (t.halt.Running? ==>
          && t.tip == Some(Block(|c| - 1 - t.k, c[|c| - 1 - t.k]))
          && t.window == Canonical(c, |c| - t.k, |c|))
  }

  /** Where its first loop ends. */
  ghost predicate AtConfirmed(s1: State, c: seq<Header>, k: nat, cap: nat) {
    && s1.k == k && s1.cap == cap && s1.k < s1.cap && s1.k < |c| && s1.window == [] && Delivered(s1, c)
    && (s1.halt.Running? || s1.halt.RpcFailure?)
    && (s1.halt.Running? ==> s1.tip == Some(Block(|c| - 1 - s1.k, c[|c| - 1 - s1.k])))
  }

  lemma CacheReachesBest(s1: State, headers: map<nat, Header>, c: seq<Header>, w: iset<Block>)
    requires s1.halt.Running? && IsChain(c, w) && AtConfirmed(s1, c, s1.k, s1.cap)
    requires forall h :: h in headers ==> h < |c| && headers[h] == c[h]
    ensures var t := CacheFrom(s1, |c| - s1.k, |c| - 1, headers);
            AtBest(t, c, s1.k, s1.cap)
  {
    var first := |c| - s1.k;
    assert Canonical(c, first, first) == [];
    CacheFills(s1, first, first, headers, c, w);
  }

  lemma ConfirmReachesBest(s: State, headers: map<nat, Header>, c: seq<Header>, w: iset<Block>)
    requires s.halt.Running? && IsChain(c, w) && Delivered(s, c)
    requires s.k < s.cap && s.k < |c| && s.base <= FirstUnconfirmed(s) <= |c| - s.k
    requires forall h :: h in headers ==> h < |c| && headers[h] == c[h]
    requires s.tip.None? ==> s.base + s.k < |c|
    ensures var s1 := ConfirmFrom(s.(window := []), FirstUnconfirmed(s), |c| - 1 - s.k, headers);
            AtConfirmed(s1, c, s.k, s.cap)
  {
    ConfirmDelivers(s.(window := []), |c| - 1 - s.k, headers, c, w);
  }

  lemma SecondLoopReachesBest(
    s1: State, t: State, headers: map<nat, Header>, c: seq<Header>, w: iset<Block>, k: nat, cap: nat
  )
    requires IsChain(c, w) && AtConfirmed(s1, c, k, cap)
    requires forall h :: h in headers ==> h < |c| && headers[h] == c[h]
    requires t == SecondLoop(s1, |c| - k, |c| - 1, headers)
    ensures AtBest(t, c, k, cap)
  {
    if s1.halt.Running? {
      CacheReachesBest(s1, headers, c, w);
    }
  }

  /** The two loops of a bootstrap on one chain. */
  lemma LoopsRun(s: State, last: nat, headers: map<nat, Header>, c: seq<Header>, w: iset<Block>)
    requires s.halt.Running? && IsChain(c, w) && Delivered(s, c)
    requires s.k < s.cap && last + s.k + 1 == |c| && s.base <= FirstUnconfirmed(s) <= last + 1
    requires forall h :: h in headers ==> h < |c| && headers[h] == c[h]
    requires s.tip.None? ==> s.base <= last
    ensures var s1 := ConfirmFrom(s.(window := []), FirstUnconfirmed(s), last, headers);
            AtBest(SecondLoop(s1, last + 1, |c| - 1, headers), c, s.k, s.cap)
  {
    ConfirmReachesBest(s, headers, c, w);
    var s1 := ConfirmFrom(s.(window := []), FirstUnconfirmed(s), last, headers);
    SecondLoopReachesBest(s1, SecondLoop(s1, last + 1, |c| - 1, headers), headers, c, w, s.k, s.cap);
  }

  lemma BootRuns(s: State, headers: map<nat, Header>, c: seq<Header>, w: iset<Block>)
    requires s.halt.Running? && IsChain(c, w) && Delivered(s, c)
    requires s.k < s.cap && s.k < |c| && s.base <= FirstUnconfirmed(s) <= |c| - s.k
    requires forall h :: h in headers ==> h < |c| && headers[h] == c[h]
    requires s.tip.None? ==> s.base + s.k < |c|
    ensures AtBest(Bootstrapped(s, Some(|c| - 1), headers), c, s.k, s.cap)
  {
    var last := BestConfirmed(|c| - 1, s.k);
    assert last + s.k + 1 == |c|;
    LoopsRun(s, last, headers, c, w);
  }

  lemma SyncedOnChain(s: State, c: seq<Header>, w: iset<Block>)
    requires IsChain(c, w) && s.k < |c|
    requires s.tip == Some(Block(|c| - 1 - s.k, c[|c| - 1 - s.k])) && s.window == Canonical(c, |c| - s.k, |c|)
    ensures Synced(s, c, w) && SeenTip(s) == |c| - 1
  {
    CanonicalLine(c, |c| - 1 - s.k, w);
    SeenTipIsTop(s, c, w);
  }

  lemma AtBestIsGood(t: State, c: seq<Header>, w: iset<Block>)
    requires IsChain(c, w) && AtBest(t, c, t.k, t.cap)
    ensures Good(t, c, w) && (t.halt.Running? ==> t.tip.Some? && SeenTip(t) == |c| - 1)
  {
    if t.halt.Running? {
      SyncedOnChain(t, c, w);
    }
  }

  /** A bootstrap on a settled chain delivers everything k-deep and sees the whole chain. */
  lemma BootOnChain(s: State, best: Option<nat>, headers: map<nat, Header>, c: seq<Header>, w: iset<Block>)
    requires s.halt.Running? && s.k < s.cap && IsChain(c, w) && Delivered(s, c) && Faithful(Boot(best, headers), c, w)
    requires s.k < |c| && s.base <= FirstUnconfirmed(s) <= |c| - s.k
    requires s.tip.None? ==> s.base + s.k < |c|
    ensures var t := Bootstrapped(s, best, headers);
            Good(t, c, w) && (t.halt.Running? ==> t.tip.Some? && SeenTip(t) == |c| - 1)
  {
    if best.Some? {
      BootRuns(s, headers, c, w);
      AtBestIsGood(Bootstrapped(s, best, headers), c, w);
    }
  }

  lemma BootIsGood(
    s: State, c: seq<Header>, best: Option<nat>, headers: map<nat, Header>, c': seq<Header>, w: iset<Block>
  )
    requires Good(s, c, w) && s.halt.Running?
    requires Legal(s, c, Boot(best, headers), c', w)
    ensures var t := Bootstrapped(s, best, headers);
            Good(t, c', w) && (t.halt.Running? ==> t.tip.Some? && SeenTip(t) == |c'| - 1)
  {
    DeliveredTransfer(s, c, c');
    BootOnChain(s, best, headers, c', w);
  }

  /** A linked run of real blocks that ends on a chain lies on that chain all the way down. */
  lemma {:induction false} RunLiesOnChain(s: seq<Block>, h: nat, j: nat, c: seq<Header>, w: iset<Block>)
    requires Tree(w) && IsChain(c, w) && Linked(s) && AllIn(s, w)
    requires j < |s| && h < |c| && s[|s| - 1] == Block(h, c[h])
    ensures |s| <= h + 1 + j && s[j] == Block(h + 1 + j - |s|, c[h + 1 + j - |s|])
    decreases |s| - j
  {
    if j < |s| - 1 {
      RunLiesOnChain(s, h, j + 1, c, w);
      var x := h + 2 + j - |s|;
      assert Extends(s[j], s[j + 1]) && s[j] in s;
      assert Block(x - 1, c[x - 1]) in w;
    }
  }

  /** An accepted block continues the window, which continues the confirmed tip. */
  lemma AcceptedIsLinked(window: seq<Block>, t: Block, b: Block, w: iset<Block>)
    requires window != [] && Linked([t] + window) && AllIn([t] + window, w)
    requires b in w && Extends(window[|window| - 1], b)
    ensures b.height == t.height + |window| + 1 && Extends(t, window[0])
    ensures Linked(window + [b]) && AllIn(window + [b], w)
  {
    var line := [t] + window;
    LinkedHeights(line, 0, |line| - 1);
    LinkedSlice(line, 1, |line|);
    assert line[1..] == window && Extends(line[0], line[1]);
    LinkedConcat(window, [b]);
    assert AllIn(window + [b], w) by {
      forall x | x in window ensures x in [t] + window {}
    }
  }

  /** The notification is taken: it extends the window by one block and emits the lowest one. */
  predicate Taken(s: State, height: nat, header: Header, fetched: Option<nat>) {
    s.tip.Some? && !TooEarly(s, height) && !NeedsBootstrap(s, height, header) && fetched.Some?
  }

  lemma TakenShifts(s: State, c: seq<Header>, height: nat, header: Header, w: iset<Block>)
    requires Good(s, c, w) && s.halt.Running? && Block(height, header) in w
    requires Taken(s, height, header, Some(height))
    ensures var t, win := s.tip.value, s.window + [Block(height, header)];
            && |win| == s.k + 1 && Linked(win) && AllIn(win, w) && Extends(t, win[0]) && height == t.height + s.k + 1
            && Notified(s, height, header, Some(height)) == Emit(s.(window := win[1..]), [win[0]])
  {
    var t, b := s.tip.value, Block(height, header);
    AcceptedIsLinked(s.window, t, b, w);
    var win := s.window + [b];
    assert LastN(win, s.cap) == win && win[..1] == [win[0]];
  }

  lemma NotifyIsGood(
    s: State, c: seq<Header>, height: nat, header: Header, fetched: Option<nat>, c': seq<Header>, w: iset<Block>
  )
    requires Tree(w) && Good(s, c, w) && s.halt.Running?
    requires Legal(s, c, Notify(height, header, fetched), c', w)
    ensures Good(Notified(s, height, header, fetched), c', w)
  {
    DeliveredTransfer(s, c, c');
    if Taken(s, height, header, fetched) {
      TakenShifts(s, c, height, header, w);
      var win := s.window + [Block(height, header)];
      var s' := s.(window := win[1..]);
      assert OnChain(win[0], c');
      EmitDelivered(s', c', w);
      assert [win[0]] + win[1..] == win;
    }
  }

  /** The ancestor k below the block, if the scanner can know it, is on the chain. */
  ghost predicate Shallow(b: Block, k: nat, c: seq<Header>, w: iset<Block>) {
    forall line :: Linked(line) && AllIn(line, w) && |line| == k + 1 && line[k] == b ==> OnChain(line[0], c)
  }

  lemma CanonicalIsShallow(b: Block, k: nat, c: seq<Header>, w: iset<Block>)
    requires Tree(w) && IsChain(c, w) && OnChain(b, c)
    ensures Shallow(b, k, c, w)
  {
    forall line | Linked(line) && AllIn(line, w) && |line| == k + 1 && line[k] == b ensures OnChain(line[0], c) {
      RunLiesOnChain(line, b.height, 0, c, w);
    }
  }

  /**
    Which notifications the contract admits, whatever the scanner has cached: all of blocks that
    were orphaned by at most k blocks, and so all of canonical blocks.
   */
  lemma ShallowIsLegal(
    s: State, c: seq<Header>, height: nat, header: Header, fetched: Option<nat>, c': seq<Header>, w: iset<Block>
  )
    requires Good(s, c, w) && s.halt.Running? && IsChain(c', w) && |c'| >= |c|
    requires Faithful(Notify(height, header, fetched), c', w) && Shallow(Block(height, header), s.k, c', w)
    requires Settled(s) <= |c'| && Settled(s) <= |c| && c'[..Settled(s)] == c[..Settled(s)]
    requires s.tip.None? ==> s.base + s.k < |c'|
    ensures Legal(s, c, Notify(height, header, fetched), c', w)
  {
    DeliveredTransfer(s, c, c');
    if Taken(s, height, header, fetched) {
      TakenShifts(s, c, height, header, w);
      assert OnChain((s.window + [Block(height, header)])[0], c');
    }
  }

  /** A turn of the scanner together with the chain that was canonical while it ran. */
  datatype Turn = Turn(event: Event, chain: seq<Header>)

  function Events(ts: seq<Turn>): (es: seq<Event>)
    ensures |es| == |ts| && forall i :: 0 <= i < |ts| ==> es[i] == ts[i].event
  {
    seq(|ts|, i requires 0 <= i < |ts| => ts[i].event)
  }

  function LastChain(c: seq<Header>, ts: seq<Turn>): seq<Header> {
    if ts == [] then c else ts[|ts| - 1].chain
  }

  /** Every turn is legal from the state and chain that the turns before it led to. */
  ghost predicate LegalRun(s: State, c: seq<Header>, ts: seq<Turn>, w: iset<Block>) {
    ts != [] ==>
      var before := ts[..|ts| - 1];
      && LegalRun(s, c, before, w)
      && Legal(Run(s, Events(before)), LastChain(c, before), ts[|ts| - 1].event, ts[|ts| - 1].chain, w)
  }

  lemma {:induction false} RunIsGood(base: nat, k: nat, cap: nat, c: seq<Header>, ts: seq<Turn>, w: iset<Block>)
    requires Tree(w) && k < cap
    requires LegalRun(Fresh(base, k, cap), c, ts, w)
    ensures Good(Run(Fresh(base, k, cap), Events(ts)), LastChain(c, ts), w)
  {
    if ts != [] {
      var before, last := ts[..|ts| - 1], ts[|ts| - 1];
      RunIsGood(base, k, cap, c, before, w);
      assert Events(ts)[..|ts| - 1] == Events(before);
      var s, d := Run(Fresh(base, k, cap), Events(before)), LastChain(c, before);
      StepIsGood(s, d, last.event, last.chain, w);
    }
  }

  lemma StepIsGood(s: State, c: seq<Header>, e: Event, c': seq<Header>, w: iset<Block>)
    requires Tree(w) && Good(s, c, w) && Legal(s, c, e, c', w)
    ensures Good(Step(s, e), c', w)
  {
    if !s.halt.Running? {
      DeliveredTransfer(s, c, c');
    } else {
      match e
      case Boot(best, headers) => BootIsGood(s, c, best, headers, c', w);
      case Notify(height, header, fetched) => NotifyIsGood(s, c, height, header, fetched, c', w);
    }
  }

  lemma {:induction false} RunKeepsConfig(s: State, es: seq<Event>)
    ensures Run(s, es).base == s.base && Run(s, es).k == s.k && Run(s, es).cap == s.cap
  {
    if es != [] {
      RunKeepsConfig(s, es[..|es| - 1]);
      var t := Run(s, es[..|es| - 1]);
      if t.halt.Running? {
        match es[|es| - 1]
        case Boot(best, headers) =>
          if best.Some? {
            var s0, confirmed := t.(window := []), BestConfirmed(best.value, t.k);
            ConfirmKeepsConfig(s0, FirstUnconfirmed(t), confirmed, headers);
            var s1 := ConfirmFrom(s0, FirstUnconfirmed(t), confirmed, headers);
            CacheKeepsConfig(s1, confirmed + 1, best.value, headers);
          }
        case Notify(_, _, _) =>
      }
    }
  }

  lemma {:induction false} ConfirmKeepsConfig(s: State, i: nat, last: nat, headers: map<nat, Header>)
    ensures var t := ConfirmFrom(s, i, last, headers); t.base == s.base && t.k == s.k && t.cap == s.cap
    decreases last + 1 - i
  {
    if i <= last && i in headers {
      ConfirmKeepsConfig(Emit(s, [Block(i, headers[i])]), i + 1, last, headers);
    }
  }

  lemma {:induction false} CacheKeepsConfig(s: State, i: nat, last: nat, headers: map<nat, Header>)
    ensures var t := CacheFrom(s, i, last, headers); t.base == s.base && t.k == s.k && t.cap == s.cap
    decreases last + 1 - i
  {
    if i <= last && i in headers {
      CacheKeepsConfig(s.(window := LastN(s.window + [Block(i, headers[i])], s.cap)), i + 1, last, headers);
    }
  }

  lemma GoodMeansDelivered(r: State, c: seq<Header>, w: iset<Block>)
    requires Good(r, c, w)
    ensures r.halt.Running? || r.halt.RpcFailure?
    ensures r.emitted != [] ==> r.base + |r.emitted| <= |c| && r.emitted == Canonical(c, r.base, r.base + |r.emitted|)
    ensures r.halt.Running? && r.tip.Some? ==> r.base + |r.emitted| == SeenTip(r) - r.k + 1
  {
    if r.tip.Some? {
      assert |r.emitted| == r.tip.value.height + 1 - r.base;
      if r.halt.Running? {
        SeenTipIsTop(r, c, w);
      }
    }
  }

  /**
    Exactly-once delivery. With k below the cache capacity, in every interleaving of bootstraps and
    notifications that the environment contract allows, the scanner never panics over its chain;
    the stream is exactly the canonical blocks from the base on, each once and in order; and while
    it runs the stream reaches up to the highest block seen minus k.
   */
  lemma ExactlyOnceDelivery(
    base: nat, k: nat, cap: nat, c: seq<Header>, ts: seq<Turn>, w: iset<Block>, r: State, chain: seq<Header>
  )
    requires Tree(w) && k < cap
    requires LegalRun(Fresh(base, k, cap), c, ts, w)
    requires r == Run(Fresh(base, k, cap), Events(ts)) && chain == LastChain(c, ts)
    ensures r.halt.Running? || r.halt.RpcFailure?
    ensures r.emitted != [] ==> base + |r.emitted| <= |chain| && r.emitted == Canonical(chain, base, base + |r.emitted|)
    ensures r.halt.Running? && r.tip.Some? ==> base + |r.emitted| == SeenTip(r) - k + 1
  {
    RunIsGood(base, k, cap, c, ts, w);
    RunKeepsConfig(Fresh(base, k, cap), Events(ts));
    GoodMeansDelivered(r, chain, w);
  }

  // ---- Where the contract is needed ----

  /** All heights of a range were read, and each header names the one read below it as its parent. */
  predicate LinkedReads(headers: map<nat, Header>, from: nat, to: nat) {
    && (forall h :: from <= h <= to ==> h in headers)
    && (forall h :: from < h <= to ==> headers[h].prev == headers[h - 1].hash)
  }

  /** Every read of the chain `c` succeeds. */
  function AllHeaders(c: seq<Header>): (m: map<nat, Header>)
    ensures forall h :: h in m <==> 0 <= h < |c|
    ensures forall h :: h in m ==> m[h] == c[h]
  {
    map h: nat | 0 <= h < |c| :: c[h]
  }

  lemma {:induction false} ConfirmHalts(s: State, i: nat, last: nat, headers: map<nat, Header>)
    requires s.halt.Running?
    requires forall h :: i <= h <= last ==> h in headers
    ensures var t := ConfirmFrom(s, i, last, headers);
            && t.k == s.k && t.cap == s.cap && t.window == s.window
            && t.halt == if (s.tip.Some? && i <= last ==> s.tip.value.header.hash == headers[i].prev)
                            && LinkedReads(headers, i, last) then Running else InvalidChain
    decreases last + 1 - i
  {
    if i <= last && (s.tip.Some? ==> s.tip.value.header.hash == headers[i].prev) {
      ConfirmHalts(Emit(s, [Block(i, headers[i])]), i + 1, last, headers);
    }
  }

  lemma {:induction false} CacheHalts(s: State, i: nat, last: nat, headers: map<nat, Header>)
    requires s.halt.Running? && s.cap > 0
    requires forall h :: i <= h <= last ==> h in headers
    ensures CacheFrom(s, i, last, headers).halt ==
            if (s.window != [] && i <= last ==> s.window[|s.window| - 1].header.hash == headers[i].prev)
               && LinkedReads(headers, i, last) then Running else InvalidChain
    decreases last + 1 - i
  {
    if i <= last && (s.window != [] ==> s.window[|s.window| - 1].header.hash == headers[i].prev) {
      var next := LastN(s.window + [Block(i, headers[i])], s.cap);
      assert next[|next| - 1] == Block(i, headers[i]);
      CacheHalts(s.(window := next), i + 1, last, headers);
    }
  }

  /**
    A bootstrap whose reads all succeed panics over its chain exactly when the headers it read do
    not link up: at the confirmed tip, inside the confirmed range, or inside the unconfirmed range.
    The seam between the two ranges is not checked.
   */
  lemma BootstrapPanicsIff(s: State, best: nat, headers: map<nat, Header>)
    requires s.halt.Running? && s.cap > 0 && s.k <= best < U32
    requires forall h :: 0 <= h <= best ==> h in headers
    ensures var first, last := FirstUnconfirmed(s), best - s.k;
            Bootstrapped(s, Some(best), headers).halt ==
            if && (s.tip.Some? && first <= last ==> s.tip.value.header.hash == headers[first].prev)
               && LinkedReads(headers, first, last) && LinkedReads(headers, last + 1, best)
            then Running else InvalidChain
  {
    var first, last := FirstUnconfirmed(s), best - s.k;
    assert BestConfirmed(best, s.k) == last;
    ConfirmHalts(s.(window := []), first, last, headers);
    var s1 := ConfirmFrom(s.(window := []), first, last, headers);
    if s1.halt.Running? {
      CacheHalts(s1, last + 1, best, headers);
    }
  }

  /**
    Hence the contract must forbid reorgs while a bootstrap is reading, even far above the
    confirmed tip: here height 2 is read before and height 3 after a reorg of height 2.
   */
  lemma ReorgDuringBootstrapPanics()
    ensures var before := [Header(10, 0), Header(11, 10), Header(12, 11)];
            var after := [Header(10, 0), Header(11, 10), Header(22, 11), Header(23, 22)];
            var s := Bootstrapped(Fresh(0, 2, 10), Some(2), map[0 := before[0], 1 := before[1], 2 := before[2]]);
            && s.halt.Running? && Settled(s) == 1 && before[..1] == after[..1]
            && Bootstrapped(s, Some(3), map[0 := after[0], 1 := after[1], 2 := before[2], 3 := after[3]]).halt
               == InvalidChain
  {
    var first := map[0 := Header(10, 0), 1 := Header(11, 10), 2 := Header(12, 11)];
    BootstrapPanicsIff(Fresh(0, 2, 10), 2, first);
    var s0 := Fresh(0, 2, 10);
    assert ConfirmFrom(s0, 0, 0, first) == Emit(s0, [Block(0, Header(10, 0))]);
    CacheFromKeeps(Emit(s0, [Block(0, Header(10, 0))]), 1, 2, first);
    var s := Bootstrapped(s0, Some(2), first);
    var second := map[0 := Header(10, 0), 1 := Header(11, 10), 2 := Header(12, 11), 3 := Header(23, 22)];
    BootstrapPanicsIff(s, 3, second);
    assert second[3].prev != second[2].hash;
  }

  lemma {:induction false} CacheFromKeeps(s: State, i: nat, last: nat, headers: map<nat, Header>)
    ensures var t := CacheFrom(s, i, last, headers); t.(window := s.window, halt := s.halt) == s
    decreases last + 1 - i
  {
    if i <= last && i in headers {
      CacheFromKeeps(s.(window := LastN(s.window + [Block(i, headers[i])], s.cap)), i + 1, last, headers);
    }
  }

  lemma ChainReadsLink(c: seq<Header>, from: nat, to: nat, w: iset<Block>)
    requires IsChain(c, w) && to < |c|
    ensures LinkedReads(AllHeaders(c), from, to)
  {
  }

  lemma FirstBootstrapRuns(base: nat, k: nat, cap: nat, c: seq<Header>, w: iset<Block>)
    requires k < cap && IsChain(c, w) && k < |c|
    ensures Bootstrapped(Fresh(base, k, cap), Some(|c| - 1), AllHeaders(c)).halt.Running?
  {
    ChainReadsLink(c, base, |c| - 1 - k, w);
    ChainReadsLink(c, |c| - k, |c| - 1, w);
    BootstrapPanicsIff(Fresh(base, k, cap), |c| - 1, AllHeaders(c));
  }

  /** The first bootstrap fills the window, and confirms something exactly when the base is k-deep. */
  lemma FirstBootstrap(base: nat, k: nat, cap: nat, c: seq<Header>, w: iset<Block>)
    requires k < cap && IsChain(c, w) && k < |c|
    ensures var s := Bootstrapped(Fresh(base, k, cap), Some(|c| - 1), AllHeaders(c));
            var last := |c| - 1 - k;
            && s.halt.Running? && s.k == k && s.cap == cap
            && s.window == Canonical(c, last + 1, |c|)
            && s.tip == if base <= last then Some(Block(last, c[last])) else None
  {
    var headers := AllHeaders(c);
    var s0, last := Fresh(base, k, cap), |c| - 1 - k;
    FirstBootstrapRuns(base, k, cap, c, w);
    if base <= last {
      BootRuns(s0, headers, c, w);
    } else {
      assert BestConfirmed(|c| - 1, k) == last;
      assert ConfirmFrom(s0, base, last, headers) == s0;
      assert Canonical(c, last + 1, last + 1) == [];
      CacheFills(s0, last + 1, last + 1, headers, c, w);
    }
  }

  /**
    A scanner started on a base that is not yet k-deep confirms nothing, and the next block
    dereferences a nil confirmed tip. It survives its first notification exactly when base + k <= best.
   */
  lemma FirstBootstrapNeedsDepth(base: nat, k: nat, cap: nat, c: seq<Header>, hash: Hash, w: iset<Block>)
    requires 0 < k < cap && IsChain(c, w) && k < |c|
    ensures var s := Bootstrapped(Fresh(base, k, cap), Some(|c| - 1), AllHeaders(c));
            Notified(s, |c|, Header(hash, c[|c| - 1].hash), Some(|c|)).halt ==
            if base + k <= |c| - 1 then Running else NilTip
  {
    FirstBootstrap(base, k, cap, c, w);
    var s := Bootstrapped(Fresh(base, k, cap), Some(|c| - 1), AllHeaders(c));
    var win := s.window + [Block(|c|, Header(hash, c[|c| - 1].hash))];
    assert s.window[k - 1] == Block(|c| - 1, c[|c| - 1]);
    assert LastN(win, cap) == win && win[..1][0] == Block(|c| - k, c[|c| - k]);
  }

  /** When the chain is at least k high, a bootstrap emits only blocks that are k-deep. */
  lemma BootstrapEmitsOnlyDeepBlocks(s: State, best: nat, headers: map<nat, Header>)
    requires s.k <= best < U32
    ensures var t := Bootstrapped(s, Some(best), headers);
            && |s.emitted| <= |t.emitted|
            && forall b :: b in NewlyEmitted(s, t) ==> b.height + s.k <= best
  {
    var last := best - s.k;
    assert BestConfirmed(best, s.k) == last;
    var s0 := s.(window := []);
    ConfirmEmitsUpTo(s0, FirstUnconfirmed(s), last, headers);
    CacheFromKeeps(ConfirmFrom(s0, FirstUnconfirmed(s), last, headers), last + 1, best, headers);
  }

  lemma {:induction false} ConfirmEmitsUpTo(s: State, i: nat, last: nat, headers: map<nat, Header>)
    ensures var t := ConfirmFrom(s, i, last, headers);
            && |s.emitted| <= |t.emitted| && t.emitted[..|s.emitted|] == s.emitted
            && forall b :: b in NewlyEmitted(s, t) ==> b.height <= last
    decreases last + 1 - i
  {
    if i <= last && i in headers && (s.tip.Some? ==> s.tip.value.header.hash == headers[i].prev) {
      var s', t := Emit(s, [Block(i, headers[i])]), ConfirmFrom(s, i, last, headers);
      ConfirmEmitsUpTo(s', i + 1, last, headers);
      assert t.emitted[|s.emitted|] == t.emitted[..|s'.emitted|][|s.emitted|] == Block(i, headers[i]);
      assert NewlyEmitted(s, t) == [Block(i, headers[i])] + NewlyEmitted(s', t);
      assert t.emitted[..|s.emitted|] == t.emitted[..|s'.emitted|][..|s.emitted|];
    }
  }

  /**
    When it is not, the uint32 subtraction wraps: the bootstrap emits the whole chain from the
    base, its unconfirmed tip included, and then halts on the first height that does not exist.
   */
  lemma ShortChainIsEmittedWhole(base: nat, k: nat, cap: nat, c: seq<Header>, w: iset<Block>)
    requires IsChain(c, w) && |c| <= k < U32 && base < |c|
    ensures var t := Bootstrapped(Fresh(base, k, cap), Some(|c| - 1), AllHeaders(c));
            t.emitted == Canonical(c, base, |c|) && t.halt.RpcFailure?
  {
    var headers := AllHeaders(c);
    var last := BestConfirmed(|c| - 1, k);
    assert last == |c| - 1 - k + U32;
    assert Canonical(c, base, base) == [];
    WrappedConfirm(Fresh(base, k, cap), base, last, headers, c, w);
  }

  lemma {:induction false} WrappedConfirm(
    s: State, i: nat, last: nat, headers: map<nat, Header>, c: seq<Header>, w: iset<Block>
  )
    requires IsChain(c, w) && s.base <= i <= |c| <= last
    requires headers == AllHeaders(c)
    requires s.tip.Some? ==> i > 0 && s.tip.value == Block(i - 1, c[i - 1])
    requires s.emitted == Canonical(c, s.base, i)
    ensures ConfirmFrom(s, i, last, headers).emitted == Canonical(c, s.base, |c|)
    ensures ConfirmFrom(s, i, last, headers).halt.RpcFailure?
    decreases |c| - i
  {
    if i < |c| {
      CanonicalSplit(c, s.base, i, i + 1);
      assert Canonical(c, i, i + 1) == [Block(i, c[i])];
      WrappedConfirm(Emit(s, [Block(i, headers[i])]), i + 1, last, headers, c, w);
    }
  }

  // ---- The scanner itself ----

  /** What one turn of the event loop does: the notification, and a bootstrap if that failed. */
  function EpochEvents(
    s: State, height: nat, header: Header, fetched: Option<nat>, best: Option<nat>, headers: map<nat, Header>
  ): seq<Event>
  {
    if NeedsBootstrap(s, height, header) then [Notify(height, header, fetched), Boot(best, headers)]
    else [Notify(height, header, fetched)]
  }

  /** A notification at or below the highest cached block is skipped, without a bootstrap. */
  lemma OldNotificationIsSkipped(
    s: State, height: nat, header: Header, fetched: Option<nat>, best: Option<nat>, headers: map<nat, Header>
  )
    requires s.halt.Running? && s.window != [] && height <= s.window[|s.window| - 1].height
    ensures Run(s, EpochEvents(s, height, header, fetched, best, headers)) == s
  {
    RunOfTwo(s, Notify(height, header, fetched), Boot(best, headers));
  }

  /** A notification on top of the cached tip halts on a failed fetch alone, if the window is in order. */
  lemma TakenNeedsFetch(s: State, c: seq<Header>, height: nat, header: Header, w: iset<Block>)
    requires Good(s, c, w) && s.halt.Running? && s.window != [] && Block(height, header) in w
    requires height == s.window[|s.window| - 1].height + 1 && header.prev == s.window[|s.window| - 1].header.hash
    ensures Notified(s, height, header, None).halt.RpcFailure?
    ensures Notified(s, height, header, Some(height)).halt.Running?
    ensures SeenTip(Notified(s, height, header, Some(height))) == height
  {
    TakenShifts(s, c, height, header, w);
  }

  /** A bootstrap whose reads of the chain all succeed ends at its best block. */
  lemma BootReachesTip(s: State, c: seq<Header>, c': seq<Header>, w: iset<Block>)
    requires Good(s, c, w) && s.halt.Running? && c' != []
    requires Legal(s, c, Boot(Some(|c'| - 1), AllHeaders(c')), c', w)
    ensures var t := Bootstrapped(s, Some(|c'| - 1), AllHeaders(c')); t.halt.Running? && SeenTip(t) == |c'| - 1
  {
    var first, best := FirstUnconfirmed(s), |c'| - 1;
    BootIsGood(s, c, Some(best), AllHeaders(c'), c', w);
    DeliveredTransfer(s, c, c');
    ChainReadsLink(c', first, best - s.k, w);
    ChainReadsLink(c', best - s.k + 1, best, w);
    BootstrapPanicsIff(s, best, AllHeaders(c'));
  }

  /**
    When the best block of the chain is notified and all calls succeed, the turn ends with it as the
    highest block seen, whatever reorgs came before; so everything k-deep below it is delivered.
   */
  lemma EpochReachesTip(s: State, c: seq<Header>, c': seq<Header>, w: iset<Block>)
    requires Good(s, c, w) && s.halt.Running? && c' != []
    requires Legal(s, c, Boot(Some(|c'| - 1), AllHeaders(c')), c', w)
    ensures var best := |c'| - 1;
            var t := Run(s, EpochEvents(s, best, c'[best], Some(best), Some(best), AllHeaders(c')));
            t.halt.Running? && SeenTip(t) == best
  {
    var best := |c'| - 1;
    RunOfTwo(s, Notify(best, c'[best], Some(best)), Boot(Some(best), AllHeaders(c')));
    if NeedsBootstrap(s, best, c'[best]) {
      BootReachesTip(s, c, c', w);
    } else if TooEarly(s, best) {
      SeenTipIsTop(s, c, w);
    } else {
      assert Block(best, c'[best]) in w;
      TakenNeedsFetch(s, c, best, c'[best], w);
    }
  }

  lemma CacheFromStep(s: State, i: nat, last: nat, headers: map<nat, Header>)
    requires i <= last && i in headers
    requires s.window != [] ==> s.window[|s.window| - 1].header.hash == headers[i].prev
    ensures CacheFrom(s, i, last, headers) ==
            CacheFrom(s.(window := LastN(s.window + [Block(i, headers[i])], s.cap)), i + 1, last, headers)
  {
  }

  lemma RunOfTwo(s: State, e: Event, e': Event)
    ensures Run(s, [e]) == Step(s, e)
    ensures Run(s, [e, e']) == Step(Step(s, e), e')
  {
    assert [e][..0] == [] && [e, e'][..1] == [e];
  }

  class Scanner {
    var baseHeight: nat
    var k: nat
    var confirmedTip: Option<Block>
    var confirmedBlocks: seq<Block>  // everything sent on confirmedBlocksChan so far
    const unconfirmed: BTCCache
    var halt: Halt

    ghost predicate Valid()
      reads this, unconfirmed
    {
      unconfirmed.Valid() && |unconfirmed.blocks| <= unconfirmed.maxEntries
    }

    ghost function View(): State
      reads this, unconfirmed
    {
      State(baseHeight, k, unconfirmed.maxEntries, confirmedTip, unconfirmed.blocks, confirmedBlocks, halt)
    }

    constructor (base: nat, depth: nat, cacheSize: nat)
      requires cacheSize > 0
      ensures Valid() && View() == Fresh(base, depth, cacheSize) && fresh(unconfirmed)
    {
      baseHeight, k := base, depth;
      confirmedTip, confirmedBlocks := None, [];
      halt := Running;
      unconfirmed := new BTCCache(cacheSize);
    }

    method SendConfirmedBlocks(blocks: seq<Block>)
      modifies this`confirmedTip, this`confirmedBlocks
      ensures View() == Emit(old(View()), blocks)
    {
      var i := 0;
      while i < |blocks|
        invariant 0 <= i <= |blocks|
        invariant View() == Emit(old(View()), blocks[..i])
      {
        confirmedBlocks := confirmedBlocks + [blocks[i]];
        confirmedTip := Some(blocks[i]);
        assert blocks[..i + 1] == blocks[..i] + [blocks[i]];
        i := i + 1;
      }
      assert blocks[..|blocks|] == blocks;
    }

    method Bootstrap(best: Option<nat>, headers: map<nat, Header>)
      requires Valid() && halt.Running?
      modifies this`confirmedTip, this`confirmedBlocks, this`halt, unconfirmed`blocks
      ensures Valid() && View() == Bootstrapped(old(View()), best, headers)
    {
      var first := if confirmedTip.Some? then confirmedTip.value.height + 1 else baseHeight;
      unconfirmed.RemoveAll();
      if best.None? {
        halt := RpcFailure;
        return;
      }
      var bestConfirmed := (best.value - k) % U32;
      ghost var start := View();
      var i := first;
      while i <= bestConfirmed
        invariant Valid() && halt.Running?
        invariant ConfirmFrom(start, first, bestConfirmed, headers) == ConfirmFrom(View(), i, bestConfirmed, headers)
        decreases bestConfirmed + 1 - i
      {
        if i !in headers {
          halt := RpcFailure;
          return;
        }
        var ib := Block(i, headers[i]);
        if confirmedTip.Some? && confirmedTip.value.header.hash != ib.header.prev {
          halt := InvalidChain;
          return;
        }
        SendConfirmedBlocks([ib]);
        i := i + 1;
      }
      CacheUnconfirmed(bestConfirmed + 1, best.value, headers);
    }

    /** The second loop of `Bootstrap`. */
    method CacheUnconfirmed(from: nat, best: nat, headers: map<nat, Header>)
      requires Valid() && halt.Running?
      modifies this`halt, unconfirmed`blocks
      ensures Valid() && View() == CacheFrom(old(View()), from, best, headers)
    {
      ghost var goal := CacheFrom(View(), from, best, headers);
      var i := from;
      while i <= best
        invariant Valid() && halt.Running?
        invariant goal == CacheFrom(View(), i, best, headers)
        decreases best + 1 - i
      {
        ghost var s := View();
        if i !in headers {
          halt := RpcFailure;
          return;
        }
        var linked := CacheOne(Block(i, headers[i]));
        if !linked {
          halt := InvalidChain;
          return;
        }
        CacheFromStep(s, i, best, headers);
        i := i + 1;
      }
    }

    /** Adds a block that follows the cached tip, if there is one. */
    method CacheOne(ib: Block) returns (linked: bool)
      requires Valid()
      modifies unconfirmed`blocks
      ensures Valid()
      ensures var s := old(View());
              && (linked <==> s.window == [] || s.window[|s.window| - 1].header.hash == ib.header.prev)
              && View() == if linked then s.(window := LastN(s.window + [ib], s.cap)) else s
    {
      var tip := unconfirmed.Tip();
      if tip.Some? && tip.value.header.hash != ib.header.prev {
        return false;
      }
      var panicked := unconfirmed.Add(ib);
      linked := true;
    }

    /** `err` tells the event loop to bootstrap again; the state is then untouched. */
    method HandleNewBlock(height: nat, header: Header, fetched: Option<nat>) returns (err: bool)
      requires Valid() && halt.Running?
      modifies this`confirmedTip, this`confirmedBlocks, this`halt, unconfirmed`blocks
      ensures Valid() && View() == Notified(old(View()), height, header, fetched)
      ensures err <==> NeedsBootstrap(old(View()), height, header)
    {
      var tip := unconfirmed.Tip();
      if tip.None? {
        return true;
      }
      if tip.value.height >= height {
        return false;
      }
      if tip.value.height + 1 < height || header.prev != tip.value.header.hash {
        return true;
      }
      err := false;
      if fetched.None? {
        halt := RpcFailure;
        return;
      }
      var panicked := unconfirmed.Add(Block(fetched.value, header));
      ConfirmDeepBlocks();
    }

    /** The end of `handleNewBlock`: emit what is more than k deep. */
    method ConfirmDeepBlocks()
      requires Valid() && halt.Running?
      modifies this`confirmedTip, this`confirmedBlocks, this`halt, unconfirmed`blocks
      ensures Valid() && View() == Confirmed(old(View()))
    {
      if |unconfirmed.blocks| <= k {
        return;
      }
      ghost var full := unconfirmed.blocks;
      var confirmed := unconfirmed.TrimConfirmedBlocks(k);
      assert confirmed == full[..|full| - k] && unconfirmed.blocks == full[|full| - k..];
      if confirmedTip.None? {
        halt := NilTip;
        return;
      }
      if confirmedTip.value.header.hash != confirmed[0].header.prev {
        halt := InvalidChain;
        return;
      }
      SendConfirmedBlocks(confirmed);
    }

    /** One turn of the event loop: handle the notification and bootstrap again if that failed. */
    method OnEpoch(height: nat, header: Header, fetched: Option<nat>, best: Option<nat>, headers: map<nat, Header>)
      requires Valid() && halt.Running?
      modifies this`confirmedTip, this`confirmedBlocks, this`halt, unconfirmed`blocks
      ensures Valid()
      ensures View() == Run(old(View()), EpochEvents(old(View()), height, header, fetched, best, headers))
      ensures var s := old(View()); s.window != [] && height <= s.window[|s.window| - 1].height ==> View() == s
    {
      if View().window != [] && height <= View().window[|View().window| - 1].height {
        OldNotificationIsSkipped(View(), height, header, fetched, best, headers);
      }
      RunOfTwo(View(), Notify(height, header, fetched), Boot(best, headers));
      var err := HandleNewBlock(height, header, fetched);
      if err {
        Bootstrap(best, headers);
      }
    }
  }
}
