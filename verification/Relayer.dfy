/**
  submitter/relayer/relayer.go: submitting a checkpoint as two chained transactions, across wallet
  failures and restarts. Memory is lost in a restart, the store is not. Each poll hands one sealed
  checkpoint to `SendCheckpointToBTC` and, if that returns no error, to
  `MaybeResubmitSecondCheckpointTx`.
 */
module Relayer {
  import opened Wrappers
  import opened FeeBump

  /** `lastSubmittedCheckpoint`; a fresh process has epoch 0 and neither transaction. */
  datatype Memory = Memory(epoch: nat, tx1: Option<TxInfo>, tx2: Option<TxInfo>)

  /** `signedAs` is the content that the signatures in the stored tx2 are for. */
  datatype Stored = Stored(tx1: Tx, tx2: Tx, signedAs: Tx, epoch: nat)

  datatype Pair = Pair(epoch: nat, tx1: Tx, tx2: Tx)

  /**
    A fee bump: the epoch that was offered, the epoch whose tx2 was replaced, from where and with
    which answers the successful attempt started, and the record afterwards.
   */
  datatype Bump = Bump(offered: nat, epoch: nat, start: Bumping, answers: Attempt, now: TxInfo)

  /**
    `offered` is the last epoch offered to this process. `attempts`, `pairs` and `bumps` are logs:
    epochs for which transactions were built, pairs that were built and sent, fee bumps that were
    sent. `sent` is everything that reached the node.
   */
  datatype State = State(
    mem: Memory,
    store: Option<Stored>,
    offered: nat,
    attempts: seq<nat>,
    pairs: seq<Pair>,
    bumps: seq<Bump>,
    sent: Log
  )

  /** What became of looking up a stored transaction, and of sending it again if it is missing. */
  datatype Lookup = Known | LookupFailed | MissingThenSent | MissingThenInChain | MissingThenFailed

  /**
    A funded and signed transaction: what the wallet added to the draft, and, for a first
    transaction that got no change, what it added when asked again.
   */
  datatype Build = Build(funding: Funding, again: Funding, size: nat, fee: nat)

  datatype SendAnswers = SendAnswers(
    storeRead: bool,
    lookup1: Lookup,
    lookup2: Lookup,
    mempool: Mempool,
    size1: Option<nat>,
    size2: Option<nat>,
    encoded: bool,
    build1: Option<Build>,
    delivery1: Delivery,
    build2: Option<Build>,
    delivery2: Delivery,
    stored: bool
  )

  datatype BumpAnswers = BumpAnswers(due: bool, config: Config, attempts: seq<Attempt>, stored: bool)

  datatype Event =
    | Poll(epoch: nat, send: SendAnswers, bump: BumpAnswers)
    | Restart

  const FRESH := Memory(0, None, None)

  function Initial(store: Option<Stored>): State {
    var sent := if store.Some? then map[store.value.tx1 := true, store.value.tx2 := true] else map[];
    State(FRESH, store, 0, [], [], [], sent)
  }

  // ---- Building transactions ----

  /** The data output alone; funding adds inputs and change. */
  function DataDraft(epoch: nat): Tx {
    Tx([], Payload(epoch, 0), [0])
  }

  function ChainedDraft(epoch: nat, prev: Tx): Tx {
    Tx([OutPoint(prev, CHANGE)], Payload(epoch, 1), [0])
  }

  /** `buildDataTx`: a first transaction without change gets a dust output and is funded again. */
  function FirstTx(epoch: nat, b: Build): TxInfo {
    var tx := Fund(DataDraft(epoch), b.funding);
    var withChange := if |tx.outputs| > CHANGE then tx else Fund(tx.(outputs := tx.outputs + [DUST]), b.again);
    TxInfo(withChange, withChange, withChange, b.size, b.fee)
  }

  /** `buildChainedDataTx` */
  function SecondTx(epoch: nat, prev: Tx, b: Build): TxInfo {
    var tx := Fund(ChainedDraft(epoch, prev), b.funding);
    TxInfo(tx, tx, tx, b.size, b.fee)
  }

  /** The transaction has the output that its successor is to spend. */
  predicate HasChange(tx1: Tx) {
    |tx1.outputs| > CHANGE
  }

  predicate Spends(tx2: Tx, tx1: Tx) {
    OutPoint(tx1, CHANGE) in tx2.inputs
  }

  /** Without change from the wallet, an output of 546 is added and funded, with the change of that if there is any. */
  lemma FirstTxHasChange(epoch: nat, b: Build)
    ensures HasChange(FirstTx(epoch, b).tx) && FirstTx(epoch, b).tx.payload == Payload(epoch, 0)
    ensures var tx := FirstTx(epoch, b).tx;
            if b.funding.change.Some? then tx.inputs == b.funding.inputs && tx.outputs == [0, b.funding.change.value]
            else
              && tx.inputs == b.funding.inputs + b.again.inputs
              && tx.outputs == if b.again.change.Some? then [0, b.again.change.value, 546] else [0, 546]
  {
  }

  // ---- SendCheckpointToBTC ----

  predicate ShouldSendComplete(m: Memory, epoch: nat) {
    m.tx1.None? || m.epoch < epoch
  }

  predicate ShouldSendTx2(m: Memory, epoch: nat) {
    (m.tx1.Some? || m.epoch < epoch) && m.tx2.None?
  }

  predicate ResendFails(l: Lookup) {
    l.LookupFailed? || l.MissingThenFailed?
  }

  predicate InStore(s: State, epoch: nat) {
    s.store.Some? && s.store.value.epoch == epoch
  }

  /** The store holds the offered epoch: resend what is missing and restore memory if it is empty. */
  function FromStore(s: State, a: SendAnswers): (State, bool)
    requires s.store.Some?
  {
    if ResendFails(a.lookup1) || ResendFails(a.lookup2) then (s, false)
    else if s.mem.tx2.Some? then (s, true)
    else
      var st := s.store.value;
      var tx1 := FromMempool(st.tx1, st.tx1, a.size1, a.mempool);
      var tx2 := FromMempool(st.tx2, st.signedAs, a.size2, a.mempool);
      if tx1.None? || tx2.None? then (s, false) else (s.(mem := Memory(st.epoch, tx1, tx2)), true)
  }

  /** `btcTxInfoFromStoredTx`: the fee is the mempool's, in BTC. */
  function FromMempool(tx: Tx, signedAs: Tx, size: Option<nat>, mempool: Mempool): Option<TxInfo> {
    if size.None? || tx !in mempool then None
    else Some(TxInfo(tx, tx, signedAs, size.value, Rounded(mempool[tx].fee * 100000000.0)))
  }

  /** Both transactions are out: remember them, and record them if the store accepts the write. */
  function Record(s: State, epoch: nat, tx1: TxInfo, tx2: TxInfo, stored: bool): (State, bool) {
    var s' := s.(mem := Memory(epoch, Some(tx1), Some(tx2)), pairs := s.pairs + [Pair(epoch, tx1.tx, tx2.tx)]);
    if stored then (s'.(store := Some(Stored(tx1.tx, tx2.tx, tx2.signedAs, epoch))), true) else (s', false)
  }

  /** What a broadcast leaves in the log. */
  function Delivered(s: State, tx: Tx, delivery: Delivery): State {
    if delivery.Refused? then s else s.(sent := Logged(s.sent, tx, delivery.Acked?))
  }

  function SendSecond(s: State, epoch: nat, tx1: TxInfo, a: SendAnswers): (State, bool) {
    if a.build2.None? then (s, false)
    else
      var tx2 := SecondTx(epoch, tx1.tx, a.build2.value);
      var s' := Delivered(s, tx2.tx, a.delivery2);
      if !a.delivery2.Acked? then (s', false) else Record(s', epoch, tx1, tx2, a.stored)
  }

  /** Tx1 is cached as soon as it is sent, but the epoch in memory stays. */
  function SendBoth(s: State, epoch: nat, a: SendAnswers): (State, bool) {
    if !a.encoded || a.build1.None? then (s, false)
    else
      var tx1 := FirstTx(epoch, a.build1.value);
      var s' := Delivered(s, tx1.tx, a.delivery1);
      if !a.delivery1.Acked? then (s', false)
      else SendSecond(s'.(mem := s.mem.(tx1 := Some(tx1))), epoch, tx1, a)
  }

  /** The state after `SendCheckpointToBTC`, and whether it returned without error. */
  function Send(s: State, epoch: nat, a: SendAnswers): (State, bool) {
    var complete, second := ShouldSendComplete(s.mem, epoch), ShouldSendTx2(s.mem, epoch);
    if (complete || second) && !a.storeRead then (s, false)
    else if (complete || second) && InStore(s, epoch) then FromStore(s, a)
    else if complete then SendBoth(s.(attempts := s.attempts + [epoch]), epoch, a)
    else if second then
      var s' := s.(attempts := s.attempts + [epoch]);
      if !a.encoded then (s', false) else SendSecond(s', epoch, s.mem.tx1.value, a)
    else (s, true)
  }

  // ---- MaybeResubmitSecondCheckpointTx ----

  predicate MayBump(s: State, epoch: nat, b: BumpAnswers) {
    s.mem.tx1.Some? && s.mem.tx2.Some? && s.mem.epoch <= epoch && b.due
  }

  function BumpOf(s: State): Bumping
    requires s.mem.tx2.Some?
  {
    Bumping(s.mem.tx2.value, None, s.sent)
  }

  predicate SaneBump(s: State, epoch: nat, b: BumpAnswers) {
    MayBump(s, epoch, b) ==> SaneRun(b.config, BumpOf(s), b.attempts)
  }

  /** The record in memory changes in place even when no attempt is sent. */
  function Resubmit(s: State, epoch: nat, b: BumpAnswers): State {
    if !MayBump(s, epoch, b) then s
    else
      var (r, ending) := Retry(b.config, BumpOf(s), b.attempts);
      var s' := s.(mem := s.mem.(tx2 := Some(r.tx2)), sent := r.sent);
      if !ending.Sent? then s'
      else
        var logged := s'.(bumps := s.bumps + [Bump(epoch, s.mem.epoch, ending.start, ending.answers, r.tx2)]);
        if !b.stored then logged
        else logged.(store := Some(Stored(s.mem.tx1.value.tx, r.tx2.tx, r.tx2.signedAs, s.mem.epoch)))
  }

  /** The wallet's answers make sense for the transactions they are about. */
  predicate Sensible(s: State, e: Event) {
    match e
    case Poll(epoch, a, b) => var (s', ok) := Send(s, epoch, a); ok ==> SaneBump(s', epoch, b)
    case Restart => true
  }

  function Step(s: State, e: Event): State {
    match e
    case Restart => s.(mem := FRESH, offered := 0)
    case Poll(epoch, a, b) =>
      var (s', ok) := Send(s, epoch, a);
      (if ok then Resubmit(s', epoch, b) else s').(offered := epoch)
  }

  predicate SensibleRun(s: State, es: seq<Event>) {
    es == [] || (SensibleRun(s, es[..|es| - 1]) && Sensible(Run(s, es[..|es| - 1]), es[|es| - 1]))
  }

  function Run(s: State, es: seq<Event>): State {
    if es == [] then s else Step(Run(s, es[..|es| - 1]), es[|es| - 1])
  }

  // ---- What a submission achieves ----

  /** A stored transaction is known to the node, was taken again, or is mined. */
  predicate Available(l: Lookup) {
    l == Known || l == MissingThenSent || l == MissingThenInChain
  }

  /** The record of a stored transaction, with the fee that the mempool entry gives in BTC. */
  predicate RestoredFrom(t: TxInfo, tx: Tx, signedAs: Tx, size: nat, entry: Entry) {
    && t.txid == tx && t.tx == tx && t.signedAs == signedAs && t.size == size
    && -0.5 <= t.fee as real - 100000000.0 * entry.fee <= 0.5
  }

  /**
    A process without a tx2 in memory that is offered the stored epoch: it succeeds if and only if
    the store can be read, both transactions are available, and both have a size and a mempool
    entry. Memory then holds exactly the stored pair, so that a due bump may follow a restart.
    Otherwise nothing changes.
   */
  lemma RestoresFromStoreIff(s: State, epoch: nat, a: SendAnswers)
    requires s.mem.tx2.None? && InStore(s, epoch)
    ensures var (t, ok) := Send(s, epoch, a);
            var st := s.store.value;
            && (ok <==>
                  && a.storeRead && Available(a.lookup1) && Available(a.lookup2)
                  && a.size1.Some? && a.size2.Some? && st.tx1 in a.mempool && st.tx2 in a.mempool)
            && (!ok ==> t == s)
            && (ok ==>
                  && t == s.(mem := t.mem) && t.mem.epoch == epoch && t.mem.tx1.Some? && t.mem.tx2.Some?
                  && RestoredFrom(t.mem.tx1.value, st.tx1, st.tx1, a.size1.value, a.mempool[st.tx1])
                  && RestoredFrom(t.mem.tx2.value, st.tx2, st.signedAs, a.size2.value, a.mempool[st.tx2])
                  && forall b: BumpAnswers :: MayBump(t, epoch, b) <==> b.due)
  {
  }

  /** With a tx2 in memory the stored epoch only needs its transactions to be available. */
  lemma RevisitsStore(s: State, epoch: nat, a: SendAnswers)
    requires s.mem.tx1.Some? && s.mem.tx2.Some? && InStore(s, epoch)
    ensures var (t, ok) := Send(s, epoch, a);
            && t == s
            && (ok <==> s.mem.epoch >= epoch || (a.storeRead && Available(a.lookup1) && Available(a.lookup2)))
  {
  }

  /**
    An epoch that is not stored is built and sent if memory has no tx1, no tx2 or an older epoch.
    This succeeds if and only if every call does, the write included, and then memory and store hold
    the same new pair of that epoch, tx2 on top of tx1, and both were acknowledged.
   */
  lemma SubmitsNewEpochIff(s: State, epoch: nat, a: SendAnswers)
    requires !InStore(s, epoch) && (s.mem.tx1.None? || s.mem.tx2.None? || s.mem.epoch < epoch)
    ensures var (t, ok) := Send(s, epoch, a);
            var both := s.mem.tx1.None? || s.mem.epoch < epoch;
            && (ok <==>
                  && a.storeRead && a.encoded && (both ==> a.build1.Some? && a.delivery1.Acked?)
                  && a.build2.Some? && a.delivery2.Acked? && a.stored)
            && (ok ==>
                  && t.mem.epoch == epoch && t.mem.tx1.Some? && t.mem.tx2.Some?
                  && var tx1, tx2 := t.mem.tx1.value, t.mem.tx2.value;
                  && t.store == Some(Stored(tx1.tx, tx2.tx, tx2.tx, epoch))
                  && Spends(tx2.tx, tx1.tx) && tx2.tx.payload == Payload(epoch, 1) && tx2.txid == tx2.tx == tx2.signedAs
                  && tx2.tx in t.sent && t.sent[tx2.tx]
                  && (if both then tx1.tx.payload == Payload(epoch, 0) && tx1.tx in t.sent else Some(tx1) == s.mem.tx1))
  {
    if a.build1.Some? {
      FirstTxHasChange(epoch, a.build1.value);
    }
    if a.build2.Some? {
      var f := a.build2.value.funding;
      forall prev: Tx ensures OutPoint(prev, CHANGE) in Fund(ChainedDraft(epoch, prev), f).inputs {
        assert OutPoint(prev, CHANGE) in ChainedDraft(epoch, prev).inputs;
      }
    }
  }

  /** Anything else is already submitted: nothing happens. */
  lemma SubmittedIsLeftAlone(s: State, epoch: nat, a: SendAnswers)
    requires s.mem.tx1.Some? && s.mem.tx2.Some? && s.mem.epoch >= epoch
    ensures Send(s, epoch, a) == (s, true)
  {
  }

  /** Before the resend interval has elapsed, a poll leaves everything as the submission left it. */
  lemma EarlyPollBumpsNothing(s: State, epoch: nat, a: SendAnswers, b: BumpAnswers)
    requires !b.due
    ensures Step(s, Poll(epoch, a, b)) == Send(s, epoch, a).0.(offered := epoch)
  {
  }

  /** A poll bumps if and only if the submission succeeded, a record not above the epoch is due, and a retry is sent. */
  lemma PollBumpsIff(s: State, epoch: nat, a: SendAnswers, b: BumpAnswers)
    ensures var (t, ok) := Send(s, epoch, a);
            Step(s, Poll(epoch, a, b)).bumps != t.bumps <==>
            && ok && t.mem.tx1.Some? && t.mem.tx2.Some? && t.mem.epoch <= epoch && b.due
            && Retry(b.config, BumpOf(t), b.attempts).1.Sent?
  {
  }

  // ---- Crash safety ----

  lemma SendRespectsStore(s: State, epoch: nat, a: SendAnswers, e: nat)
    requires InStore(s, e)
    ensures var t := Send(s, epoch, a).0;
            t.attempts == s.attempts || (t.attempts == s.attempts + [epoch] && epoch != e)
  {
  }

  /**
    Once the store holds an epoch, no poll in any epoch order, no wallet failure and no restart
    builds transactions for it again, as long as the store keeps holding that epoch.
   */
  lemma {:induction false} NoRebuildWhileStored(s: State, es: seq<Event>, e: nat)
    requires forall n :: 0 <= n < |es| ==> InStore(Run(s, es[..n]), e)
    ensures |s.attempts| <= |Run(s, es).attempts|
    ensures forall i :: |s.attempts| <= i < |Run(s, es).attempts| ==> Run(s, es).attempts[i] != e
  {
    if es != [] {
      var before, last := es[..|es| - 1], es[|es| - 1];
      forall n | 0 <= n < |before| ensures InStore(Run(s, before[..n]), e) {
        assert before[..n] == es[..n];
      }
      NoRebuildWhileStored(s, before, e);
      var t := Run(s, before);
      assert before == es[..|es| - 1];
      match last
      case Restart =>
      case Poll(epoch, a, b) => SendRespectsStore(t, epoch, a, e);
    }
  }

  // ---- What memory looks like ----

  /** Holds of every reachable state, with no assumption at all. */
  predicate MemoryShape(m: Memory) {
    && (m.tx2.Some? ==> m.tx1.Some?)
    && (m.tx2.None? ==> m.epoch == 0)
  }

  lemma SendKeepsShape(s: State, epoch: nat, a: SendAnswers)
    requires MemoryShape(s.mem)
    ensures MemoryShape(Send(s, epoch, a).0.mem)
  {
  }

  lemma {:induction false} RunKeepsShape(store: Option<Stored>, es: seq<Event>)
    ensures MemoryShape(Run(Initial(store), es).mem)
  {
    if es != [] {
      RunKeepsShape(store, es[..|es| - 1]);
      match es[|es| - 1]
      case Restart =>
      case Poll(epoch, a, b) => SendKeepsShape(Run(Initial(store), es[..|es| - 1]), epoch, a);
    }
  }

  /** The branch that resends only tx2 after tx1 went out. */
  predicate RetriesOnlyTx2(s: State, epoch: nat, a: SendAnswers) {
    !ShouldSendComplete(s.mem, epoch) && ShouldSendTx2(s.mem, epoch) && a.storeRead && !InStore(s, epoch)
  }

  /**
    That branch is meant to spare tx1 when only tx2 failed. Since tx1 is cached without its epoch,
    in reachable states it is taken for epoch 0 and no other; every later epoch builds tx1 again.
   */
  lemma OnlyEpochZeroSparesTx1(store: Option<Stored>, es: seq<Event>, epoch: nat, a: SendAnswers)
    requires RetriesOnlyTx2(Run(Initial(store), es), epoch, a)
    ensures epoch == 0
  {
    RunKeepsShape(store, es);
  }

  lemma EpochZeroSparesTx1(epoch: nat, a: SendAnswers, b: SendAnswers)
    requires a.storeRead && a.encoded && a.build1.Some? && a.delivery1.Acked? && a.build2.None? && b.storeRead
    ensures var (s, ok) := Send(Initial(None), epoch, a);
            !ok && (RetriesOnlyTx2(s, epoch, b) <==> epoch == 0)
  {
  }

  // ---- The stored pair belongs together ----

  predicate Matches(tx1: Tx, tx2: Tx, epoch: nat) {
    HasChange(tx1) && Spends(tx2, tx1) && tx1.payload == Payload(epoch, 0) && tx2.payload == Payload(epoch, 1)
  }

  /** The transaction carries another epoch than this one. */
  predicate Foreign(tx1: Tx, epoch: nat) {
    tx1.payload.epoch != epoch
  }

  predicate StoreMatches(s: State) {
    s.store.Some? ==> Matches(s.store.value.tx1, s.store.value.tx2, s.store.value.epoch)
  }

  /** A pair that matches unless its tx1 is foreign. */
  predicate AlignedPair(tx1: Tx, tx2: Tx, epoch: nat) {
    && HasChange(tx1) && tx1.payload.part == 0 && tx2.payload == Payload(epoch, 1)
    && (!Foreign(tx1, epoch) ==> Spends(tx2, tx1))
  }

  /** Holds of every reachable state, with no assumption on epochs, writes or answers. */
  predicate Aligned(s: State) {
    && MemoryShape(s.mem)
    && (s.mem.tx1.Some? ==> HasChange(s.mem.tx1.value.tx) && s.mem.tx1.value.tx.payload.part == 0)
    && (s.mem.tx2.Some? ==> AlignedPair(s.mem.tx1.value.tx, s.mem.tx2.value.tx, s.mem.epoch))
    && (s.store.Some? ==> AlignedPair(s.store.value.tx1, s.store.value.tx2, s.store.value.epoch))
  }

  /** The tx2-only retry builds on a foreign tx1, and the pair is delivered and stored. */
  predicate RetryMixes(s: State, epoch: nat, a: SendAnswers) {
    && RetriesOnlyTx2(s, epoch, a) && Foreign(s.mem.tx1.value.tx, epoch)
    && a.encoded && a.build2.Some? && a.delivery2.Acked? && a.stored
  }

  /** A fee bump is sent and stored while memory holds a tx1 that is foreign to its epoch. */
  predicate BumpMixes(s: State, epoch: nat, b: BumpAnswers) {
    && MayBump(s, epoch, b) && Foreign(s.mem.tx1.value.tx, s.mem.epoch)
    && b.stored && Retry(b.config, BumpOf(s), b.attempts).1.Sent?
  }

  predicate Mixes(s: State, e: Event) {
    match e
    case Restart => false
    case Poll(epoch, a, b) =>
      RetryMixes(s, epoch, a) || var (t, ok) := Send(s, epoch, a); ok && BumpMixes(t, epoch, b)
  }

  lemma RecordMatchesIff(s: State, epoch: nat, tx1: TxInfo, tx2: TxInfo, stored: bool)
    requires Aligned(s) && StoreMatches(s) && AlignedPair(tx1.tx, tx2.tx, epoch)
    ensures var t := Record(s, epoch, tx1, tx2, stored).0;
            Aligned(t) && (StoreMatches(t) <==> !(stored && Foreign(tx1.tx, epoch)))
  {
  }

  lemma SecondIsAligned(epoch: nat, tx1: Tx, b: Build)
    requires HasChange(tx1) && tx1.payload.part == 0
    ensures AlignedPair(tx1, SecondTx(epoch, tx1, b).tx, epoch)
  {
    assert OutPoint(tx1, CHANGE) in ChainedDraft(epoch, tx1).inputs;
  }

  lemma SendSecondMatchesIff(s: State, epoch: nat, tx1: TxInfo, a: SendAnswers)
    requires Aligned(s) && StoreMatches(s) && HasChange(tx1.tx) && tx1.tx.payload.part == 0
    ensures var t := SendSecond(s, epoch, tx1, a).0;
            && Aligned(t)
            && (StoreMatches(t) <==> !(a.build2.Some? && a.delivery2.Acked? && a.stored && Foreign(tx1.tx, epoch)))
  {
    if a.build2.Some? {
      var tx2 := SecondTx(epoch, tx1.tx, a.build2.value);
      SecondIsAligned(epoch, tx1.tx, a.build2.value);
      RecordMatchesIff(Delivered(s, tx2.tx, a.delivery2), epoch, tx1, tx2, a.stored);
    }
  }

  lemma SendBothMatches(s: State, epoch: nat, a: SendAnswers)
    requires Aligned(s) && StoreMatches(s) && (s.mem.tx2.Some? ==> s.mem.epoch < epoch)
    ensures var t := SendBoth(s, epoch, a).0; Aligned(t) && StoreMatches(t)
  {
    if a.encoded && a.build1.Some? && a.delivery1.Acked? {
      var tx1 := FirstTx(epoch, a.build1.value);
      FirstTxHasChange(epoch, a.build1.value);
      var s' := Delivered(s, tx1.tx, a.delivery1).(mem := s.mem.(tx1 := Some(tx1)));
      assert Aligned(s') && StoreMatches(s');
      SendSecondMatchesIff(s', epoch, tx1, a);
    }
  }

  lemma FromStoreMatches(s: State, a: SendAnswers)
    requires Aligned(s) && StoreMatches(s) && s.store.Some?
    ensures Aligned(FromStore(s, a).0) && StoreMatches(FromStore(s, a).0)
  {
  }

  lemma SendMatchesIff(s: State, epoch: nat, a: SendAnswers)
    requires Aligned(s) && StoreMatches(s)
    ensures var t := Send(s, epoch, a).0; Aligned(t) && (StoreMatches(t) <==> !RetryMixes(s, epoch, a))
  {
    if (ShouldSendComplete(s.mem, epoch) || ShouldSendTx2(s.mem, epoch)) && a.storeRead {
      var s' := s.(attempts := s.attempts + [epoch]);
      assert Aligned(s') && StoreMatches(s');
      if InStore(s, epoch) {
        FromStoreMatches(s, a);
      } else if ShouldSendComplete(s.mem, epoch) {
        SendBothMatches(s', epoch, a);
      } else if a.encoded {
        SendSecondMatchesIff(s', epoch, s.mem.tx1.value, a);
      }
    }
  }

  /** A bump that is stored leaves a matching pair exactly if tx1 is not foreign; one that is not, what there was. */
  lemma ResubmitMatchesIff(s: State, epoch: nat, b: BumpAnswers)
    requires Aligned(s)
    ensures var t := Resubmit(s, epoch, b);
            && Aligned(t)
            && (if MayBump(s, epoch, b) && b.stored && Retry(b.config, BumpOf(s), b.attempts).1.Sent?
                then StoreMatches(t) <==> !Foreign(s.mem.tx1.value.tx, s.mem.epoch)
                else StoreMatches(t) <==> StoreMatches(s))
  {
    if MayBump(s, epoch, b) {
      RetryKeepsPayload(b.config, BumpOf(s), b.attempts);
    }
  }

  /** A retry that mixes leaves the foreign tx1 in memory, so that a bump in the same poll cannot mend it. */
  lemma RetryMixIsKept(s: State, epoch: nat, a: SendAnswers)
    requires Aligned(s) && RetryMixes(s, epoch, a)
    ensures var t := Send(s, epoch, a).0; t.mem.tx1 == s.mem.tx1 && t.mem.epoch == epoch
  {
  }

  /**
    A step from a matching state leaves a matching state if and only if it does not mix pairs, with
    no assumption on the order of epochs, on writes or on any other answer.
   */
  lemma StepMatchesIff(s: State, e: Event)
    requires Aligned(s) && StoreMatches(s)
    ensures Aligned(Step(s, e)) && (StoreMatches(Step(s, e)) <==> !Mixes(s, e))
  {
    match e
    case Restart =>
    case Poll(epoch, a, b) =>
      SendMatchesIff(s, epoch, a);
      var (t, ok) := Send(s, epoch, a);
      if RetryMixes(s, epoch, a) {
        RetryMixIsKept(s, epoch, a);
      }
      if ok {
        ResubmitMatchesIff(t, epoch, b);
      }
  }

  /** Every state on the way has a matching store. */
  ghost predicate AlwaysMatches(s: State, es: seq<Event>) {
    forall n :: 0 <= n <= |es| ==> StoreMatches(Run(s, es[..n]))
  }

  ghost predicate NeverMixes(s: State, es: seq<Event>) {
    forall n :: 0 <= n < |es| ==> !Mixes(Run(s, es[..n]), es[n])
  }

  lemma RunStep(s: State, es: seq<Event>, n: nat)
    requires n < |es|
    ensures Run(s, es[..n + 1]) == Step(Run(s, es[..n]), es[n])
  {
    assert es[..n + 1][..n] == es[..n];
  }

  lemma {:induction false} NoMixUpTo(s: State, es: seq<Event>, n: nat)
    requires Aligned(s) && StoreMatches(s) && n <= |es|
    requires forall m :: 0 <= m < n ==> !Mixes(Run(s, es[..m]), es[m])
    ensures Aligned(Run(s, es[..n])) && StoreMatches(Run(s, es[..n]))
  {
    if n > 0 {
      NoMixUpTo(s, es, n - 1);
      RunStep(s, es, n - 1);
      StepMatchesIff(Run(s, es[..n - 1]), es[n - 1]);
    }
  }

  lemma {:induction false} NoMixAt(s: State, es: seq<Event>, n: nat)
    requires Aligned(s) && AlwaysMatches(s, es) && n <= |es|
    ensures Aligned(Run(s, es[..n])) && (n < |es| ==> !Mixes(Run(s, es[..n]), es[n]))
  {
    if n > 0 {
      NoMixAt(s, es, n - 1);
      RunStep(s, es, n - 1);
      StepMatchesIff(Run(s, es[..n - 1]), es[n - 1]);
    }
    if n < |es| {
      RunStep(s, es, n);
      StepMatchesIff(Run(s, es[..n]), es[n]);
    }
  }

  /** Over whole runs: the stored pair always matches if and only if no step mixes pairs. */
  lemma StoredPairMatchesIff(s: State, es: seq<Event>)
    requires Aligned(s) && StoreMatches(s)
    ensures AlwaysMatches(s, es) <==> NeverMixes(s, es)
  {
    if NeverMixes(s, es) {
      forall n | 0 <= n <= |es| ensures StoreMatches(Run(s, es[..n])) {
        NoMixUpTo(s, es, n);
      }
    }
    if AlwaysMatches(s, es) {
      forall n | 0 <= n < |es| ensures !Mixes(Run(s, es[..n]), es[n]) {
        NoMixAt(s, es, n);
      }
    }
  }

  /**
    The contract on the environment: within a process the offered epochs do not decrease, and a
    store write fails only for an epoch that is not below the stored one.
   */
  predicate Orderly(s: State, e: Event) {
    match e
    case Poll(epoch, a, _) => s.offered <= epoch && (!a.stored && s.store.Some? ==> s.store.value.epoch <= epoch)
    case Restart => true
  }

  /** Memory, store and bumps keep to the order of epochs, given the last one that was offered. */
  predicate CoherentFor(s: State, offered: nat) {
    && MemoryShape(s.mem)
    && s.mem.epoch <= offered
    && (s.mem.tx1.Some? ==> s.mem.tx1.value.tx.payload.epoch <= offered)
    && (s.mem.tx2.Some? ==>
          && (s.mem.epoch < offered || !Foreign(s.mem.tx1.value.tx, s.mem.epoch))
          && (s.store.Some? ==> s.store.value.epoch <= s.mem.epoch))
    && (forall b :: b in s.bumps ==> b.offered == b.epoch)
  }

  predicate Coherent(s: State) {
    CoherentFor(s, s.offered)
  }

  lemma DeliveredKeepsCoherent(s: State, tx: Tx, delivery: Delivery, epoch: nat)
    requires CoherentFor(s, epoch)
    ensures CoherentFor(Delivered(s, tx, delivery), epoch)
  {
  }

  lemma RecordKeepsCoherent(s: State, epoch: nat, tx1: TxInfo, tx2: TxInfo, stored: bool)
    requires CoherentFor(s, epoch) && !Foreign(tx1.tx, epoch)
    requires !stored && s.store.Some? ==> s.store.value.epoch <= epoch
    ensures CoherentFor(Record(s, epoch, tx1, tx2, stored).0, epoch)
  {
  }

  lemma SendSecondKeepsCoherent(s: State, epoch: nat, tx1: TxInfo, a: SendAnswers)
    requires CoherentFor(s, epoch) && !Foreign(tx1.tx, epoch)
    requires !a.stored && s.store.Some? ==> s.store.value.epoch <= epoch
    ensures var (t, ok) := SendSecond(s, epoch, tx1, a);
            CoherentFor(t, epoch) && t.bumps == s.bumps && (ok ==> t.mem.epoch == epoch)
  {
    if a.build2.Some? {
      var tx2 := SecondTx(epoch, tx1.tx, a.build2.value);
      DeliveredKeepsCoherent(s, tx2.tx, a.delivery2, epoch);
      RecordKeepsCoherent(Delivered(s, tx2.tx, a.delivery2), epoch, tx1, tx2, a.stored);
    }
  }

  lemma CachingTx1KeepsCoherent(s: State, epoch: nat, tx1: TxInfo)
    requires CoherentFor(s, epoch) && (s.mem.tx2.Some? ==> s.mem.epoch < epoch) && !Foreign(tx1.tx, epoch)
    ensures CoherentFor(s.(mem := s.mem.(tx1 := Some(tx1))), epoch)
  {
  }

  lemma SendBothKeepsCoherent(s: State, epoch: nat, a: SendAnswers)
    requires CoherentFor(s, epoch) && (s.mem.tx2.Some? ==> s.mem.epoch < epoch)
    requires !a.stored && s.store.Some? ==> s.store.value.epoch <= epoch
    ensures var (t, ok) := SendBoth(s, epoch, a);
            CoherentFor(t, epoch) && t.bumps == s.bumps && (ok ==> t.mem.epoch == epoch)
  {
    if a.encoded && a.build1.Some? {
      var tx1 := FirstTx(epoch, a.build1.value);
      FirstTxHasChange(epoch, a.build1.value);
      DeliveredKeepsCoherent(s, tx1.tx, a.delivery1, epoch);
      if a.delivery1.Acked? {
        var s' := Delivered(s, tx1.tx, a.delivery1);
        CachingTx1KeepsCoherent(s', epoch, tx1);
        SendSecondKeepsCoherent(s'.(mem := s'.mem.(tx1 := Some(tx1))), epoch, tx1, a);
      }
    }
  }

  lemma OfferKeepsCoherent(s: State, epoch: nat)
    requires Coherent(s) && s.offered <= epoch
    ensures CoherentFor(s, epoch)
  {
  }

  lemma AttemptKeepsCoherent(s: State, epoch: nat)
    requires CoherentFor(s, epoch)
    ensures CoherentFor(s.(attempts := s.attempts + [epoch]), epoch)
  {
  }

  lemma FromStoreKeepsCoherent(s: State, epoch: nat, a: SendAnswers)
    requires CoherentFor(s, epoch) && InStore(s, epoch) && StoreMatches(s)
    ensures var (t, ok) := FromStore(s, a);
            CoherentFor(t, epoch) && t.bumps == s.bumps && (ok && t.mem.tx2.Some? ==> epoch <= t.mem.epoch)
  {
  }

  /** With nothing stored for the epoch, both ways of building keep the state coherent. */
  lemma BuildKeepsCoherent(s: State, epoch: nat, a: SendAnswers)
    requires CoherentFor(s, epoch) && !InStore(s, epoch)
    requires !a.stored && s.store.Some? ==> s.store.value.epoch <= epoch
    requires ShouldSendComplete(s.mem, epoch) || ShouldSendTx2(s.mem, epoch)
    ensures var (t, ok) := Send(s, epoch, a);
            CoherentFor(t, epoch) && t.bumps == s.bumps && (ok ==> epoch <= t.mem.epoch)
  {
    var s' := s.(attempts := s.attempts + [epoch]);
    AttemptKeepsCoherent(s, epoch);
    if ShouldSendComplete(s.mem, epoch) {
      SendBothKeepsCoherent(s', epoch, a);
    } else {
      SendSecondKeepsCoherent(s', epoch, s.mem.tx1.value, a);
    }
  }

  /**
    After `SendCheckpointToBTC` the state is coherent for the offered epoch. In particular the
    "already processed" branch is only reached with tx2 empty, and after success memory never
    holds an older epoch's tx2.
   */
  lemma SendKeepsCoherent(s: State, epoch: nat, a: SendAnswers, b: BumpAnswers)
    requires Coherent(s) && StoreMatches(s) && Orderly(s, Poll(epoch, a, b))
    ensures var (t, ok) := Send(s, epoch, a);
            CoherentFor(t, epoch) && t.bumps == s.bumps && (ok && t.mem.tx2.Some? ==> epoch <= t.mem.epoch)
    ensures s.mem.tx2.Some? && InStore(s, epoch) ==>
              !ShouldSendComplete(s.mem, epoch) && !ShouldSendTx2(s.mem, epoch)
  {
    OfferKeepsCoherent(s, epoch);
    if ShouldSendComplete(s.mem, epoch) || ShouldSendTx2(s.mem, epoch) {
      if InStore(s, epoch) {
        FromStoreKeepsCoherent(s, epoch, a);
      } else {
        BuildKeepsCoherent(s, epoch, a);
      }
    }
  }

  lemma ResubmitKeepsCoherent(s: State, epoch: nat, b: BumpAnswers)
    requires CoherentFor(s, epoch) && (s.mem.tx2.Some? ==> epoch <= s.mem.epoch)
    ensures CoherentFor(Resubmit(s, epoch, b), epoch)
  {
    if MayBump(s, epoch, b) {
      RetryKeepsPayload(b.config, BumpOf(s), b.attempts);
    }
  }

  lemma StepKeepsCoherent(s: State, e: Event)
    requires Coherent(s) && StoreMatches(s) && Orderly(s, e)
    ensures Coherent(Step(s, e))
  {
    match e
    case Restart =>
    case Poll(epoch, a, b) =>
      SendKeepsCoherent(s, epoch, a, b);
      var (t, ok) := Send(s, epoch, a);
      if ok {
        ResubmitKeepsCoherent(t, epoch, b);
      }
  }

  ghost predicate OrderlyRun(s: State, es: seq<Event>) {
    forall n :: 0 <= n < |es| ==> Orderly(Run(s, es[..n]), es[n])
  }

  /** An orderly poll never mixes pairs: what it bumps is of the epoch just offered. */
  lemma OrderlyNeverMixes(s: State, e: Event)
    requires Coherent(s) && StoreMatches(s) && Orderly(s, e)
    ensures !Mixes(s, e)
  {
    match e
    case Restart =>
    case Poll(epoch, a, b) =>
      SendKeepsCoherent(s, epoch, a, b);
  }

  /**
    In every state of every orderly run, over all wallet failures, failed writes and restarts, the
    stored tx2 spends output 1 of the stored tx1, which exists, both belong to the stored epoch, and
    a fee bump has only ever replaced the tx2 of the epoch just handed in.
   */
  lemma {:induction false} StoredPairBelongsTogether(store: Option<Stored>, es: seq<Event>)
    requires store.Some? ==> Matches(store.value.tx1, store.value.tx2, store.value.epoch)
    requires OrderlyRun(Initial(store), es)
    ensures var r := Run(Initial(store), es);
            Aligned(r) && Coherent(r) && StoreMatches(r) && forall b :: b in r.bumps ==> b.offered == b.epoch
  {
    if es != [] {
      var before, last := es[..|es| - 1], es[|es| - 1];
      forall n | 0 <= n < |before|
        ensures Orderly(Run(Initial(store), before[..n]), before[n])
      {
        assert before[..n] == es[..n] && before[n] == es[n];
      }
      StoredPairBelongsTogether(store, before);
      var s := Run(Initial(store), before);
      assert Orderly(Run(Initial(store), es[..|es| - 1]), last);
      StepKeepsCoherent(s, last);
      OrderlyNeverMixes(s, last);
      StepMatchesIff(s, last);
    }
  }

  // ---- What fee bumps replace ----

  /** The record in memory and the stored tx2 are transactions that were broadcast, or came out of one. */
  predicate Followed(s: State) {
    && MemoryShape(s.mem)
    && (s.mem.tx2.Some? ==> Tracked(BumpOf(s)) && s.mem.tx2.value.tx.payload == Payload(s.mem.epoch, 1))
    && (s.store.Some? ==>
          && s.store.value.tx2 in s.sent && s.store.value.tx2.inputs != []
          && s.store.value.tx2.payload == Payload(s.store.value.epoch, 1))
  }

  lemma DeliveredKeepsFollowed(s: State, tx: Tx, delivery: Delivery)
    requires Followed(s) && (s.mem.tx2.Some? ==> tx.payload != s.mem.tx2.value.tx.payload)
    ensures Followed(Delivered(s, tx, delivery))
  {
  }

  lemma SendSecondKeepsFollowed(s: State, epoch: nat, tx1: TxInfo, a: SendAnswers)
    requires Followed(s) && (s.mem.tx2.Some? ==> s.mem.epoch < epoch)
    ensures Followed(SendSecond(s, epoch, tx1, a).0)
  {
    if a.build2.Some? {
      var tx2 := SecondTx(epoch, tx1.tx, a.build2.value);
      DeliveredKeepsFollowed(s, tx2.tx, a.delivery2);
    }
  }

  lemma SendBothKeepsFollowed(s: State, epoch: nat, a: SendAnswers)
    requires Followed(s) && (s.mem.tx2.Some? ==> s.mem.epoch < epoch)
    ensures Followed(SendBoth(s, epoch, a).0)
  {
    if a.encoded && a.build1.Some? {
      var tx1 := FirstTx(epoch, a.build1.value);
      FirstTxHasChange(epoch, a.build1.value);
      DeliveredKeepsFollowed(s, tx1.tx, a.delivery1);
      if a.delivery1.Acked? {
        var s' := Delivered(s, tx1.tx, a.delivery1);
        SendSecondKeepsFollowed(s'.(mem := s.mem.(tx1 := Some(tx1))), epoch, tx1, a);
      }
    }
  }

  lemma SendKeepsFollowed(s: State, epoch: nat, a: SendAnswers)
    requires Followed(s)
    ensures Followed(Send(s, epoch, a).0) && Send(s, epoch, a).0.bumps == s.bumps
  {
    if (ShouldSendComplete(s.mem, epoch) || ShouldSendTx2(s.mem, epoch)) && a.storeRead && !InStore(s, epoch) {
      var s' := s.(attempts := s.attempts + [epoch]);
      assert Followed(s');
      if ShouldSendComplete(s.mem, epoch) {
        SendBothKeepsFollowed(s', epoch, a);
      } else if a.encoded {
        SendSecondKeepsFollowed(s', epoch, s.mem.tx1.value, a);
      }
    }
  }

  lemma ResubmitIsChecked(s: State, epoch: nat, b: BumpAnswers)
    requires Followed(s) && SaneBump(s, epoch, b)
    ensures var t := Resubmit(s, epoch, b);
            && Followed(t)
            && (t.bumps != s.bumps ==>
                  exists bump ::
                    && t.bumps == s.bumps + [bump]
                    && Checked(bump.start, bump.answers, bump.now) && ReplacesRecorded(bump.start))
  {
    if MayBump(s, epoch, b) {
      SentWasChecked(b.config, BumpOf(s), b.attempts);
      RetryKeepsPayload(b.config, BumpOf(s), b.attempts);
    }
  }

  ghost predicate AllChecked(bumps: seq<Bump>) {
    forall b :: b in bumps ==> Checked(b.start, b.answers, b.now) && ReplacesRecorded(b.start)
  }

  /**
    Over every run of polls, failures and restarts, in any epoch order: every fee bump that was ever
    sent passed rules 3, 4 and 5 of BIP 125 against the mempool entry of the transaction it replaced,
    which is the one recorded as sent unless the report of a later one was lost.
   */
  lemma {:induction false} EveryBumpWasChecked(store: Option<Stored>, es: seq<Event>)
    requires store.Some? ==> Matches(store.value.tx1, store.value.tx2, store.value.epoch)
    requires SensibleRun(Initial(store), es)
    ensures Followed(Run(Initial(store), es)) && AllChecked(Run(Initial(store), es).bumps)
  {
    if es != [] {
      EveryBumpWasChecked(store, es[..|es| - 1]);
      var s := Run(Initial(store), es[..|es| - 1]);
      match es[|es| - 1]
      case Restart =>
      case Poll(epoch, a, b) =>
        SendKeepsFollowed(s, epoch, a);
        var (t, ok) := Send(s, epoch, a);
        if ok {
          ResubmitIsChecked(t, epoch, b);
        }
    }
  }

  /** Memory holds a tx2 that an attempt changed and that never reached the node. */
  predicate Stuck(s: State) {
    && MemoryShape(s.mem) && s.mem.tx2.Some?
    && s.mem.tx2.value.tx.payload == Payload(s.mem.epoch, 1) && Dirty(BumpOf(s))
  }

  /** A fee bump that changes the record and is not sent leaves the relayer in that state. */
  lemma UnsentBumpGetsStuck(s: State, epoch: nat, b: BumpAnswers)
    requires Followed(s) && SaneBump(s, epoch, b) && NoAckLost(b.attempts)
    requires s.mem.tx2.Some? && Resubmit(s, epoch, b).mem.tx2.value.tx != s.mem.tx2.value.tx
    requires Resubmit(s, epoch, b).bumps == s.bumps
    ensures Stuck(Resubmit(s, epoch, b))
  {
    UnsentChangeIsDirty(b.config, BumpOf(s), b.attempts);
    RetryKeepsPayload(b.config, BumpOf(s), b.attempts);
  }

  lemma SendStaysStuck(s: State, epoch: nat, a: SendAnswers)
    requires Stuck(s)
    ensures var t := Send(s, epoch, a).0;
            && t.bumps == s.bumps && |s.pairs| <= |t.pairs|
            && (|t.pairs| == |s.pairs| ==> Stuck(t))
  {
    if a.build1.Some? {
      FirstTxHasChange(epoch, a.build1.value);
    }
  }

  lemma ResubmitStaysStuck(s: State, epoch: nat, b: BumpAnswers)
    requires Stuck(s) && SaneBump(s, epoch, b)
    ensures var t := Resubmit(s, epoch, b); Stuck(t) && t.bumps == s.bumps && t.pairs == s.pairs
  {
    if MayBump(s, epoch, b) {
      DirtyNeverSends(b.config, BumpOf(s), b.attempts);
      RetryKeepsPayload(b.config, BumpOf(s), b.attempts);
    }
  }

  /**
    From then on, over any polls in any order, no fee bump is sent until a new pair is built or the
    process restarts: the checkpoint in flight keeps the fee it has.
   */
  lemma {:induction false} NoBumpWhileStuck(s: State, es: seq<Event>)
    requires Stuck(s) && SensibleRun(s, es) && Restart !in es
    ensures var r := Run(s, es);
            |s.pairs| <= |r.pairs| && (|r.pairs| == |s.pairs| ==> Stuck(r) && r.bumps == s.bumps)
  {
    if es != [] {
      var e, t := es[|es| - 1], Run(s, es[..|es| - 1]);
      NoBumpWhileStuck(s, es[..|es| - 1]);
      assert e in es;
      PollKeepsPairs(t, e);
      if |t.pairs| == |s.pairs| {
        SendStaysStuck(t, e.epoch, e.send);
        var (u, ok) := Send(t, e.epoch, e.send);
        if ok && |u.pairs| == |t.pairs| {
          ResubmitStaysStuck(u, e.epoch, e.bump);
        }
      }
    }
  }

  lemma PollKeepsPairs(s: State, e: Event)
    requires e.Poll?
    ensures |s.pairs| <= |Send(s, e.epoch, e.send).0.pairs| == |Step(s, e).pairs|
  {
  }

  // ---- Recorded fees ----

  /** The record that a number of bumps leave behind. */
  function RecordAfter(base: TxInfo, bumps: seq<Bump>): TxInfo {
    if bumps == [] then base else bumps[|bumps| - 1].now
  }

  /** The bump starts from the fee and the id in the record, and in place it adds the relay fee. */
  predicate Continues(t: TxInfo, b: Bump) {
    && b.start.tx2.fee == t.fee && b.start.tx2.txid == t.txid
    && (InPlace(b.start.tx2.tx, b.now.tx) ==> b.now.fee >= t.fee + b.answers.minRelayFee)
  }

  /** Each bump continues the record that the ones before it left. */
  predicate ChainedFrom(base: TxInfo, bumps: seq<Bump>) {
    bumps == [] ||
    var before := bumps[..|bumps| - 1];
    ChainedFrom(base, before) && Continues(RecordAfter(base, before), bumps[|bumps| - 1])
  }

  /** The bumps since `s`. */
  function NewBumps(s: State, r: State): seq<Bump>
    requires |s.bumps| <= |r.bumps|
  {
    r.bumps[|s.bumps|..]
  }

  predicate Chained(s: State, r: State) {
    && s.mem.tx2.Some? && r.mem.tx2.Some? && |s.bumps| <= |r.bumps|
    && ChainedFrom(s.mem.tx2.value, NewBumps(s, r))
    && var last := RecordAfter(s.mem.tx2.value, NewBumps(s, r));
       r.mem.tx2.value.fee == last.fee && r.mem.tx2.value.txid == last.txid
  }

  lemma SendKeepsTx2(s: State, epoch: nat, a: SendAnswers)
    requires s.mem.tx2.Some?
    ensures var t := Send(s, epoch, a).0;
            && t.bumps == s.bumps && |s.pairs| <= |t.pairs|
            && (|t.pairs| == |s.pairs| ==> t.mem.tx2 == s.mem.tx2)
  {
  }

  lemma ChainGrows(base: TxInfo, bumps: seq<Bump>, b: Bump)
    requires ChainedFrom(base, bumps) && Continues(RecordAfter(base, bumps), b)
    ensures ChainedFrom(base, bumps + [b]) && RecordAfter(base, bumps + [b]) == b.now
  {
    assert (bumps + [b])[..|bumps|] == bumps;
  }

  lemma ResubmitChains(s: State, r: State, epoch: nat, b: BumpAnswers)
    requires Chained(s, r)
    ensures Chained(s, Resubmit(r, epoch, b)) && Resubmit(r, epoch, b).pairs == r.pairs
  {
    if MayBump(r, epoch, b) {
      RetryRecordsFee(b.config, BumpOf(r), b.attempts);
      var t := Resubmit(r, epoch, b);
      if |t.bumps| > |r.bumps| {
        var last := t.bumps[|r.bumps|];
        assert NewBumps(s, t) == NewBumps(s, r) + [last];
        ChainGrows(s.mem.tx2.value, NewBumps(s, r), last);
      }
    }
  }

  /**
    Over any polls that neither restart nor build a new pair, each bump starts from the fee and the
    id that the one before it recorded, and one in place records at least the relay fee on top.
   */
  lemma {:induction false} SuccessiveBumpsChain(s: State, es: seq<Event>)
    requires s.mem.tx2.Some? && Restart !in es
    ensures var r := Run(s, es); |s.pairs| <= |r.pairs| && (|r.pairs| == |s.pairs| ==> Chained(s, r))
  {
    if es != [] {
      var e, t := es[|es| - 1], Run(s, es[..|es| - 1]);
      SuccessiveBumpsChain(s, es[..|es| - 1]);
      assert e in es;
      PollKeepsPairs(t, e);
      if |t.pairs| == |s.pairs| {
        SendKeepsTx2(t, e.epoch, e.send);
        var (u, ok) := Send(t, e.epoch, e.send);
        if |u.pairs| == |t.pairs| {
          assert Chained(s, u);
          ResubmitChains(s, u, e.epoch, e.bump);
        }
      }
    }
  }

  /** All bumps were in place, at a relay fee of at least this. */
  predicate AllInPlace(bumps: seq<Bump>, minRelay: nat) {
    forall b :: b in bumps ==> InPlace(b.start.tx2.tx, b.now.tx) && b.answers.minRelayFee >= minRelay
  }

  lemma {:induction false} FeeAfter(base: TxInfo, bumps: seq<Bump>, minRelay: nat)
    requires ChainedFrom(base, bumps) && AllInPlace(bumps, minRelay)
    ensures RecordAfter(base, bumps).fee >= base.fee + |bumps| * minRelay
  {
    if bumps != [] {
      var before, last := bumps[..|bumps| - 1], bumps[|bumps| - 1];
      assert last in bumps;
      FeeAfter(base, before, minRelay);
      assert |bumps| * minRelay == |before| * minRelay + minRelay;
    }
  }

  /** So n bumps in place raise the recorded fee by at least n times the minimum relay fee. */
  lemma SuccessiveBumpsRise(s: State, es: seq<Event>, minRelay: nat)
    requires s.mem.tx2.Some? && Restart !in es && |Run(s, es).pairs| == |s.pairs|
    ensures var r := Run(s, es);
            && |s.bumps| <= |r.bumps| && r.mem.tx2.Some?
            && (AllInPlace(NewBumps(s, r), minRelay) ==>
                  r.mem.tx2.value.fee >= s.mem.tx2.value.fee + |NewBumps(s, r)| * minRelay)
  {
    SuccessiveBumpsChain(s, es);
    var bumps := NewBumps(s, Run(s, es));
    if AllInPlace(bumps, minRelay) {
      FeeAfter(s.mem.tx2.value, bumps, minRelay);
    }
  }

  // ---- Signatures of the stored tx2 ----

  /** The stored tx2 carries its own signatures, so that a node would take it. */
  predicate StoredSigned(s: State) {
    s.store.Some? && s.store.value.signedAs == s.store.value.tx2
  }

  predicate Witnessed(s: State) {
    && (s.mem.tx2.Some? ==> s.mem.tx2.value.fee >= 0 && OldWitness(s.mem.tx2.value))
    && (s.store.Some? ==>
          s.store.value.tx2 == s.store.value.signedAs || Later(s.store.value.tx2, s.store.value.signedAs))
  }

  lemma SendSecondStoresSigned(s: State, epoch: nat, tx1: TxInfo, a: SendAnswers)
    requires Witnessed(s)
    ensures var t := SendSecond(s, epoch, tx1, a).0; Witnessed(t) && (t.store == s.store || StoredSigned(t))
  {
  }

  lemma SendBothStoresSigned(s: State, epoch: nat, a: SendAnswers)
    requires Witnessed(s)
    ensures var t := SendBoth(s, epoch, a).0; Witnessed(t) && (t.store == s.store || StoredSigned(t))
  {
    if a.encoded && a.build1.Some? && a.delivery1.Acked? {
      var tx1 := FirstTx(epoch, a.build1.value);
      var s' := Delivered(s, tx1.tx, a.delivery1).(mem := s.mem.(tx1 := Some(tx1)));
      SendSecondStoresSigned(s', epoch, tx1, a);
    }
  }

  /** A submission leaves the stored pair alone or writes one that is signed. */
  lemma SendStoresSigned(s: State, epoch: nat, a: SendAnswers)
    requires Witnessed(s)
    ensures var t := Send(s, epoch, a).0; Witnessed(t) && (t.store == s.store || StoredSigned(t))
  {
    var s' := s.(attempts := s.attempts + [epoch]);
    if ShouldSendComplete(s.mem, epoch) {
      SendBothStoresSigned(s', epoch, a);
    } else if ShouldSendTx2(s.mem, epoch) {
      SendSecondStoresSigned(s', epoch, s.mem.tx1.value, a);
    }
  }

  /**
    A bump that is stored writes the signatures that were in memory. They are those of the new tx2
    if and only if they were those of the old one and the bump has not changed it.
   */
  lemma BumpStoresSignedIff(s: State, epoch: nat, b: BumpAnswers)
    requires Witnessed(s) && SaneBump(s, epoch, b)
    ensures var t := Resubmit(s, epoch, b);
            && Witnessed(t)
            && (MayBump(s, epoch, b) && b.stored && Retry(b.config, BumpOf(s), b.attempts).1.Sent? ==>
                  var was, now := s.mem.tx2.value, t.mem.tx2.value;
                  StoredSigned(t) <==> was.signedAs == was.tx && now.tx == was.tx)
  {
    if MayBump(s, epoch, b) {
      RetryWitnessIff(b.config, BumpOf(s), b.attempts);
    }
  }

  lemma {:induction false} RunIsWitnessed(store: Option<Stored>, es: seq<Event>)
    requires store.Some? ==> store.value.tx2 == store.value.signedAs
    requires SensibleRun(Initial(store), es)
    ensures Witnessed(Run(Initial(store), es))
  {
    if es != [] {
      RunIsWitnessed(store, es[..|es| - 1]);
      var s := Run(Initial(store), es[..|es| - 1]);
      match es[|es| - 1]
      case Restart =>
      case Poll(epoch, a, b) =>
        SendStoresSigned(s, epoch, a);
        var (t, ok) := Send(s, epoch, a);
        if ok {
          BumpStoresSignedIff(t, epoch, b);
        }
    }
  }

  /** The node does not take a transaction with the signatures of another one. */
  predicate NodeVerifies(s: State, a: SendAnswers) {
    s.store.Some? && a.lookup2.MissingThenSent? ==> StoredSigned(s)
  }

  /**
    So after a restart a bumped tx2 that the node has dropped cannot be sent again: as long as it is
    missing, offering its epoch is an error and changes nothing.
   */
  lemma UnsignedIsNotResent(s: State, a: SendAnswers)
    requires s.store.Some? && !StoredSigned(s) && s.mem == FRESH && NodeVerifies(s, a)
    requires !a.lookup2.Known? && !a.lookup2.MissingThenInChain?
    ensures Send(s, s.store.value.epoch, a) == (s, false)
  {
  }

  // ---- At most one pair per epoch ----

  /** Offered epochs never decrease, not even across restarts, and store writes succeed. */
  predicate Steady(last: nat, e: Event) {
    match e
    case Poll(epoch, a, _) => last <= epoch && a.stored
    case Restart => true
  }

  /** The last offered epoch, or `first` if there is none. */
  function LastEpoch(es: seq<Event>, first: nat): nat {
    if es == [] then first
    else match es[|es| - 1]
      case Poll(epoch, _, _) => epoch
      case Restart => LastEpoch(es[..|es| - 1], first)
  }

  predicate Increasing(ps: seq<Pair>) {
    forall i, j :: 0 <= i < j < |ps| ==> ps[i].epoch < ps[j].epoch
  }

  /** The last pair is in the store, so its epoch cannot be built again. */
  predicate LastIsStored(s: State, last: nat) {
    && MemoryShape(s.mem) && Increasing(s.pairs)
    && (s.store.Some? ==> s.store.value.epoch <= last)
    && (s.mem.tx2.Some? ==> s.store.Some? && s.store.value.epoch == s.mem.epoch)
    && (s.pairs != [] ==> s.store.Some? && s.pairs[|s.pairs| - 1].epoch <= s.store.value.epoch)
  }

  lemma RecordBuildsOnce(s: State, last: nat, epoch: nat, tx1: TxInfo, tx2: TxInfo)
    requires LastIsStored(s, last) && last <= epoch && !InStore(s, epoch)
    ensures LastIsStored(Record(s, epoch, tx1, tx2, true).0, epoch)
  {
    var ps, p := s.pairs, Pair(epoch, tx1.tx, tx2.tx);
    assert ps != [] ==> ps[|ps| - 1].epoch < epoch;
    assert Increasing(ps + [p]);
  }

  lemma SendSecondBuildsOnce(s: State, epoch: nat, tx1: TxInfo, a: SendAnswers, last: nat)
    requires LastIsStored(s, last) && last <= epoch && a.stored && !InStore(s, epoch)
    ensures LastIsStored(SendSecond(s, epoch, tx1, a).0, epoch)
  {
    if a.build2.Some? {
      var tx2 := SecondTx(epoch, tx1.tx, a.build2.value);
      SendingBuildsNothing(s, tx2, a.delivery2, last);
      RecordBuildsOnce(Delivered(s, tx2.tx, a.delivery2), last, epoch, tx1, tx2);
    }
  }

  lemma SendingBuildsNothing(s: State, tx: TxInfo, delivery: Delivery, last: nat)
    requires LastIsStored(s, last)
    ensures LastIsStored(Delivered(s, tx.tx, delivery), last)
    ensures LastIsStored(Delivered(s, tx.tx, delivery).(mem := s.mem.(tx1 := Some(tx))), last)
  {
  }

  lemma SendBothBuildsOnce(s: State, epoch: nat, a: SendAnswers, last: nat)
    requires LastIsStored(s, last) && last <= epoch && a.stored && !InStore(s, epoch)
    ensures LastIsStored(SendBoth(s, epoch, a).0, epoch)
  {
    if a.encoded && a.build1.Some? {
      var tx1 := FirstTx(epoch, a.build1.value);
      SendingBuildsNothing(s, tx1, a.delivery1, last);
      if a.delivery1.Acked? {
        SendSecondBuildsOnce(Delivered(s, tx1.tx, a.delivery1).(mem := s.mem.(tx1 := Some(tx1))), epoch, tx1, a, last);
      }
    }
  }

  lemma FromStoreBuildsOnce(s: State, epoch: nat, a: SendAnswers, last: nat)
    requires LastIsStored(s, last) && last <= epoch && InStore(s, epoch)
    ensures LastIsStored(FromStore(s, a).0, epoch)
  {
  }

  lemma SendBuildsOnce(s: State, epoch: nat, a: SendAnswers, last: nat)
    requires LastIsStored(s, last) && last <= epoch && a.stored
    ensures LastIsStored(Send(s, epoch, a).0, epoch)
  {
    if (ShouldSendComplete(s.mem, epoch) || ShouldSendTx2(s.mem, epoch)) && a.storeRead {
      var s' := s.(attempts := s.attempts + [epoch]);
      assert LastIsStored(s', last);
      if InStore(s, epoch) {
        FromStoreBuildsOnce(s, epoch, a, last);
      } else if ShouldSendComplete(s.mem, epoch) {
        SendBothBuildsOnce(s', epoch, a, last);
      } else {
        SendSecondBuildsOnce(s', epoch, s.mem.tx1.value, a, last);
      }
    }
  }

  lemma ResubmitBuildsOnce(s: State, epoch: nat, b: BumpAnswers)
    requires LastIsStored(s, epoch)
    ensures LastIsStored(Resubmit(s, epoch, b), epoch)
  {
  }

  lemma StepBuildsOnce(s: State, e: Event, last: nat)
    requires LastIsStored(s, last) && Steady(last, e)
    ensures LastIsStored(Step(s, e), match e case Poll(epoch, _, _) => epoch case Restart => last)
  {
    match e
    case Restart =>
    case Poll(epoch, a, b) =>
      SendBuildsOnce(s, epoch, a, last);
      var (t, ok) := Send(s, epoch, a);
      if ok {
        ResubmitBuildsOnce(t, epoch, b);
      }
  }

  ghost predicate SteadyRun(es: seq<Event>, first: nat) {
    forall n :: 0 <= n < |es| ==> Steady(LastEpoch(es[..n], first), es[n])
  }

  /**
    In every steady run, from any store whose epoch is not above the first one offered, the pairs
    that were built and sent have strictly increasing epochs: once both transactions of a checkpoint
    were reported as sent, it is never submitted again, whatever the wallet does and however often
    it restarts.
   */
  lemma {:induction false} OnePairPerEpoch(store: Option<Stored>, es: seq<Event>, first: nat)
    requires SteadyRun(es, first) && (store.Some? ==> store.value.epoch <= first)
    ensures LastIsStored(Run(Initial(store), es), LastEpoch(es, first))
    ensures Increasing(Run(Initial(store), es).pairs)
  {
    if es != [] {
      var before := es[..|es| - 1];
      forall n | 0 <= n < |before| ensures Steady(LastEpoch(before[..n], first), before[n]) {
        assert before[..n] == es[..n] && before[n] == es[n];
      }
      OnePairPerEpoch(store, before, first);
      assert Steady(LastEpoch(es[..|es| - 1], first), es[|es| - 1]);
      StepBuildsOnce(Run(Initial(store), before), es[|es| - 1], LastEpoch(before, first));
    }
  }

  // ---- Why the contract is needed ----

  /**
    Rising epochs alone are not enough. After a failed write for an epoch below the stored one and a
    failed tx2 for the next, the stored epoch is offered: memory then holds tx1 and tx2 of two older
    epochs, the "already processed" branch is reached with tx2 set, and a bump that is sent stores the mix.
   */
  lemma FailedWriteOfOlderEpoch(
    stored: Stored, epoch: nat, next: nat, a: SendAnswers, b: SendAnswers, c: SendAnswers, bump: BumpAnswers
  )
    requires epoch < next < stored.epoch
    requires a.storeRead && a.encoded && a.build1.Some? && a.build2.Some? && !a.stored
    requires a.delivery1.Acked? && a.delivery2.Acked?
    requires b.storeRead && b.encoded && b.build1.Some? && b.delivery1.Acked? && b.build2.None?
    requires c.storeRead && !ResendFails(c.lookup1) && !ResendFails(c.lookup2) && bump.due
    ensures var (s, _) := Send(Initial(Some(stored)), epoch, a);
            var (t, _) := Send(s, next, b);
            var (u, ok) := Send(t, stored.epoch, c);
            && ok && MayBump(u, stored.epoch, bump)
            && u.mem.tx1.value.tx.payload.epoch == next && u.mem.tx2.value.tx.payload.epoch == epoch
            && (bump.stored && Retry(bump.config, BumpOf(u), bump.attempts).1.Sent? ==>
                  !StoreMatches(Resubmit(u, stored.epoch, bump)))
  {
  }

  /**
    Nor are successful writes. Offering a smaller epoch after a failed tx2 mixes two checkpoints:
    memory then holds the tx1 of the larger epoch and the tx2 of the smaller one, and a bump that is
    sent stores them as one pair. So each half of `Orderly` is needed without the other.
   */
  lemma DecreasingEpochsMixPairs(
    epoch: nat, higher: nat, a: SendAnswers, b: SendAnswers, c: SendAnswers, bump: BumpAnswers
  )
    requires epoch < higher
    requires a.storeRead && a.encoded && a.build1.Some? && a.build2.Some? && a.stored
    requires a.delivery1.Acked? && a.delivery2.Acked?
    requires b.storeRead && b.encoded && b.build1.Some? && b.delivery1.Acked? && b.build2.None? && bump.due
    ensures var (s, _) := Send(Initial(None), epoch, a);
            var (t, _) := Send(s, higher, b);
            var (u, ok) := Send(t, epoch, c);
            && ok && MayBump(u, epoch, bump)
            && u.mem.tx1.value.tx.payload.epoch == higher && u.mem.tx2.value.tx.payload.epoch == epoch
            && (bump.stored && Retry(bump.config, BumpOf(u), bump.attempts).1.Sent? ==>
                  !StoreMatches(Resubmit(u, epoch, bump)))
  {
  }

  // ---- Runs that store pairs that do not match ----

  /** A wallet that adds a change of 10000 and pays 1000. */
  const BUILD := Build(Funding([], Some(10000), None), Funding([], None, None), 1, 1000)

  const NO_BUMP := BumpAnswers(false, Config(1.0, 0.0, 0.0, 0.0), [], false)

  /** Everything works, except building tx2 or storing the pair if so wanted. */
  function Answers(builds2: bool, stored: bool): SendAnswers {
    SendAnswers(true, Known, Known, map[], None, None, true, Some(BUILD), Acked,
                if builds2 then Some(BUILD) else None, Acked, stored)
  }

  function Tx1Of(epoch: nat): Tx {
    FirstTx(epoch, BUILD).tx
  }

  function Tx2Of(epoch: nat): TxInfo {
    SecondTx(epoch, Tx1Of(epoch), BUILD)
  }

  /** A bump of the tx2 of an epoch that is sent and stored. */
  function SentBump(epoch: nat): BumpAnswers {
    var pool: Mempool := map[Tx2Of(epoch).tx := Entry(0.0, 1, 0.0, 1)];
    var a := Attempt(0, pool, None, 0, NotInChain, None, pool, Some(0.0), true, Acked);
    BumpAnswers(true, Config(1.0, 0.0, 0.0, 0.0), [a], true)
  }

  lemma ShapeOfTx2(epoch: nat)
    ensures Tx1Of(epoch) == Tx([], Payload(epoch, 0), [0, 10000])
    ensures Tx2Of(epoch).tx == Tx([OutPoint(Tx1Of(epoch), CHANGE)], Payload(epoch, 1), [0, 10000])
  {
    assert [0][..1] + [10000] + [0][1..] == [0, 10000];
  }

  lemma SentBumpIsSent(epoch: nat, sent: Log)
    requires Tx2Of(epoch).tx in sent
    requires forall t :: t in sent && t.payload == Payload(epoch, 1) ==> t == Tx2Of(epoch).tx
    ensures var b, bump := Bumping(Tx2Of(epoch), None, sent), SentBump(epoch);
            SaneRun(bump.config, b, bump.attempts) && Retry(bump.config, b, bump.attempts).1.Sent?
  {
    ShapeOfTx2(epoch);
    var b, bump := Bumping(Tx2Of(epoch), None, sent), SentBump(epoch);
    assert Scale(1000, 1.0) == 1000 by {
      assert (1000.0 + 0.5).Floor == 1000;
    }
    assert 0.0.Floor == 0;
    var lowered := LowerChange(b.tx2.tx, 1000);
    assert lowered.outputs[CHANGE] == 9000 && lowered !in sent;
    assert bump.attempts[1..] == [];
  }

  lemma RunOfTwo(s: State, e: Event, e': Event)
    ensures Run(s, [e, e']) == Step(Step(s, e), e')
    ensures Sensible(s, e) && Sensible(Step(s, e), e') ==> SensibleRun(s, [e, e'])
  {
    assert [e, e'][..1] == [e] && [e][..0] == [];
    assert SensibleRun(s, []) && Run(s, [e]) == Step(s, e);
    assert Sensible(s, e) ==> SensibleRun(s, [e]);
  }

  lemma RunOfThree(s: State, e: Event, e': Event, e'': Event)
    ensures Run(s, [e, e', e'']) == Step(Step(Step(s, e), e'), e'')
    ensures Sensible(s, e) && Sensible(Step(s, e), e') && Sensible(Step(Step(s, e), e'), e'') ==>
              SensibleRun(s, [e, e', e''])
  {
    assert [e, e', e''][..2] == [e, e'];
    RunOfTwo(s, e, e');
  }

  lemma PairIsSent(s: State, epoch: nat, stored: bool)
    requires ShouldSendComplete(s.mem, epoch) && !InStore(s, epoch)
    ensures var e := Poll(epoch, Answers(true, stored), NO_BUMP);
            && Sensible(s, e)
            && Step(s, e).mem == Memory(epoch, Some(FirstTx(epoch, BUILD)), Some(Tx2Of(epoch)))
            && Step(s, e).sent == Logged(Logged(s.sent, Tx1Of(epoch), true), Tx2Of(epoch).tx, true)
            && (!stored ==> Step(s, e).store == s.store)
            && (stored ==> InStore(Step(s, e), epoch))
  {
  }

  lemma OnlyTx1IsSent(s: State, epoch: nat)
    requires ShouldSendComplete(s.mem, epoch) && !InStore(s, epoch)
    ensures var e := Poll(epoch, Answers(false, true), NO_BUMP);
            && Sensible(s, e) && Step(s, e).store == s.store
            && Step(s, e).mem == s.mem.(tx1 := Some(FirstTx(epoch, BUILD)))
            && Step(s, e).sent == Logged(s.sent, Tx1Of(epoch), true)
  {
  }

  lemma MixIsStored(s: State, offered: nat, epoch: nat, other: nat)
    requires epoch <= offered && epoch != other
    requires s.mem == Memory(epoch, Some(FirstTx(other, BUILD)), Some(Tx2Of(epoch)))
    requires epoch < offered ==> InStore(s, offered)
    requires OneTx2(s, epoch)
    ensures var e := Poll(offered, Answers(true, true), SentBump(epoch)); Sensible(s, e) && !StoreMatches(Step(s, e))
  {
    assert Send(s, offered, Answers(true, true)) == (s, true);
    SentBumpIsSent(epoch, s.sent);
    ShapeOfTx2(other);
  }

  /** What the log holds after a pair was sent, as far as tx2 of its epoch is concerned. */
  ghost predicate OneTx2(s: State, epoch: nat) {
    && Tx2Of(epoch).tx in s.sent
    && forall t :: t in s.sent && t.payload == Payload(epoch, 1) ==> t == Tx2Of(epoch).tx
  }

  /** From a sent pair: the tx2 of another epoch fails, and a bump of the first is stored. */
  lemma MixAfterPair(s: State, offered: nat, epoch: nat, other: nat)
    requires s.mem == Memory(epoch, Some(FirstTx(epoch, BUILD)), Some(Tx2Of(epoch))) && OneTx2(s, epoch)
    requires epoch < other && epoch <= offered && !InStore(s, other) && (epoch < offered ==> InStore(s, offered))
    ensures var e := Poll(other, Answers(false, true), NO_BUMP);
            var e' := Poll(offered, Answers(true, true), SentBump(epoch));
            Sensible(s, e) && Sensible(Step(s, e), e') && !StoreMatches(Step(Step(s, e), e'))
  {
    OnlyTx1IsSent(s, other);
    ShapeOfTx2(other);
    MixIsStored(Step(s, Poll(other, Answers(false, true), NO_BUMP)), offered, epoch, other);
  }

  lemma PairIsOneTx2(s: State, epoch: nat, stored: bool)
    requires ShouldSendComplete(s.mem, epoch) && !InStore(s, epoch)
    requires forall t :: t in s.sent ==> t.payload.epoch != epoch
    ensures OneTx2(Step(s, Poll(epoch, Answers(true, stored), NO_BUMP)), epoch)
  {
    PairIsSent(s, epoch, stored);
    ShapeOfTx2(epoch);
  }

  /** Rising epochs and a failed write below the stored epoch, carried to the store. */
  lemma FailedWriteStoresMix(stored: Stored, epoch: nat, next: nat)
    requires epoch < next < stored.epoch && Matches(stored.tx1, stored.tx2, stored.epoch)
    ensures var es := [Poll(epoch, Answers(true, false), NO_BUMP), Poll(next, Answers(false, true), NO_BUMP),
                       Poll(stored.epoch, Answers(true, true), SentBump(epoch))];
            SensibleRun(Initial(Some(stored)), es) && !StoreMatches(Run(Initial(Some(stored)), es))
  {
    var e0, e1 := Poll(epoch, Answers(true, false), NO_BUMP), Poll(next, Answers(false, true), NO_BUMP);
    var s := Initial(Some(stored));
    RunOfThree(s, e0, e1, Poll(stored.epoch, Answers(true, true), SentBump(epoch)));
    PairIsSent(s, epoch, false);
    PairIsOneTx2(s, epoch, false);
    MixAfterPair(Step(s, e0), stored.epoch, epoch, next);
  }

  /** A falling epoch with successful writes, carried to the store. */
  lemma FallingEpochStoresMix(epoch: nat, higher: nat)
    requires epoch < higher
    ensures var es := [Poll(epoch, Answers(true, true), NO_BUMP), Poll(higher, Answers(false, true), NO_BUMP),
                       Poll(epoch, Answers(true, true), SentBump(epoch))];
            SensibleRun(Initial(None), es) && !StoreMatches(Run(Initial(None), es))
  {
    var e0, e1 := Poll(epoch, Answers(true, true), NO_BUMP), Poll(higher, Answers(false, true), NO_BUMP);
    var s := Initial(None);
    RunOfThree(s, e0, e1, Poll(epoch, Answers(true, true), SentBump(epoch)));
    PairIsSent(s, epoch, true);
    PairIsOneTx2(s, epoch, true);
    MixAfterPair(Step(s, e0), epoch, epoch, higher);
  }

  /** The tx2-only retry, the second way to mix: epoch 0 is offered after the tx2 of another one failed. */
  lemma RetryStoresMix(epoch: nat)
    requires epoch > 0
    ensures var es := [Poll(epoch, Answers(false, true), NO_BUMP), Poll(0, Answers(true, true), NO_BUMP)];
            SensibleRun(Initial(None), es) && !StoreMatches(Run(Initial(None), es))
  {
    var e0, e1 := Poll(epoch, Answers(false, true), NO_BUMP), Poll(0, Answers(true, true), NO_BUMP);
    RunOfTwo(Initial(None), e0, e1);
    ShapeOfTx2(epoch);
    OnlyTx1IsSent(Initial(None), epoch);
    StepMatchesIff(Initial(None), e0);
    StepMatchesIff(Step(Initial(None), e0), e1);
  }

  // ---- The relayer itself ----

  class CheckpointRelayer {
    var mem: Memory
    var store: Option<Stored>
    var offered: nat
    var attempts: seq<nat>
    var pairs: seq<Pair>
    var bumps: seq<Bump>
    var sent: Log

    ghost function View(): State
      reads this
    {
      State(mem, store, offered, attempts, pairs, bumps, sent)
    }

    constructor (store: Option<Stored>)
      ensures View() == Initial(store)
    {
      mem, this.store, offered := FRESH, store, 0;
      attempts, pairs, bumps := [], [], [];
      sent := if store.Some? then map[store.value.tx1 := true, store.value.tx2 := true] else map[];
    }

    /** `maybeResendFromStore` */
    method MaybeResendFromStore(epoch: nat, a: SendAnswers) returns (err: bool, processed: bool)
      ensures err <==> !a.storeRead || (InStore(View(), epoch) && (ResendFails(a.lookup1) || ResendFails(a.lookup2)))
      ensures processed <==> !err && InStore(View(), epoch)
    {
      if !a.storeRead {
        return true, false;
      }
      if store.None? || store.value.epoch != epoch {
        return false, false;
      }
      if ResendFails(a.lookup1) || ResendFails(a.lookup2) {
        return true, false;
      }
      return false, true;
    }

    /** `sendTxToBTC` */
    method SendTx(tx: Tx, delivery: Delivery) returns (ok: bool)
      modifies this`sent
      ensures View() == Delivered(old(View()), tx, delivery) && (ok <==> delivery.Acked?)
    {
      if !delivery.Refused? {
        sent := Logged(sent, tx, delivery.Acked?);
      }
      ok := delivery.Acked?;
    }

    /** Builds and sends tx2 on top of `tx1`, then remembers and stores the pair. */
    method SendTx2AndStore(epoch: nat, tx1: TxInfo, a: SendAnswers) returns (ok: bool)
      modifies this`mem, this`store, this`pairs, this`sent
      ensures (View(), ok) == SendSecond(old(View()), epoch, tx1, a)
    {
      if a.build2.None? {
        return false;
      }
      var tx2 := SecondTx(epoch, tx1.tx, a.build2.value);
      ok := SendTx(tx2.tx, a.delivery2);
      if !ok {
        return;
      }
      mem := Memory(epoch, Some(tx1), Some(tx2));
      pairs := pairs + [Pair(epoch, tx1.tx, tx2.tx)];
      if !a.stored {
        return false;
      }
      store := Some(Stored(tx1.tx, tx2.tx, tx2.signedAs, epoch));
    }

    /** `convertCkptToTwoTxAndSubmit` and the code after it. */
    method ChainTwoTxAndSend(epoch: nat, a: SendAnswers) returns (ok: bool)
      modifies this`mem, this`store, this`pairs, this`sent
      ensures (View(), ok) == SendBoth(old(View()), epoch, a)
    {
      if !a.encoded || a.build1.None? {
        return false;
      }
      var tx1 := FirstTx(epoch, a.build1.value);
      ok := SendTx(tx1.tx, a.delivery1);
      if !ok {
        return;
      }
      mem := mem.(tx1 := Some(tx1));
      ok := SendTx2AndStore(epoch, tx1, a);
    }

    method SendCheckpointToBTC(epoch: nat, a: SendAnswers) returns (ok: bool)
      modifies this`mem, this`store, this`pairs, this`attempts, this`sent
      ensures (View(), ok) == Send(old(View()), epoch, a)
    {
      var complete, second := ShouldSendComplete(mem, epoch), ShouldSendTx2(mem, epoch);
      if complete || second {
        var err, processed := MaybeResendFromStore(epoch, a);
        if err {
          return false;
        }
        if processed {
          if mem.tx2.None? {
            var tx1 := FromMempool(store.value.tx1, store.value.tx1, a.size1, a.mempool);
            var tx2 := FromMempool(store.value.tx2, store.value.signedAs, a.size2, a.mempool);
            if tx1.None? || tx2.None? {
              return false;
            }
            mem := Memory(store.value.epoch, tx1, tx2);
          }
          return true;
        }
      }
      if complete {
        attempts := attempts + [epoch];
        ok := ChainTwoTxAndSend(epoch, a);
      } else if second {
        attempts := attempts + [epoch];
        if !a.encoded {
          return false;
        }
        ok := SendTx2AndStore(epoch, mem.tx1.value, a);
      } else {
        ok := true;
      }
    }

    method MaybeResubmitSecondCheckpointTx(epoch: nat, b: BumpAnswers)
      requires |b.attempts| <= MAX_ATTEMPTS
      modifies this`mem, this`store, this`bumps, this`sent
      ensures View() == Resubmit(old(View()), epoch, b)
    {
      if mem.tx1.None? || mem.tx2.None? || epoch < mem.epoch || !b.due {
        return;
      }
      var r, ending := RetryLoop(b.config, Bumping(mem.tx2.value, None, sent), b.attempts);
      mem, sent := mem.(tx2 := Some(r.tx2)), r.sent;
      if ending.Sent? {
        bumps := bumps + [Bump(epoch, mem.epoch, ending.start, ending.answers, r.tx2)];
        if b.stored {
          store := Some(Stored(mem.tx1.value.tx, r.tx2.tx, r.tx2.signedAs, mem.epoch));
        }
      }
    }

    /** One turn of the submitter's loop. */
    method ProcessCheckpoint(epoch: nat, a: SendAnswers, b: BumpAnswers)
      requires |b.attempts| <= MAX_ATTEMPTS
      modifies this
      ensures View() == Step(old(View()), Poll(epoch, a, b))
    {
      var ok := SendCheckpointToBTC(epoch, a);
      if ok {
        MaybeResubmitSecondCheckpointTx(epoch, b);
      }
      offered := epoch;
    }

    /** Memory is lost, the store survives. */
    method CrashAndRestart()
      modifies this
      ensures View() == Step(old(View()), Restart)
    {
      mem := FRESH;
      offered := 0;
    }
  }
}
