/**
  submitter/relayer/relayer.go: replacing the second checkpoint transaction by a better paying one.
  Amounts are integers (satoshi), margins and multipliers are reals, and feerates are compared by
  cross-multiplication. What the wallet and the node answer during one attempt is an `Attempt`.
 */
module FeeBump {
  import opened Wrappers

  const CHANGE: nat := 1
  const DUST: int := 546
  const MAX_DESCENDANTS: int := 100
  const MAX_ATTEMPTS: nat := 5

  /** An output of a checkpoint transaction, or any other coin of the wallet. */
  datatype OutPoint = OutPoint(tx: Tx, index: nat) | Coin(id: nat, value: nat)

  /** Which checkpoint and which of its two parts a transaction carries. */
  datatype Payload = Payload(epoch: nat, part: nat)

  /**
    Output 0 carries the data, output 1 the change. The id of a transaction is the transaction
    itself: ids hash the contents without the signatures, and hashes do not collide.
   */
  datatype Tx = Tx(inputs: seq<OutPoint>, payload: Payload, outputs: seq<int>)

  /**
    `txid` was recorded when the transaction was sent; `tx` may have been changed since. `signedAs`
    is the content that the signatures in the record are for.
   */
  datatype TxInfo = TxInfo(txid: Tx, tx: Tx, signedAs: Tx, size: nat, fee: int)

  function Sum(s: seq<int>): int {
    if s == [] then 0 else s[0] + Sum(s[1..])
  }

  function Value(o: OutPoint): int {
    match o
    case OutPoint(tx, index) => if index < |tx.outputs| then tx.outputs[index] else 0
    case Coin(_, value) => value
  }

  function Funds(inputs: seq<OutPoint>): int {
    if inputs == [] then 0 else Value(inputs[0]) + Funds(inputs[1..])
  }

  /** What a transaction really pays: inputs minus outputs. */
  function Paid(tx: Tx): int {
    Funds(tx.inputs) - Sum(tx.outputs)
  }

  lemma {:induction false} SumUpdate(s: seq<int>, i: nat, v: int)
    requires i < |s|
    ensures Sum(s[i := v]) == Sum(s) - s[i] + v
  {
    if i == 0 {
      assert s[i := v][1..] == s[1..];
    } else {
      SumUpdate(s[1..], i - 1, v);
      assert s[i := v][1..] == s[1..][i - 1 := v];
    }
  }

  datatype Error =
    | NotInMempool
    | TooManyDescendants
    | InsufficientFee
    | InsufficientFeerate
    | IncrementTooSmall
    | NoChangeOutput
    | OtherError

  type Size = n: nat | n > 0 witness 1
  type Btc = x: real | x >= 0.0

  /**
    A mempool entry: the transaction's own fee in BTC, and the count, fees (in satoshi) and size of
    it and its descendants. The node reports fees as floating-point numbers.
   */
  datatype Entry = Entry(fee: Btc, count: int, fees: real, size: Size)

  datatype Config = Config(multiplier: real, feeMargin: real, feerateMargin: real, incrementMargin: real)

  /** Converting a float to `btcutil.Amount` drops the fraction. */
  function Truncated(x: real): int {
    if x >= 0.0 then x.Floor else -((-x).Floor)
  }

  /** btcutil's rounding to the nearest amount. */
  function Rounded(x: real): int {
    if x >= 0.0 then (x + 0.5).Floor else -((-x + 0.5).Floor)
  }

  function Scale(amount: int, factor: real): int {
    Rounded(amount as real * factor)
  }

  function Max(a: int, b: int): int {
    if a < b then b else a
  }

  /** The fees of the transaction and everything that spends from it. */
  function Fees(entry: Entry): int {
    Truncated(entry.fees)
  }

  // ---- The rules a replacement must meet ----

  /** BIP 125, rule 3: the replacement pays more than everything it evicts. */
  predicate PaysMore(entry: Entry, fee: int) {
    fee > Fees(entry)
  }

  /** BIP 125, rule 4: the extra fee pays for the replacement's own bandwidth. */
  predicate PaysForBandwidth(entry: Entry, increment: real, fee: int, size: nat) {
    fee - Fees(entry) >= Truncated(increment) * size
  }

  /** BIP 125, rule 5: not too many transactions are evicted. */
  predicate EvictsFew(entry: Entry) {
    entry.count <= MAX_DESCENDANTS
  }

  /** The replacement has the higher feerate. */
  predicate BetterFeerate(entry: Entry, fee: int, size: nat) {
    fee * entry.size > Fees(entry) * size
  }

  /** `verifyRBFRequirements`: no error, or the first rule that fails. */
  function VerifyRbf(entry: Option<Entry>, increment: Option<real>, fee: int, size: nat): Option<Error> {
    if entry.None? then Some(NotInMempool)
    else if entry.value.count > MAX_DESCENDANTS then Some(TooManyDescendants)
    else if fee <= Fees(entry.value) then Some(InsufficientFee)
    else if fee * entry.value.size <= Fees(entry.value) * size then Some(InsufficientFeerate)
    else if increment.None? then Some(OtherError)
    else if fee - Fees(entry.value) < Truncated(increment.value) * size then Some(IncrementTooSmall)
    else None
  }

  /** The rules are passed by exactly those replacements that meet all of them. */
  lemma RulesPassIff(entry: Option<Entry>, increment: Option<real>, fee: int, size: nat)
    ensures VerifyRbf(entry, increment, fee, size).None? <==>
            && entry.Some? && increment.Some? && entry.value.count <= 100
            && fee > Truncated(entry.value.fees)
            && fee * entry.value.size > Truncated(entry.value.fees) * size
            && fee >= Truncated(entry.value.fees) + Truncated(increment.value) * size
  {
  }

  /** Which rule is named when one fails: descendants first, then fee, feerate and increment. */
  lemma RulesFailInOrder(entry: Entry, increment: real, fee: int, size: nat)
    ensures var e, fees := VerifyRbf(Some(entry), Some(increment), fee, size), Truncated(entry.fees);
            && (e == Some(TooManyDescendants) <==> entry.count > 100)
            && (e == Some(InsufficientFee) <==> entry.count <= 100 && fee <= fees)
            && (e == Some(InsufficientFeerate) <==>
                  entry.count <= 100 && fee > fees && fee * entry.size <= fees * size)
            && (e == Some(IncrementTooSmall) <==>
                  && entry.count <= 100 && fee > fees && fee * entry.size > fees * size
                  && fee - fees < Truncated(increment) * size)
  {
  }

  /**
    An incremental relay fee below 1 is truncated to nothing, as one in BTC per kilobyte always is:
    then rule 4 never rejects, and one satoshi on top of the evicted fees passes it.
   */
  lemma SmallIncrementNeverRejects(entry: Entry, increment: real, fee: int, size: nat)
    requires 0.0 <= increment < 1.0
    ensures PaysForBandwidth(entry, increment, fee, size) <==> fee >= Fees(entry)
    ensures VerifyRbf(Some(entry), Some(increment), fee, size) != Some(IncrementTooSmall)
  {
    assert increment.Floor == 0;
  }

  // ---- Choosing the fee ----

  predicate IsRbfError(e: Option<Error>) {
    e.Some? && (e.value.InsufficientFee? || e.value.InsufficientFeerate? || e.value.IncrementTooSmall?)
  }

  function RequiredFee(feeRatePerKVByte: nat, size: nat): int {
    (feeRatePerKVByte / 1000) * size
  }

  function AdjustInsufficientFee(c: Config, entry: Entry, bumped: int): int {
    Max(Scale(Fees(entry), 1.0 + c.feeMargin), bumped)
  }

  /** What `size` bytes cost at the feerate of the entry with a margin. */
  function FeeAtMargin(entry: Entry, margin: real, size: nat): int {
    Truncated(Fees(entry) as real / entry.size as real * (1.0 + margin) * size as real)
  }

  lemma FeeAtMarginTruncates(entry: Entry, margin: real, size: nat)
    ensures var exact := Fees(entry) as real / entry.size as real * (1.0 + margin) * size as real;
            var fee := FeeAtMargin(entry, margin, size) as real;
            exact >= 0.0 ==> fee <= exact < fee + 1.0
  {
  }

  /** Assigns `required`, not the fee it has just computed. */
  function AdjustInsufficientFeerate(c: Config, entry: Entry, bumped: int, required: int, size: nat): int {
    if FeeAtMargin(entry, c.feerateMargin, size) > bumped then required else bumped
  }

  /**
    Assigns `required`, not the fee it has just computed. The entry's fee is in BTC and is converted
    as if it were in satoshi.
   */
  function AdjustIncrementTooSmall(
    c: Config, entry: Entry, bumped: int, required: int, tx2: TxInfo, increment: Option<real>
  ): int
  {
    if increment.None? then bumped
    else
      var original := if entry.fee != 0.0 then Truncated(entry.fee) else tx2.fee;
      var newFee := original + Scale(Truncated(increment.value) * tx2.size, 1.0 + c.incrementMargin);
      if newFee > bumped then required else bumped
  }

  /** The fee when nothing failed before, or for another reason than the rules. */
  function PlainFee(c: Config, tx2: TxInfo, feeRate: nat): int {
    Max(Scale(tx2.fee, c.multiplier), RequiredFee(feeRate, tx2.size))
  }

  /** `calculateBumpedFee`; `None` is its error. */
  function BumpedFee(
    c: Config, tx2: TxInfo, lastError: Option<Error>, feeRate: nat, entry: Option<Entry>, increment: Option<real>
  ): Option<int>
  {
    var required := RequiredFee(feeRate, tx2.size);
    var bumped := Scale(tx2.fee, c.multiplier);
    if !IsRbfError(lastError) then Some(PlainFee(c, tx2, feeRate))
    else if entry.None? then None
    else
      var adjusted :=
        match lastError.value
        case InsufficientFee => AdjustInsufficientFee(c, entry.value, bumped)
        case InsufficientFeerate => AdjustInsufficientFeerate(c, entry.value, bumped, required, tx2.size)
        case _ => AdjustIncrementTooSmall(c, entry.value, bumped, required, tx2, increment);
      Some(Max(adjusted, required))
  }

  /** `fee` is the largest of the two. */
  predicate IsLarger(fee: int, x: int, y: int) {
    fee >= x && fee >= y && (fee == x || fee == y)
  }

  /** Scaled amounts are rounded to the nearest satoshi. */
  lemma ScaleRounds(amount: int, factor: real)
    ensures -0.5 <= Scale(amount, factor) as real - amount as real * factor <= 0.5
  {
  }

  /** The required fee is a whole number of satoshi per byte, the largest that the feerate covers. */
  lemma RequiredFeePerByte(feeRate: nat, size: nat)
    ensures exists perByte: nat ::
              RequiredFee(feeRate, size) == perByte * size && perByte * 1000 <= feeRate < perByte * 1000 + 1000
  {
    var perByte := feeRate / 1000;
    assert RequiredFee(feeRate, size) == perByte * size && perByte * 1000 <= feeRate < perByte * 1000 + 1000;
  }

  /** With no failed rule, the fee is the larger of the multiplied and the required one. */
  lemma FeeWithoutFailure(c: Config, tx2: TxInfo, lastError: Option<Error>, feeRate: nat)
    requires lastError.None? || lastError == Some(NotInMempool) || lastError == Some(OtherError)
    ensures var fee := BumpedFee(c, tx2, lastError, feeRate, None, None);
            fee.Some? && IsLarger(fee.value, Scale(tx2.fee, c.multiplier), RequiredFee(feeRate, tx2.size))
  {
  }

  /** After an insufficient fee it also covers the evicted fees with their margin. */
  lemma FeeAfterInsufficientFee(c: Config, tx2: TxInfo, feeRate: nat, entry: Entry, increment: Option<real>)
    ensures var fee := BumpedFee(c, tx2, Some(InsufficientFee), feeRate, Some(entry), increment);
            && fee.Some?
            && IsLarger(fee.value, PlainFee(c, tx2, feeRate), Scale(Truncated(entry.fees), 1.0 + c.feeMargin))
  {
  }

  /** After an insufficient feerate it is the required fee alone if the fee that was computed is larger. */
  lemma FeeAfterInsufficientFeerate(c: Config, tx2: TxInfo, feeRate: nat, entry: Entry, increment: Option<real>)
    ensures BumpedFee(c, tx2, Some(InsufficientFeerate), feeRate, Some(entry), increment) ==
            Some(if FeeAtMargin(entry, c.feerateMargin, tx2.size) > Scale(tx2.fee, c.multiplier)
                 then RequiredFee(feeRate, tx2.size) else PlainFee(c, tx2, feeRate))
  {
  }

  /** After a small increment likewise; without an incremental fee it is the plain one. */
  lemma FeeAfterSmallIncrement(c: Config, tx2: TxInfo, feeRate: nat, entry: Entry, increment: Option<real>)
    ensures var original := if entry.fee == 0.0 then tx2.fee else Truncated(entry.fee);
            var fee := BumpedFee(c, tx2, Some(IncrementTooSmall), feeRate, Some(entry), increment);
            var large := increment.Some? &&
                         original + Scale(Truncated(increment.value) * tx2.size, 1.0 + c.incrementMargin) >
                         Scale(tx2.fee, c.multiplier);
            fee == Some(if large then RequiredFee(feeRate, tx2.size) else PlainFee(c, tx2, feeRate))
  {
  }

  /**
    The fee after an increment that was too small does not depend on what the replaced transaction
    pays, as long as that is positive and below one bitcoin: the fee in BTC truncates to nothing.
   */
  lemma IncrementRetryForgetsFee(c: Config, tx2: TxInfo, feeRate: nat, entry: Entry, increment: real)
    requires 0.0 < entry.fee < 1.0
    ensures var required, bumped := RequiredFee(feeRate, tx2.size), Scale(tx2.fee, c.multiplier);
            var extra := Scale(Truncated(increment) * tx2.size, 1.0 + c.incrementMargin);
            BumpedFee(c, tx2, Some(IncrementTooSmall), feeRate, Some(entry), Some(increment)) ==
            Some(if extra > bumped then required else Max(bumped, required))
  {
    assert entry.fee.Floor == 0;
  }

  /** The adjusters can lower the fee: a replacement at 200 failed, and the next one would offer 100. */
  lemma FeerateRetryOffersLess(tx: Tx)
    ensures var c := Config(2.0, 0.0, 0.5, 0.0);
            var tx2 := TxInfo(tx, tx, tx, 100, 100);
            && BumpedFee(c, tx2, None, 1000, None, None) == Some(200)
            && BumpedFee(c, tx2, Some(InsufficientFeerate), 1000, Some(Entry(0.0, 1, 400.0, 100)), None) == Some(100)
  {
    assert Scale(100, 2.0) == 200 by {
      assert 100 as real * 2.0 == 200.0 && (200.0 + 0.5).Floor == 200;
    }
    assert 400.0.Floor == 400;
    var feerate := 400 as real / 100 as real * 1.5;
    assert feerate == 6.0;
    assert (feerate * 100 as real).Floor == 600;
  }

  // ---- One attempt ----

  datatype Status = QueryFailed | InChain | NotInChain

  /** What funding adds: inputs and a new change output. `size` may fail to compute. */
  datatype Funding = Funding(inputs: seq<OutPoint>, change: Option<int>, size: Option<nat>)

  /** A transaction handed to the node; its acceptance may fail to reach us. */
  datatype Delivery = Acked | AckLost | Refused

  type Mempool = map<Tx, Entry>

  /** The mempool is read once for the fee and once for the rules; an absent id is a failed query. */
  datatype Attempt = Attempt(
    feeRate: nat,
    poolBefore: Mempool,
    incrementBefore: Option<real>,
    minRelayFee: nat,
    status: Status,
    funding: Option<Funding>,
    pool: Mempool,
    increment: Option<real>,
    signed: bool,
    delivery: Delivery
  )

  /** Every transaction that reached the node, and whether its acceptance was reported. */
  type Log = map<Tx, bool>

  function Logged(sent: Log, tx: Tx, acked: bool): Log {
    sent[tx := acked || (tx in sent && sent[tx])]
  }

  /** The record that is bumped, the error of the previous attempt, and what was broadcast so far. */
  datatype Bumping = Bumping(tx2: TxInfo, lastError: Option<Error>, sent: Log)

  function Lookup(pool: Mempool, tx: Tx): Option<Entry> {
    if tx in pool then Some(pool[tx]) else None
  }

  /** FundRawTransaction keeps inputs and outputs and puts a change output at position 1. */
  function Fund(tx: Tx, f: Funding): Tx {
    var outputs :=
      if f.change.Some? && |tx.outputs| > 0 then tx.outputs[..1] + [f.change.value] + tx.outputs[1..] else tx.outputs;
    tx.(inputs := tx.inputs + f.inputs, outputs := outputs)
  }

  datatype Verdict = Resent | NotNeeded | FailedWith(error: Error)

  /** The existing change cannot pay the fee without becoming dust. */
  predicate NeedsFunding(tx: Tx, fee: int)
    requires |tx.outputs| > CHANGE
  {
    tx.outputs[CHANGE] - fee < DUST
  }

  function LowerChange(tx: Tx, fee: int): Tx
    requires |tx.outputs| > CHANGE
  {
    tx.(outputs := tx.outputs[CHANGE := tx.outputs[CHANGE] - fee])
  }

  /**
    The last part of an attempt: check the rules against the entry of `original`, sign, send. `tx2`
    already holds the new transaction; what is sent is a signed copy, and the record keeps the
    signatures it had.
   */
  function Broadcast(original: Tx, tx2: TxInfo, fee: int, a: Attempt, sent: Log): (TxInfo, Log, Verdict) {
    var error := VerifyRbf(Lookup(a.pool, original), a.increment, fee, tx2.size);
    if error.Some? then (tx2, sent, FailedWith(error.value))
    else if !a.signed || a.delivery.Refused? then (tx2, sent, FailedWith(OtherError))
    else if a.delivery.AckLost? then (tx2, Logged(sent, tx2.tx, false), FailedWith(OtherError))
    else (tx2.(fee := fee, txid := tx2.tx), Logged(sent, tx2.tx, true), Resent)
  }

  /**
    `maybeResendSecondTxOfCheckpointToBTC`: the record is changed in place, also on failure, and the
    rules are checked against the mempool entry of the transaction it held before.
   */
  function Resend(tx2: TxInfo, fee: int, a: Attempt, sent: Log): (TxInfo, Log, Verdict) {
    if |tx2.tx.outputs| <= CHANGE then (tx2, sent, FailedWith(NoChangeOutput))
    else if a.status.QueryFailed? then (tx2, sent, FailedWith(OtherError))
    else if a.status.InChain? then (tx2, sent, NotNeeded)
    else if NeedsFunding(tx2.tx, fee) then
      if a.funding.None? then (tx2, sent, FailedWith(OtherError))
      else
        var funded := tx2.(tx := Fund(tx2.tx, a.funding.value));
        if a.funding.value.size.None? then (funded, sent, FailedWith(OtherError))
        else Broadcast(tx2.tx, funded.(size := a.funding.value.size.value), Paid(funded.tx), a, sent)
    else Broadcast(tx2.tx, tx2.(tx := LowerChange(tx2.tx, fee)), fee, a, sent)
  }

  /** The bumped fee is worth a replacement. */
  predicate WorthIt(tx2: TxInfo, fee: int, a: Attempt) {
    fee >= tx2.fee + a.minRelayFee
  }

  /** What an attempt does to a tx2 whose fee is to become `fee` with its existing inputs. */
  lemma InPlaceAttempt(tx2: TxInfo, fee: int, a: Attempt, sent: Log)
    requires |tx2.tx.outputs| > CHANGE && a.status.NotInChain? && !NeedsFunding(tx2.tx, fee)
    ensures var (r, _, v) := Resend(tx2, fee, a, sent);
            && |r.tx.outputs| == |tx2.tx.outputs|
            && r.tx.outputs[CHANGE] == tx2.tx.outputs[CHANGE] - fee >= 546
            && Sum(r.tx.outputs) == Sum(tx2.tx.outputs) - fee
            && Paid(r.tx) == Paid(tx2.tx) + fee
            && r.fee == (if v.Resent? then fee else tx2.fee)
            && r.tx.inputs == tx2.tx.inputs && r.tx.payload == tx2.tx.payload
  {
    SumUpdate(tx2.tx.outputs, CHANGE, tx2.tx.outputs[CHANGE] - fee);
  }

  /** Each in-place replacement pays its recorded fee on top of everything paid before. */
  lemma InPlaceReplacementOverpays(tx2: TxInfo, fee: int, a: Attempt, sent: Log)
    requires |tx2.tx.outputs| > CHANGE && a.status.NotInChain? && !NeedsFunding(tx2.tx, fee)
    requires Resend(tx2, fee, a, sent).2.Resent?
    ensures var r := Resend(tx2, fee, a, sent).0; Paid(r.tx) - r.fee == Paid(tx2.tx)
  {
    InPlaceAttempt(tx2, fee, a, sent);
  }

  // ---- The retry loop ----

  /** `Sent` says from where and with which answers the successful attempt started. */
  datatype Ending = Sent(start: Bumping, answers: Attempt) | Skipped | GaveUp

  /** The fee an attempt would go for; the mempool is asked for the recorded id. */
  function FeeOf(c: Config, b: Bumping, a: Attempt): Option<int> {
    BumpedFee(c, b.tx2, b.lastError, a.feeRate, Lookup(a.poolBefore, b.tx2.txid), a.incrementBefore)
  }

  /** There is no fee exactly if a rule failed before and the recorded id is not in the mempool any more. */
  lemma NoFeeIff(c: Config, b: Bumping, a: Attempt)
    ensures FeeOf(c, b, a).None? <==>
            && (b.lastError == Some(InsufficientFee) || b.lastError == Some(InsufficientFeerate) ||
                b.lastError == Some(IncrementTooSmall))
            && b.tx2.txid !in a.poolBefore
  {
  }

  /** One round: what it leaves, and how the loop ends if it does. */
  function OneRound(c: Config, b: Bumping, a: Attempt): (Bumping, Option<Ending>) {
    var fee := FeeOf(c, b, a);
    if fee.None? then (b, None)
    else if !WorthIt(b.tx2, fee.value, a) then (b, Some(Skipped))
    else
      var (r, sent, v) := Resend(b.tx2, fee.value, a, b.sent);
      match v
      case Resent => (Bumping(r, b.lastError, sent), Some(Sent(b, a)))
      case NotNeeded => (Bumping(r, b.lastError, sent), Some(Skipped))
      case FailedWith(e) =>
        (Bumping(r, Some(e), sent), if e.TooManyDescendants? || e.NoChangeOutput? then Some(Skipped) else None)
  }

  /**
    What can be said of the answers: the mempool knows those of our transactions that reached it, a
    funded transaction does not spend more than it has, and a changed transaction is a new one.
   */
  predicate Sane(c: Config, b: Bumping, a: Attempt) {
    && (forall t :: t in a.pool ==> t in b.sent)
    && (a.funding.Some? ==> Paid(Fund(b.tx2.tx, a.funding.value)) >= 0)
    && var t := OneRound(c, b, a).0.tx2.tx; t == b.tx2.tx || t !in b.sent
  }

  predicate SaneRun(c: Config, b: Bumping, attempts: seq<Attempt>)
    decreases |attempts|
  {
    attempts == [] ||
    (Sane(c, b, attempts[0]) &&
     var (r, stop) := OneRound(c, b, attempts[0]); stop.Some? || SaneRun(c, r, attempts[1..]))
  }

  function Retry(c: Config, b: Bumping, attempts: seq<Attempt>): (Bumping, Ending)
    decreases |attempts|
  {
    if attempts == [] then (b, GaveUp)
    else
      var (r, stop) := OneRound(c, b, attempts[0]);
      if stop.Some? then (r, stop.value) else Retry(c, r, attempts[1..])
  }

  /** The retry loop of `MaybeResubmitSecondCheckpointTx`, over the answers of at most five attempts. */
  method RetryLoop(c: Config, b: Bumping, attempts: seq<Attempt>) returns (r: Bumping, ending: Ending)
    requires |attempts| <= MAX_ATTEMPTS
    ensures (r, ending) == Retry(c, b, attempts)
  {
    r := b;
    var i := 0;
    while i < |attempts|
      invariant 0 <= i <= |attempts|
      invariant Retry(c, r, attempts[i..]) == Retry(c, b, attempts)
    {
      var a := attempts[i];
      assert attempts[i..][1..] == attempts[i + 1..];
      var fee := FeeOf(c, r, a);
      if fee.Some? {
        if !WorthIt(r.tx2, fee.value, a) {
          return r, Skipped;
        }
        var start := r;
        var (tx2, sent, verdict) := Resend(r.tx2, fee.value, a, r.sent);
        r := r.(tx2 := tx2, sent := sent);
        match verdict
        case Resent => return r, Sent(start, a);
        case NotNeeded => return r, Skipped;
        case FailedWith(e) =>
          r := r.(lastError := Some(e));
          if e.TooManyDescendants? || e.NoChangeOutput? {
            return r, Skipped;
          }
      }
      i := i + 1;
    }
    ending := GaveUp;
  }

  // ---- What is replaced ----

  /** The two cannot both be mined. */
  ghost predicate Conflict(s: Tx, t: Tx) {
    exists o :: o in s.inputs && o in t.inputs
  }

  /**
    `now` was broadcast after the rules were checked against the mempool entry of the transaction
    it replaces: one that reached the node, spends the same output and carries the same data.
   */
  ghost predicate Checked(start: Bumping, a: Attempt, now: TxInfo) {
    var was := start.tx2.tx;
    && was in start.sent && was in a.pool && a.increment.Some?
    && PaysMore(a.pool[was], now.fee)
    && PaysForBandwidth(a.pool[was], a.increment.value, now.fee, now.size)
    && EvictsFew(a.pool[was])
    && BetterFeerate(a.pool[was], now.fee, now.size)
    && now.txid == now.tx && Conflict(now.tx, was) && now.tx.payload == was.payload
  }

  /** It is the one recorded as sent, unless the report of a later one was lost. */
  predicate ReplacesRecorded(b: Bumping) {
    b.tx2.tx == b.tx2.txid || (b.tx2.tx in b.sent && !b.sent[b.tx2.tx])
  }

  /** The recorded id was broadcast, and no other id of an acknowledged broadcast is ever held. */
  predicate Tracked(b: Bumping) {
    && b.tx2.tx.inputs != [] && b.tx2.txid in b.sent
    && (b.tx2.tx in b.sent && b.sent[b.tx2.tx] ==> b.tx2.tx == b.tx2.txid)
  }

  lemma SameInput(s: Tx, t: Tx)
    requires t.inputs != [] && t.inputs <= s.inputs
    ensures Conflict(s, t)
  {
    assert t.inputs[0] in t.inputs && s.inputs[0] in s.inputs;
  }

  /** `tx2` is what an attempt has made of the record of `b`. */
  lemma BroadcastIsChecked(b: Bumping, tx2: TxInfo, fee: int, a: Attempt)
    requires Tracked(b) && forall t :: t in a.pool ==> t in b.sent
    requires tx2.txid == b.tx2.txid && b.tx2.tx.inputs <= tx2.tx.inputs && tx2.tx.payload == b.tx2.tx.payload
    requires tx2.tx == b.tx2.tx || tx2.tx !in b.sent
    ensures var (r, sent, v) := Broadcast(b.tx2.tx, tx2, fee, a, b.sent);
            Tracked(Bumping(r, b.lastError, sent)) && (v.Resent? ==> Checked(b, a, r) && ReplacesRecorded(b))
  {
    SameInput(tx2.tx, b.tx2.tx);
  }

  lemma ResendIsChecked(b: Bumping, fee: int, a: Attempt)
    requires Tracked(b) && forall t :: t in a.pool ==> t in b.sent
    requires var t := Resend(b.tx2, fee, a, b.sent).0.tx; t == b.tx2.tx || t !in b.sent
    ensures var (r, sent, v) := Resend(b.tx2, fee, a, b.sent);
            Tracked(Bumping(r, b.lastError, sent)) && (v.Resent? ==> Checked(b, a, r) && ReplacesRecorded(b))
  {
    var tx2 := b.tx2;
    if |tx2.tx.outputs| > CHANGE && a.status.NotInChain? {
      if !NeedsFunding(tx2.tx, fee) {
        BroadcastIsChecked(b, tx2.(tx := LowerChange(tx2.tx, fee)), fee, a);
      } else if a.funding.Some? && a.funding.value.size.Some? {
        var funded := Fund(tx2.tx, a.funding.value);
        BroadcastIsChecked(b, tx2.(tx := funded, size := a.funding.value.size.value), Paid(funded), a);
      }
    }
  }

  lemma RoundIsChecked(c: Config, b: Bumping, a: Attempt)
    requires Tracked(b) && Sane(c, b, a)
    ensures var (r, stop) := OneRound(c, b, a);
            && Tracked(r)
            && (stop.Some? && stop.value.Sent? ==>
                  Checked(b, a, r.tx2) && ReplacesRecorded(b) && stop == Some(Sent(b, a)))
  {
    var fee := FeeOf(c, b, a);
    if fee.Some? && WorthIt(b.tx2, fee.value, a) {
      ResendIsChecked(b, fee.value, a);
    }
  }

  /**
    Over any run of retries: a replacement that is sent passed rules 3, 4 and 5 against the entry of
    the transaction it replaces, which is the one recorded as sent unless a report was lost.
   */
  lemma {:induction false} SentWasChecked(c: Config, b: Bumping, attempts: seq<Attempt>)
    requires Tracked(b) && SaneRun(c, b, attempts)
    ensures var (r, ending) := Retry(c, b, attempts);
            && Tracked(r)
            && (ending.Sent? ==> Checked(ending.start, ending.answers, r.tx2) && ReplacesRecorded(ending.start))
    decreases |attempts|
  {
    if attempts != [] {
      RoundIsChecked(c, b, attempts[0]);
      var (r, stop) := OneRound(c, b, attempts[0]);
      if stop.None? {
        SentWasChecked(c, r, attempts[1..]);
      }
    }
  }

  // ---- A changed record that was not sent ----

  /** The record holds a transaction that never reached the node. */
  predicate Dirty(b: Bumping) {
    b.tx2.tx !in b.sent
  }

  lemma DirtyRound(c: Config, b: Bumping, a: Attempt)
    requires Dirty(b) && Sane(c, b, a)
    ensures var (r, stop) := OneRound(c, b, a);
            && Dirty(r) && r.sent == b.sent && r.tx2.txid == b.tx2.txid
            && (stop.Some? ==> stop.value.Skipped?)
  {
    assert b.tx2.tx !in a.pool;
  }

  /**
    The rules are checked under the id of the changed transaction, which no mempool holds. So once
    an attempt has changed the record without reaching the node, nothing is ever sent from it.
   */
  lemma {:induction false} DirtyNeverSends(c: Config, b: Bumping, attempts: seq<Attempt>)
    requires Dirty(b) && SaneRun(c, b, attempts)
    ensures var (r, ending) := Retry(c, b, attempts);
            !ending.Sent? && Dirty(r) && r.sent == b.sent && r.tx2.txid == b.tx2.txid
    decreases |attempts|
  {
    if attempts != [] {
      DirtyRound(c, b, attempts[0]);
      var (r, stop) := OneRound(c, b, attempts[0]);
      if stop.None? {
        DirtyNeverSends(c, r, attempts[1..]);
      }
    }
  }

  predicate NoAckLost(attempts: seq<Attempt>) {
    forall i :: 0 <= i < |attempts| ==> !attempts[i].delivery.AckLost?
  }

  /** And that is how every run ends that changes the record and sends nothing. */
  lemma {:induction false} UnsentChangeIsDirty(c: Config, b: Bumping, attempts: seq<Attempt>)
    requires SaneRun(c, b, attempts) && NoAckLost(attempts)
    ensures var (r, ending) := Retry(c, b, attempts);
            !ending.Sent? ==> r.sent == b.sent && (r.tx2.tx != b.tx2.tx ==> Dirty(r))
    decreases |attempts|
  {
    if attempts != [] {
      var (r, stop) := OneRound(c, b, attempts[0]);
      if stop.None? {
        if r.tx2.tx != b.tx2.tx {
          DirtyNeverSends(c, r, attempts[1..]);
        } else {
          UnsentChangeIsDirty(c, r, attempts[1..]);
        }
      }
    }
  }

  // ---- Exactly when a bump is sent ----

  /** The fee exceeds the recorded one by the relay fee, and there is a change output to take it from. */
  predicate Tries(c: Config, b: Bumping, a: Attempt) {
    var fee := FeeOf(c, b, a);
    fee.Some? && fee.value >= b.tx2.fee + a.minRelayFee && |b.tx2.tx.outputs| >= 2
  }

  predicate Underfunded(c: Config, b: Bumping, a: Attempt)
    requires Tries(c, b, a)
  {
    b.tx2.tx.outputs[1] < FeeOf(c, b, a).value + 546
  }

  /** It gets as far as putting a replacement into the record. */
  predicate Reaches(c: Config, b: Bumping, a: Attempt) {
    Tries(c, b, a) && a.status.NotInChain? && (Underfunded(c, b, a) ==> a.funding.Some?)
  }

  /** The replacement, and the size and the fee that are checked; no size is an error. */
  function Replacement(c: Config, b: Bumping, a: Attempt): (Tx, Option<nat>, int)
    requires Reaches(c, b, a)
  {
    if Underfunded(c, b, a) then
      var tx := Fund(b.tx2.tx, a.funding.value); (tx, a.funding.value.size, Paid(tx))
    else
      var fee := FeeOf(c, b, a).value; (LowerChange(b.tx2.tx, fee), Some(b.tx2.size), fee)
  }

  /** What the rules say of it, against the entry of the transaction in the record. */
  function Judged(c: Config, b: Bumping, a: Attempt): Option<Error>
    requires Reaches(c, b, a)
  {
    var (_, size, fee) := Replacement(c, b, a);
    if size.None? then Some(OtherError) else VerifyRbf(Lookup(a.pool, b.tx2.tx), a.increment, fee, size.value)
  }

  /** It passes the rules, is signed, and is sent with or without a report. */
  predicate Delivers(c: Config, b: Bumping, a: Attempt) {
    Reaches(c, b, a) && Judged(c, b, a).None? && a.signed && a.delivery.Acked?
  }

  predicate LosesReport(c: Config, b: Bumping, a: Attempt) {
    Reaches(c, b, a) && Judged(c, b, a).None? && a.signed && a.delivery.AckLost?
  }

  /** It fails one of the rules that a higher fee could meet. */
  predicate FailsRule(c: Config, b: Bumping, a: Attempt) {
    Reaches(c, b, a) && IsRbfError(Judged(c, b, a))
  }

  /** It ends in an error that is retried, after the replacement turned out to be the same transaction. */
  predicate ReturnsSame(c: Config, b: Bumping, a: Attempt) {
    && Reaches(c, b, a) && Replacement(c, b, a).0 == b.tx2.tx
    && (if Judged(c, b, a).Some? then !Judged(c, b, a).value.TooManyDescendants? else !a.signed || a.delivery.Refused?)
  }

  /** It fails before there is a replacement: no fee, no status, or no funding. */
  predicate Postponed(c: Config, b: Bumping, a: Attempt) {
    || FeeOf(c, b, a).None?
    || (Tries(c, b, a) && a.status.QueryFailed?)
    || (Tries(c, b, a) && a.status.NotInChain? && Underfunded(c, b, a) && a.funding.None?)
  }

  /** The loop is over without a replacement: not worth it, no change output, mined, or too many descendants. */
  predicate Stops(c: Config, b: Bumping, a: Attempt) {
    && FeeOf(c, b, a).Some?
    && (!Tries(c, b, a) || a.status.InChain? || (Reaches(c, b, a) && Judged(c, b, a) == Some(TooManyDescendants)))
  }

  /** The loop goes on with a record whose transaction is as it was, or reached the node. */
  predicate GoesOn(c: Config, b: Bumping, a: Attempt) {
    Postponed(c, b, a) || ReturnsSame(c, b, a) || LosesReport(c, b, a)
  }

  lemma RoundCases(c: Config, b: Bumping, a: Attempt)
    ensures var (r, stop) := OneRound(c, b, a);
            && (Delivers(c, b, a) ==> stop == Some(Sent(b, a)) && r.tx2.fee == Replacement(c, b, a).2)
            && (stop == Some(Skipped) <==> Stops(c, b, a))
            && (!Delivers(c, b, a) && stop.Some? ==> stop.value.Skipped?)
            && (GoesOn(c, b, a) ==> stop.None?)
            && (!GoesOn(c, b, a) && stop.None? ==> r.tx2.tx != b.tx2.tx && r.sent == b.sent)
  {
  }

  /** After a round that goes on, the last error is about a rule if it failed one, or had no fee after one. */
  lemma RuleErrorIff(c: Config, b: Bumping, a: Attempt)
    requires GoesOn(c, b, a)
    ensures IsRbfError(OneRound(c, b, a).0.lastError) <==>
            (FailsRule(c, b, a) && ReturnsSame(c, b, a)) || (FeeOf(c, b, a).None? && IsRbfError(b.lastError))
  {
  }

  /** The state in which attempt `i` starts, as long as the loop goes on. */
  function StateAt(c: Config, b: Bumping, attempts: seq<Attempt>, i: nat): Bumping
    requires i <= |attempts|
  {
    if i == 0 then b else OneRound(c, StateAt(c, b, attempts, i - 1), attempts[i - 1]).0
  }

  lemma {:induction false} StateShifts(c: Config, b: Bumping, attempts: seq<Attempt>, i: nat)
    requires i < |attempts|
    ensures StateAt(c, OneRound(c, b, attempts[0]).0, attempts[1..], i) == StateAt(c, b, attempts, i + 1)
  {
    if i > 0 {
      StateShifts(c, b, attempts, i - 1);
      assert attempts[1..][i - 1] == attempts[i];
    }
  }

  predicate GoesOnAt(c: Config, b: Bumping, attempts: seq<Attempt>, j: nat) {
    j < |attempts| && GoesOn(c, StateAt(c, b, attempts, j), attempts[j])
  }

  /** The loop gets to attempt `i`, and it delivers. */
  predicate DeliversAt(c: Config, b: Bumping, attempts: seq<Attempt>, i: nat) {
    && i < |attempts| && Delivers(c, StateAt(c, b, attempts, i), attempts[i])
    && forall j :: 0 <= j < i ==> GoesOnAt(c, b, attempts, j)
  }

  lemma DeliversShifts(c: Config, b: Bumping, attempts: seq<Attempt>, i: nat)
    requires 0 < |attempts| && GoesOn(c, b, attempts[0])
    ensures DeliversAt(c, b, attempts, i + 1) <==>
            DeliversAt(c, OneRound(c, b, attempts[0]).0, attempts[1..], i)
  {
    var r, rest := OneRound(c, b, attempts[0]).0, attempts[1..];
    if i < |rest| {
      StateShifts(c, b, attempts, i);
      assert rest[i] == attempts[i + 1];
      forall j | 0 <= j < i ensures GoesOnAt(c, r, rest, j) <==> GoesOnAt(c, b, attempts, j + 1) {
        StateShifts(c, b, attempts, j);
        assert rest[j] == attempts[j + 1];
      }
      assert GoesOnAt(c, b, attempts, 0);
      if DeliversAt(c, r, rest, i) {
        forall j | 0 <= j < i + 1 ensures GoesOnAt(c, b, attempts, j) {
          assert j > 0 ==> GoesOnAt(c, r, rest, j - 1);
        }
      }
    }
  }

  lemma {:induction false} DeliveredIsSent(c: Config, b: Bumping, attempts: seq<Attempt>, i: nat)
    requires DeliversAt(c, b, attempts, i)
    ensures var (r, ending) := Retry(c, b, attempts);
            var start := StateAt(c, b, attempts, i);
            ending == Sent(start, attempts[i]) && r.tx2.fee == Replacement(c, start, attempts[i]).2
    decreases i
  {
    RoundCases(c, b, attempts[0]);
    if i > 0 {
      assert GoesOnAt(c, b, attempts, 0);
      DeliversShifts(c, b, attempts, i - 1);
      DeliveredIsSent(c, OneRound(c, b, attempts[0]).0, attempts[1..], i - 1);
      StateShifts(c, b, attempts, i - 1);
    }
  }

  lemma {:induction false} SentIsDelivered(c: Config, b: Bumping, attempts: seq<Attempt>) returns (i: nat)
    requires SaneRun(c, b, attempts) && Retry(c, b, attempts).1.Sent?
    ensures DeliversAt(c, b, attempts, i)
    decreases |attempts|
  {
    var (r, stop) := OneRound(c, b, attempts[0]);
    RoundCases(c, b, attempts[0]);
    if Delivers(c, b, attempts[0]) {
      i := 0;
    } else if GoesOn(c, b, attempts[0]) {
      var n := SentIsDelivered(c, r, attempts[1..]);
      DeliversShifts(c, b, attempts, n);
      i := n + 1;
    } else {
      DirtyNeverSends(c, r, attempts[1..]);
    }
  }

  /**
    A run of retries sends a replacement if and only if some attempt delivers, and all attempts
    before it were postponed, got their transaction back as it was, or lost their report. Any other
    failure has changed the record, and ends the bumping.
   */
  lemma SentIff(c: Config, b: Bumping, attempts: seq<Attempt>)
    requires SaneRun(c, b, attempts)
    ensures Retry(c, b, attempts).1.Sent? <==> exists i :: DeliversAt(c, b, attempts, i)
    ensures Retry(c, b, attempts).1.Sent? ==> !Dirty(b)
  {
    if Retry(c, b, attempts).1.Sent? {
      var i := SentIsDelivered(c, b, attempts);
    }
    if i: nat :| DeliversAt(c, b, attempts, i) {
      DeliveredIsSent(c, b, attempts, i);
    }
    if Dirty(b) {
      DirtyNeverSends(c, b, attempts);
    }
  }

  /** If no report is lost, what is sent replaces the transaction that the run started from. */
  lemma {:induction false} SentReplacesFirst(c: Config, b: Bumping, attempts: seq<Attempt>)
    requires SaneRun(c, b, attempts) && NoAckLost(attempts)
    ensures var ending := Retry(c, b, attempts).1;
            ending.Sent? ==> ending.start.tx2.tx == b.tx2.tx && ending.start.sent == b.sent && !Dirty(b)
    decreases |attempts|
  {
    if Dirty(b) {
      DirtyNeverSends(c, b, attempts);
    } else if attempts != [] {
      var (r, stop) := OneRound(c, b, attempts[0]);
      if stop.None? {
        if r.tx2.tx != b.tx2.tx {
          DirtyNeverSends(c, r, attempts[1..]);
        } else {
          SentReplacesFirst(c, r, attempts[1..]);
        }
      }
    }
  }

  /** Attempt `j` failed a rule, got its transaction back as it was, and no attempt up to `i` had a fee. */
  predicate RuleFailedAt(c: Config, b: Bumping, attempts: seq<Attempt>, j: nat, i: nat)
    requires i <= |attempts|
  {
    && j < i
    && FailsRule(c, StateAt(c, b, attempts, j), attempts[j])
    && ReturnsSame(c, StateAt(c, b, attempts, j), attempts[j])
    && forall m :: j < m < i ==> FeeOf(c, StateAt(c, b, attempts, m), attempts[m]).None?
  }

  predicate RuleFailedBefore(c: Config, b: Bumping, attempts: seq<Attempt>, i: nat)
    requires i <= |attempts|
  {
    exists j :: 0 <= j < i && RuleFailedAt(c, b, attempts, j, i)
  }

  lemma RuleFailedStep(c: Config, b: Bumping, attempts: seq<Attempt>, i: nat)
    requires 0 < i <= |attempts|
    ensures var s, a := StateAt(c, b, attempts, i - 1), attempts[i - 1];
            RuleFailedBefore(c, b, attempts, i) <==>
            || (FailsRule(c, s, a) && ReturnsSame(c, s, a))
            || (FeeOf(c, s, a).None? && RuleFailedBefore(c, b, attempts, i - 1))
  {
    var n := i - 1;
    var s, a := StateAt(c, b, attempts, n), attempts[n];
    if j :| 0 <= j < i && RuleFailedAt(c, b, attempts, j, i) {
      assert j < n ==> RuleFailedAt(c, b, attempts, j, n) && FeeOf(c, s, a).None?;
    }
    if FailsRule(c, s, a) && ReturnsSame(c, s, a) {
      assert RuleFailedAt(c, b, attempts, n, i);
    }
    if FeeOf(c, s, a).None? && RuleFailedBefore(c, b, attempts, n) {
      var j :| 0 <= j < n && RuleFailedAt(c, b, attempts, j, n);
      assert RuleFailedAt(c, b, attempts, j, i);
    }
  }

  lemma {:induction false} RuleErrorAtIff(c: Config, b: Bumping, attempts: seq<Attempt>, i: nat)
    requires i <= |attempts| && !IsRbfError(b.lastError)
    requires forall j :: 0 <= j < i ==> GoesOnAt(c, b, attempts, j)
    ensures IsRbfError(StateAt(c, b, attempts, i).lastError) <==> RuleFailedBefore(c, b, attempts, i)
  {
    if i > 0 {
      assert GoesOnAt(c, b, attempts, i - 1);
      RuleErrorAtIff(c, b, attempts, i - 1);
      RuleErrorIff(c, StateAt(c, b, attempts, i - 1), attempts[i - 1]);
      RuleFailedStep(c, b, attempts, i);
    }
  }

  /**
    The fee of a replacement that is sent is an adjusted one if and only if the attempt before it
    (not counting those that had no fee) failed a rule and got its transaction back as it was. After
    every other failed rule the adjusted fee is in vain.
   */
  lemma AdjustedFeeIsSentIff(c: Config, b: Bumping, attempts: seq<Attempt>)
    requires SaneRun(c, b, attempts) && !IsRbfError(b.lastError)
    ensures var ending := Retry(c, b, attempts).1;
            (ending.Sent? && IsRbfError(ending.start.lastError)) <==>
            exists i :: DeliversAt(c, b, attempts, i) && RuleFailedBefore(c, b, attempts, i)
  {
    if Retry(c, b, attempts).1.Sent? {
      var i := SentIsDelivered(c, b, attempts);
      DeliveredIsSent(c, b, attempts, i);
      RuleErrorAtIff(c, b, attempts, i);
    }
    if i: nat :| DeliversAt(c, b, attempts, i) && RuleFailedBefore(c, b, attempts, i) {
      DeliveredIsSent(c, b, attempts, i);
      RuleErrorAtIff(c, b, attempts, i);
    }
  }

  /**
    Such a run: tx2 already pays what the current feerate asks for, so that funding has nothing to
    add. The first attempt fails rule 3 with the record as it was, and the second is sent with the
    adjusted fee of 600 in place of the plain 400.
   */
  lemma AdjustedFeeIsSent()
    ensures var tx := Tx([Coin(1, 1000)], Payload(1, 1), [0, 600]);
            var c, pool := Config(1.0, 0.5, 0.0, 0.0), map[tx := Entry(0.000004, 1, 400.0, 100)];
            var same, more := Funding([], None, Some(100)), Funding([Coin(2, 10000)], Some(9700), Some(120));
            var a0 := Attempt(4000, pool, Some(1.0), 100, NotInChain, Some(same), pool, Some(1.0), true, Acked);
            var b, a1 := Bumping(TxInfo(tx, tx, tx, 100, 100), None, map[tx := true]), a0.(funding := Some(more));
            var ending := Retry(c, b, [a0, a1]).1;
            && SaneRun(c, b, [a0, a1])
            && ending.Sent? && ending.start.lastError == Some(InsufficientFee)
            && FeeOf(c, ending.start, a1) == Some(600) && PlainFee(c, b.tx2, 4000) == 400
  {
    var tx := Tx([Coin(1, 1000)], Payload(1, 1), [0, 600]);
    var c, pool := Config(1.0, 0.5, 0.0, 0.0), map[tx := Entry(0.000004, 1, 400.0, 100)];
    var same, more := Funding([], None, Some(100)), Funding([Coin(2, 10000)], Some(9700), Some(120));
    var a0 := Attempt(4000, pool, Some(1.0), 100, NotInChain, Some(same), pool, Some(1.0), true, Acked);
    var b, a1 := Bumping(TxInfo(tx, tx, tx, 100, 100), None, map[tx := true]), a0.(funding := Some(more));
    SameFundingIsReturned(c, b, a0, tx);
    MoreFundingIsSent(c, b.(lastError := Some(InsufficientFee)), a1, tx);
    assert [a0, a1][1..] == [a1] && [a1][1..] == [];
  }

  lemma SameFundingIsReturned(c: Config, b: Bumping, a: Attempt, tx: Tx)
    requires tx == Tx([Coin(1, 1000)], Payload(1, 1), [0, 600]) && c == Config(1.0, 0.5, 0.0, 0.0)
    requires b == Bumping(TxInfo(tx, tx, tx, 100, 100), None, map[tx := true])
    requires a.pool == map[tx := Entry(0.000004, 1, 400.0, 100)] && a.feeRate == 4000 && a.minRelayFee == 100
    requires a.status.NotInChain? && a.funding == Some(Funding([], None, Some(100)))
    ensures PlainFee(c, b.tx2, 4000) == 400 && Sane(c, b, a)
    ensures OneRound(c, b, a) == (b.(lastError := Some(InsufficientFee)), None)
  {
    assert Scale(100, 1.0) == 100 by {
      assert (100.0 + 0.5).Floor == 100;
    }
    assert 400.0.Floor == 400;
    assert Fund(tx, a.funding.value) == tx;
    SumOfThree(tx.outputs);
    FundsOfTwo(tx.inputs);
  }

  lemma MoreFundingIsSent(c: Config, b: Bumping, a: Attempt, tx: Tx)
    requires tx == Tx([Coin(1, 1000)], Payload(1, 1), [0, 600]) && c == Config(1.0, 0.5, 0.0, 0.0)
    requires b == Bumping(TxInfo(tx, tx, tx, 100, 100), Some(InsufficientFee), map[tx := true])
    requires a.pool == a.poolBefore == map[tx := Entry(0.000004, 1, 400.0, 100)]
    requires a.feeRate == 4000 && a.minRelayFee == 100 && a.status.NotInChain? && a.signed && a.delivery.Acked?
    requires a.funding == Some(Funding([Coin(2, 10000)], Some(9700), Some(120))) && a.increment == Some(1.0)
    ensures FeeOf(c, b, a) == Some(600) && Sane(c, b, a) && OneRound(c, b, a).1 == Some(Sent(b, a))
  {
    assert Scale(400, 1.5) == 600 && Scale(100, 1.0) == 100 by {
      assert (600.0 + 0.5).Floor == 600 && (100.0 + 0.5).Floor == 100;
    }
    assert 400.0.Floor == 400 && 1.0.Floor == 1;
    var funded := Fund(tx, a.funding.value);
    assert funded.inputs == [Coin(1, 1000), Coin(2, 10000)] && funded.outputs == [0, 9700, 600];
    SumOfThree(funded.outputs);
    FundsOfTwo(funded.inputs);
    assert Paid(funded) == 700;
  }

  lemma SumOfThree(s: seq<int>)
    requires 2 <= |s| <= 3
    ensures Sum(s) == s[0] + s[1] + if |s| == 3 then s[2] else 0
  {
    assert s[1..][1..] == s[2..] && Sum(s[1..]) == s[1] + Sum(s[2..]);
    if |s| == 3 {
      assert s[2..][1..] == [] && Sum(s[2..]) == s[2];
    }
  }

  lemma FundsOfTwo(s: seq<OutPoint>)
    requires 1 <= |s| <= 2
    ensures Funds(s) == Value(s[0]) + if |s| == 2 then Value(s[1]) else 0
  {
    if |s| == 2 {
      assert s[1..][1..] == [] && Funds(s[1..]) == Value(s[1]);
    }
  }

  // ---- Why a changed transaction is new ----

  /** `t` came out of `s` by bumping: more inputs, or else more outputs, or else less change. */
  predicate Later(t: Tx, s: Tx) {
    && s.inputs <= t.inputs
    && (|t.inputs| == |s.inputs| ==>
          || |t.outputs| > |s.outputs|
          || (|t.outputs| == |s.outputs| && Sum(t.outputs) < Sum(s.outputs)))
  }

  lemma LaterIsTransitive(u: Tx, t: Tx, s: Tx)
    requires Later(u, t) && Later(t, s)
    ensures Later(u, s) && u != s
  {
  }

  /**
    No transaction comes back: over any run of retries the record is where it was or strictly
    later. So a changed transaction differs from every one this record held before.
   */
  lemma {:induction false} RecordMovesOn(c: Config, b: Bumping, attempts: seq<Attempt>)
    requires b.tx2.fee >= 0
    ensures var r := Retry(c, b, attempts).0; r.tx2.tx == b.tx2.tx || Later(r.tx2.tx, b.tx2.tx)
    decreases |attempts|
  {
    if attempts != [] {
      var (r, stop) := OneRound(c, b, attempts[0]);
      RoundMovesOn(c, b, attempts[0]);
      if stop.None? {
        RecordMovesOn(c, r, attempts[1..]);
        var u := Retry(c, r, attempts[1..]).0.tx2.tx;
        if Later(u, r.tx2.tx) && Later(r.tx2.tx, b.tx2.tx) {
          LaterIsTransitive(u, r.tx2.tx, b.tx2.tx);
        }
      }
    }
  }

  lemma ResendMovesOn(tx2: TxInfo, fee: int, a: Attempt, sent: Log)
    requires fee >= 0
    ensures var r := Resend(tx2, fee, a, sent).0; r.tx == tx2.tx || Later(r.tx, tx2.tx)
  {
    if |tx2.tx.outputs| > CHANGE && a.status.NotInChain? {
      if !NeedsFunding(tx2.tx, fee) {
        InPlaceAttempt(tx2, fee, a, sent);
        if fee == 0 {
          assert LowerChange(tx2.tx, 0).outputs == tx2.tx.outputs;
        }
      } else if a.funding.Some? {
        var f := a.funding.value;
        assert f.inputs == [] ==> Fund(tx2.tx, f).inputs == tx2.tx.inputs;
      }
    }
  }

  lemma RoundMovesOn(c: Config, b: Bumping, a: Attempt)
    requires b.tx2.fee >= 0
    ensures var (r, stop) := OneRound(c, b, a);
            && (r.tx2.tx == b.tx2.tx || Later(r.tx2.tx, b.tx2.tx))
            && (stop.None? ==> r.tx2.fee == b.tx2.fee)
  {
    var fee := FeeOf(c, b, a);
    if fee.Some? && WorthIt(b.tx2, fee.value, a) {
      ResendMovesOn(b.tx2, fee.value, a, b.sent);
    }
  }

  /** The signatures in the record are its own, or those of a transaction it came out of. */
  predicate OldWitness(tx2: TxInfo) {
    tx2.tx == tx2.signedAs || Later(tx2.tx, tx2.signedAs)
  }

  lemma ResendKeepsWitness(tx2: TxInfo, fee: int, a: Attempt, sent: Log)
    requires tx2.fee >= 0 && fee >= 0 && (a.funding.Some? ==> Paid(Fund(tx2.tx, a.funding.value)) >= 0)
    ensures var r := Resend(tx2, fee, a, sent).0; r.fee >= 0 && r.signedAs == tx2.signedAs
  {
  }

  lemma LaterKeepsOldWitness(tx2: TxInfo, r: TxInfo)
    requires OldWitness(tx2) && r.signedAs == tx2.signedAs && (r.tx == tx2.tx || Later(r.tx, tx2.tx))
    ensures OldWitness(r)
  {
    if r.tx != tx2.tx && tx2.tx != tx2.signedAs {
      LaterIsTransitive(r.tx, tx2.tx, tx2.signedAs);
    }
  }

  lemma RoundKeepsWitness(c: Config, b: Bumping, a: Attempt)
    requires b.tx2.fee >= 0 && OldWitness(b.tx2) && Sane(c, b, a)
    ensures var r := OneRound(c, b, a).0.tx2; r.fee >= 0 && OldWitness(r) && r.signedAs == b.tx2.signedAs
  {
    var fee := FeeOf(c, b, a);
    if fee.Some? && WorthIt(b.tx2, fee.value, a) {
      ResendKeepsWitness(b.tx2, fee.value, a, b.sent);
      ResendMovesOn(b.tx2, fee.value, a, b.sent);
      LaterKeepsOldWitness(b.tx2, Resend(b.tx2, fee.value, a, b.sent).0);
    }
  }

  /**
    The record is left with the signatures it had. So after a run of retries they are its own if and
    only if they were before and no attempt has changed the transaction.
   */
  lemma {:induction false} RetryWitnessIff(c: Config, b: Bumping, attempts: seq<Attempt>)
    requires b.tx2.fee >= 0 && OldWitness(b.tx2) && SaneRun(c, b, attempts)
    ensures var r := Retry(c, b, attempts).0.tx2;
            && r.fee >= 0 && OldWitness(r)
            && (r.signedAs == r.tx <==> b.tx2.signedAs == b.tx2.tx && r.tx == b.tx2.tx)
    decreases |attempts|
  {
    var r := Retry(c, b, attempts).0.tx2;
    RetryKeepsWitness(c, b, attempts);
    RecordMovesOn(c, b, attempts);
    if r.tx != b.tx2.tx && b.tx2.tx != b.tx2.signedAs {
      LaterIsTransitive(r.tx, b.tx2.tx, b.tx2.signedAs);
    }
  }

  lemma {:induction false} RetryKeepsWitness(c: Config, b: Bumping, attempts: seq<Attempt>)
    requires b.tx2.fee >= 0 && OldWitness(b.tx2) && SaneRun(c, b, attempts)
    ensures var r := Retry(c, b, attempts).0.tx2; r.fee >= 0 && OldWitness(r) && r.signedAs == b.tx2.signedAs
    decreases |attempts|
  {
    if attempts != [] {
      RoundKeepsWitness(c, b, attempts[0]);
      var (r, stop) := OneRound(c, b, attempts[0]);
      if stop.None? {
        RetryKeepsWitness(c, r, attempts[1..]);
      }
    }
  }

  /** Bumping keeps the data and the inputs, and forgets no broadcast and no report. */
  predicate KeepsPayload(b: Bumping, r: Bumping) {
    && r.tx2.tx.payload == b.tx2.tx.payload && b.tx2.tx.inputs <= r.tx2.tx.inputs
    && (forall t :: t in b.sent ==> t in r.sent && (b.sent[t] ==> r.sent[t]))
  }

  lemma ResendKeepsPayload(tx2: TxInfo, fee: int, a: Attempt, sent: Log)
    ensures var (r, log, _) := Resend(tx2, fee, a, sent);
            && r.tx.payload == tx2.tx.payload && tx2.tx.inputs <= r.tx.inputs
            && (forall t :: t in sent ==> t in log && (sent[t] ==> log[t]))
  {
  }

  lemma RoundKeepsPayload(c: Config, b: Bumping, a: Attempt)
    ensures KeepsPayload(b, OneRound(c, b, a).0)
  {
    var fee := FeeOf(c, b, a);
    if fee.Some? {
      ResendKeepsPayload(b.tx2, fee.value, a, b.sent);
    }
  }

  lemma {:induction false} RetryKeepsPayload(c: Config, b: Bumping, attempts: seq<Attempt>)
    ensures KeepsPayload(b, Retry(c, b, attempts).0)
    decreases |attempts|
  {
    if attempts != [] {
      RoundKeepsPayload(c, b, attempts[0]);
      var (r, stop) := OneRound(c, b, attempts[0]);
      if stop.None? {
        RetryKeepsPayload(c, r, attempts[1..]);
      }
    }
  }

  // ---- Accounts ----

  /** A record that does not claim more fees than its transaction pays. */
  predicate Honest(t: TxInfo) {
    t.fee <= Paid(t.tx)
  }

  predicate Solvent(t: TxInfo) {
    0 <= t.fee && 0 <= Paid(t.tx)
  }

  lemma ResendKeepsAccounts(tx2: TxInfo, fee: int, a: Attempt, sent: Log)
    requires Solvent(tx2) && fee >= 0 && (a.funding.Some? ==> Paid(Fund(tx2.tx, a.funding.value)) >= 0)
    ensures var (r, _, v) := Resend(tx2, fee, a, sent);
            && Solvent(r) && (v.Resent? ==> Honest(r))
            && tx2.tx.inputs <= r.tx.inputs && r.tx.payload == tx2.tx.payload
  {
    if |tx2.tx.outputs| > CHANGE && a.status.NotInChain? && !NeedsFunding(tx2.tx, fee) {
      InPlaceAttempt(tx2, fee, a, sent);
    }
  }

  lemma RoundKeepsAccounts(c: Config, b: Bumping, a: Attempt)
    requires Sane(c, b, a) && Solvent(b.tx2)
    ensures var (r, stop) := OneRound(c, b, a);
            && Solvent(r.tx2)
            && (stop.Some? && stop.value.Sent? ==> Honest(r.tx2))
            && b.tx2.tx.inputs <= r.tx2.tx.inputs && r.tx2.tx.payload == b.tx2.tx.payload
  {
    var fee := FeeOf(c, b, a);
    if fee.Some? && WorthIt(b.tx2, fee.value, a) {
      ResendKeepsAccounts(b.tx2, fee.value, a, b.sent);
    }
  }

  /**
    Over any run of retries, sent or failed, in place or newly funded, the transaction stays
    solvent and the checkpoint it carries and the outputs it spends stay; and a replacement that
    was sent never records more fee than it pays.
   */
  lemma {:induction false} RetriesKeepAccounts(c: Config, b: Bumping, attempts: seq<Attempt>)
    requires SaneRun(c, b, attempts) && Solvent(b.tx2)
    ensures var (r, ending) := Retry(c, b, attempts);
            && Solvent(r.tx2)
            && (ending.Sent? ==> Honest(r.tx2))
            && b.tx2.tx.inputs <= r.tx2.tx.inputs && r.tx2.tx.payload == b.tx2.tx.payload
    decreases |attempts|
  {
    if attempts != [] {
      RoundKeepsAccounts(c, b, attempts[0]);
      var (r, stop) := OneRound(c, b, attempts[0]);
      if stop.None? {
        RetriesKeepAccounts(c, r, attempts[1..]);
      }
    }
  }

  /** `t` differs from `s` in the value of the change alone. */
  predicate InPlace(s: Tx, t: Tx) {
    t.inputs == s.inputs && |t.outputs| == |s.outputs| && t != s
  }

  lemma FundingIsNotInPlace(tx: Tx, f: Funding)
    requires |tx.outputs| > 0
    ensures !InPlace(tx, Fund(tx, f))
  {
    assert |Fund(tx, f).inputs| == |tx.inputs| + |f.inputs|;
    assert f.change.Some? ==> |Fund(tx, f).outputs| == |tx.outputs| + 1;
    assert f.inputs == [] ==> Fund(tx, f).inputs == tx.inputs;
  }

  lemma ResendRecordsFee(tx2: TxInfo, fee: int, a: Attempt, sent: Log)
    ensures var (r, _, v) := Resend(tx2, fee, a, sent);
            if v.Resent? then InPlace(tx2.tx, r.tx) ==> r.fee == fee else r.fee == tx2.fee && r.txid == tx2.txid
  {
    if a.funding.Some? && |tx2.tx.outputs| > 0 {
      FundingIsNotInPlace(tx2.tx, a.funding.value);
    }
  }

  lemma RoundRecordsFee(c: Config, b: Bumping, a: Attempt)
    ensures var (r, stop) := OneRound(c, b, a);
            if stop == Some(Sent(b, a)) then InPlace(b.tx2.tx, r.tx2.tx) ==> r.tx2.fee >= b.tx2.fee + a.minRelayFee
            else r.tx2.fee == b.tx2.fee && r.tx2.txid == b.tx2.txid && (stop.Some? ==> stop.value.Skipped?)
  {
    var fee := FeeOf(c, b, a);
    if fee.Some? {
      ResendRecordsFee(b.tx2, fee.value, a, b.sent);
    }
  }

  /**
    Over a run of retries the recorded fee and id change only when a replacement is sent; one that
    was bumped in place then records at least the old fee plus the minimum relay fee.
   */
  lemma {:induction false} RetryRecordsFee(c: Config, b: Bumping, attempts: seq<Attempt>)
    ensures var (r, ending) := Retry(c, b, attempts);
            if ending.Sent? then
              && ending.start.tx2.fee == b.tx2.fee && ending.start.tx2.txid == b.tx2.txid
              && (InPlace(ending.start.tx2.tx, r.tx2.tx) ==> r.tx2.fee >= b.tx2.fee + ending.answers.minRelayFee)
            else r.tx2.fee == b.tx2.fee && r.tx2.txid == b.tx2.txid
    decreases |attempts|
  {
    if attempts != [] {
      RoundRecordsFee(c, b, attempts[0]);
      var (r, stop) := OneRound(c, b, attempts[0]);
      if stop.None? {
        RetryRecordsFee(c, r, attempts[1..]);
      }
    }
  }

  /** All attempts of a run find enough change to bump in place. */
  predicate InPlaceRun(c: Config, b: Bumping, attempts: seq<Attempt>)
    decreases |attempts|
  {
    attempts == [] ||
    (var fee := FeeOf(c, b, attempts[0]);
     var (r, stop) := OneRound(c, b, attempts[0]);
     && (fee.Some? && |b.tx2.tx.outputs| > CHANGE ==> !NeedsFunding(b.tx2.tx, fee.value))
     && (stop.Some? || InPlaceRun(c, r, attempts[1..])))
  }

  /**
    When every attempt is in place, also the failed ones keep the record honest, and a replacement
    that is sent records at least the old fee plus the minimum relay fee of its attempt.
   */
  lemma {:induction false} InPlaceRunRaisesFee(c: Config, b: Bumping, attempts: seq<Attempt>, minRelay: nat)
    requires SaneRun(c, b, attempts) && InPlaceRun(c, b, attempts)
    requires Solvent(b.tx2) && Honest(b.tx2)
    requires forall i :: 0 <= i < |attempts| ==> attempts[i].minRelayFee >= minRelay
    ensures var (r, ending) := Retry(c, b, attempts);
            && Honest(r.tx2) && Paid(r.tx2.tx) >= Paid(b.tx2.tx)
            && r.tx2.fee >= (if ending.Sent? then b.tx2.fee + minRelay else b.tx2.fee)
    decreases |attempts|
  {
    if attempts != [] {
      var a, tx2 := attempts[0], b.tx2;
      RoundKeepsAccounts(c, b, a);
      var fee := FeeOf(c, b, a);
      if fee.Some? && WorthIt(tx2, fee.value, a) && |tx2.tx.outputs| > CHANGE && a.status.NotInChain? {
        InPlaceAttempt(tx2, fee.value, a, b.sent);
      }
      var (r, stop) := OneRound(c, b, a);
      if stop.None? {
        assert r.tx2.fee == tx2.fee;
        InPlaceRunRaisesFee(c, r, attempts[1..], minRelay);
      }
    }
  }
}
