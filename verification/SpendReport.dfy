/**
  btcstaking-tracker/stakingeventwatcher/stakingeventwatcher.go: what happens when a staking output
  was spent. The answers of Bitcoin and Babylon are scripts; a script that ends while a retry loop
  is still running is a cancelled context.
 */
module SpendReport {
  import opened Wrappers

  type Hash = nat
  type Proof = nat

  datatype Output = Output(value: nat, pkScript: seq<nat>)
  datatype Input = Input(prevHash: Hash, prevIndex: nat, witnessStack: seq<seq<nat>>)
  datatype Tx = Tx(inputs: seq<Input>, outputs: seq<Output>)
  datatype Delegation = Delegation(stakingHash: Hash, stakingOutputIdx: nat, unbondingOutput: Output)

  // ---- Recognising an unbonding transaction ----

  datatype SpendPath = Unbonding(signature: seq<nat>) | NotUnbonding | TimelockPath

  predicate Spends(i: Input, td: Delegation) {
    i.prevHash == td.stakingHash && i.prevIndex == td.stakingOutputIdx
  }

  /** The first input that spends the staking output. */
  predicate IsStakingInput(tx: Tx, td: Delegation, n: nat) {
    n < |tx.inputs| && Spends(tx.inputs[n], td) && forall j :: 0 <= j < n ==> !Spends(tx.inputs[j], td)
  }

  predicate PaysUnbondingOutput(tx: Tx, td: Delegation) {
    |tx.outputs| == 1 && tx.outputs[0] == td.unbondingOutput
  }

  /** Only a transaction that looks like the unbonding transaction can be told to take the timelock path. */
  predicate TakesTimelock(tx: Tx, td: Delegation) {
    && PaysUnbondingOutput(tx, td)
    && exists n :: 0 <= n < |tx.inputs| && IsStakingInput(tx, td, n) && |tx.inputs[n].witnessStack| < 4
  }

  /** `getStakingTxInputIdx` */
  method GetStakingTxInputIdx(tx: Tx, td: Delegation) returns (r: Option<nat>)
    ensures r.Some? ==> IsStakingInput(tx, td, r.value)
    ensures r.None? ==> forall i :: 0 <= i < |tx.inputs| ==> !Spends(tx.inputs[i], td)
  {
    for i := 0 to |tx.inputs|
      invariant forall j :: 0 <= j < i ==> !Spends(tx.inputs[j], td)
    {
      if Spends(tx.inputs[i], td) {
        return Some(i);
      }
    }
    return None;
  }

  /** `tryParseStakerSignatureFromSpentTx`; `wellFormed` stands for the Schnorr signature parser. */
  method TryParseStakerSignature(tx: Tx, td: Delegation, wellFormed: seq<nat> -> bool) returns (path: SpendPath)
    ensures path.TimelockPath? <==> TakesTimelock(tx, td)
    ensures forall sig :: path == Unbonding(sig) <==>
      && PaysUnbondingOutput(tx, td) && wellFormed(sig)
      && exists n ::
           && 0 <= n < |tx.inputs| && IsStakingInput(tx, td, n)
           && var w := tx.inputs[n].witnessStack; |w| >= 4 && w[|w| - 3] == sig
  {
    if |tx.outputs| != 1 {
      return NotUnbonding;
    }
    if tx.outputs[0].value != td.unbondingOutput.value || tx.outputs[0].pkScript != td.unbondingOutput.pkScript {
      return NotUnbonding;
    }
    var idx := GetStakingTxInputIdx(tx, td);
    if idx.None? {
      return NotUnbonding;
    }
    var w := tx.inputs[idx.value].witnessStack;
    if |w| < 4 {
      return TimelockPath;
    }
    return if wellFormed(w[|w| - 3]) then Unbonding(w[|w| - 3]) else NotUnbonding;
  }

  // ---- Answers and observations ----

  datatype Child = Child(isStakeExpansion: bool, isUnbonded: bool)
  datatype RawTx = RawTxFailed | RawTx(blockHashParses: bool)
  /** A failing child query is `child == None`, a failing depth query is `depth == None`. */
  datatype DepthPoll = DepthPoll(child: Option<bool>, depth: Option<nat>)
  datatype ProofPoll = ProofFailed | NotInChain | Built(proof: Proof)
  datatype Attempt = Attempt(active: Option<bool>, verified: Option<bool>, funding: bool, accepted: bool)

  datatype Answers = Answers(
    expansion: Option<Child>,
    rawTxs: seq<RawTx>,
    depths: seq<DepthPoll>,
    proofs: seq<ProofPoll>,
    attempts: seq<Attempt>
  )

  /** What a handler sees and does, in order. `Removal` hands the delegation to the removal channel. */
  datatype Obs =
    | LiveExpansion
    | ChildUnbonded
    | Depth(depth: nat)
    | Proved(proof: Proof)
    | Status(active: bool, verified: bool)
    | QueryFailed
    | Report(reported: Proof)
    | Removal
    | Panic

  const RAW_TX_ATTEMPTS := 5
  const DEPTH_ATTEMPTS := 20

  predicate IsLive(a: Answers) {
    a.expansion.Some? && a.expansion.value.isStakeExpansion && !a.expansion.value.isUnbonded
  }

  /** The inclusion block of a live expansion is found within the attempts there are. */
  predicate Located(rawTxs: seq<RawTx>) {
    exists i ::
      && 0 <= i < |rawTxs| && i < 5 && rawTxs[i] == RawTx(true)
      && forall j :: 0 <= j < i ==> rawTxs[j].RawTxFailed?
  }

  method LocateInclusion(rawTxs: seq<RawTx>) returns (ok: bool)
    ensures ok <==> Located(rawTxs)
  {
    var i := 0;
    while i < |rawTxs| && i < RAW_TX_ATTEMPTS && rawTxs[i].RawTxFailed?
      invariant 0 <= i <= |rawTxs| && i <= RAW_TX_ATTEMPTS
      invariant forall j :: 0 <= j < i ==> rawTxs[j].RawTxFailed?
    {
      i := i + 1;
    }
    ok := i < |rawTxs| && i < RAW_TX_ATTEMPTS && rawTxs[i].blockHashParses;
    if i < |rawTxs| && i < RAW_TX_ATTEMPTS {
      assert rawTxs[i] != RawTxFailed;
    }
  }

  // ---- Waiting for depth ----

  /** What lets a live expansion through. */
  predicate Passes(o: Obs, k: nat) {
    o.ChildUnbonded? || (o.Depth? && o.depth >= k)
  }

  function DepthObs(p: DepthPoll): Obs {
    if p.child == Some(true) then ChildUnbonded else if p.depth.None? then QueryFailed else Depth(p.depth.value)
  }

  function DepthTrace(polls: seq<DepthPoll>, k: nat, attempts: nat): seq<Obs> {
    if polls == [] || attempts == 0 then []
    else if Passes(DepthObs(polls[0]), k) then [DepthObs(polls[0])]
    else [DepthObs(polls[0])] + DepthTrace(polls[1..], k, attempts - 1)
  }

  /** The child was unbonded, or the depth was read and is at least `k`. */
  predicate Suffices(p: DepthPoll, k: nat) {
    p.child == Some(true) || (p.depth.Some? && p.depth.value >= k)
  }

  /** Some poll that is still made suffices. */
  predicate DeepEnough(polls: seq<DepthPoll>, k: nat, attempts: nat) {
    exists i :: 0 <= i < |polls| && i < attempts && Suffices(polls[i], k)
  }

  lemma {:induction false} DepthTraceEnds(polls: seq<DepthPoll>, k: nat, attempts: nat)
    ensures var t := DepthTrace(polls, k, attempts);
            && |t| <= attempts
            && (forall i :: 0 <= i < |t| ==> t[i].ChildUnbonded? || t[i].Depth? || t[i].QueryFailed?)
            && (DeepEnough(polls, k, attempts) <==> t != [] && Passes(t[|t| - 1], k))
  {
    if polls != [] && attempts > 0 && !Passes(DepthObs(polls[0]), k) {
      DepthTraceEnds(polls[1..], k, attempts - 1);
      if DeepEnough(polls, k, attempts) {
        var i :| 0 <= i < |polls| && i < attempts && Suffices(polls[i], k);
        assert polls[1..][i - 1] == polls[i];
      }
      if DeepEnough(polls[1..], k, attempts - 1) {
        var i :| 0 <= i < |polls[1..]| && i < attempts - 1 && Suffices(polls[1..][i], k);
        assert polls[1..][i] == polls[i + 1];
      }
    }
  }

  lemma DepthTraceStep(done: seq<Obs>, polls: seq<DepthPoll>, k: nat, attempts: nat, i: nat)
    requires i < |polls| && attempts > 0
    ensures var o := DepthObs(polls[i]);
            done + DepthTrace(polls[i..], k, attempts) ==
            done + [o] + if Passes(o, k) then [] else DepthTrace(polls[i + 1..], k, attempts - 1)
  {
    assert polls[i..][1..] == polls[i + 1..];
  }

  /** One attempt: the check of the child, then the depth query. */
  method PollDepth(p: DepthPoll, k: nat) returns (ok: bool, o: Obs)
    ensures o == DepthObs(p) && (ok <==> Passes(o, k)) && (ok <==> Suffices(p, k))
  {
    if p.child.Some? && p.child.value {
      return true, ChildUnbonded;
    }
    if p.depth.None? {
      return false, QueryFailed;
    }
    return p.depth.value >= k, Depth(p.depth.value);
  }

  /** `waitForRequiredDepth` */
  method WaitForRequiredDepth(polls: seq<DepthPoll>, k: nat) returns (ok: bool, t: seq<Obs>)
    ensures ok <==> exists i :: 0 <= i < |polls| && i < 20 && Suffices(polls[i], k)
    ensures t == DepthTrace(polls, k, 20)
  {
    t, ok := [], false;
    var i := 0;
    while i < |polls| && i < DEPTH_ATTEMPTS && !ok
      invariant 0 <= i <= |polls| && i <= DEPTH_ATTEMPTS
      invariant t + (if ok then [] else DepthTrace(polls[i..], k, DEPTH_ATTEMPTS - i))
                == DepthTrace(polls, k, DEPTH_ATTEMPTS)
      invariant if ok then i > 0 && Suffices(polls[i - 1], k) else forall j :: 0 <= j < i ==> !Suffices(polls[j], k)
    {
      DepthTraceStep(t, polls, k, DEPTH_ATTEMPTS - i, i);
      var o;
      ok, o := PollDepth(polls[i], k);
      t := t + [o];
      i := i + 1;
    }
  }

  // ---- Waiting for the proof ----

  function ProofTrace(polls: seq<ProofPoll>): seq<Obs> {
    if polls == [] then []
    else if polls[0].Built? then [Proved(polls[0].proof)]
    else [QueryFailed] + ProofTrace(polls[1..])
  }

  /** The first proof that gets built, if any does before the context ends. */
  function BuiltProof(polls: seq<ProofPoll>): Option<Proof> {
    if polls == [] then None
    else if polls[0].Built? then Some(polls[0].proof)
    else BuiltProof(polls[1..])
  }

  lemma {:induction false} ProofTraceEnds(polls: seq<ProofPoll>)
    ensures var t, p := ProofTrace(polls), BuiltProof(polls);
            && (forall i :: 0 <= i < |t| ==> t[i].Proved? || t[i].QueryFailed?)
            && (p.Some? ==> Proved(p.value) in t)
  {
    if polls != [] && !polls[0].Built? {
      ProofTraceEnds(polls[1..]);
      assert ProofTrace(polls) == [QueryFailed] + ProofTrace(polls[1..]);
    }
  }

  lemma {:induction false} BuiltProofIff(polls: seq<ProofPoll>)
    ensures BuiltProof(polls).Some? <==> exists i :: 0 <= i < |polls| && polls[i].Built?
  {
    if polls != [] && !polls[0].Built? {
      BuiltProofIff(polls[1..]);
      if i :| 0 <= i < |polls| && polls[i].Built? {
        assert polls[1..][i - 1] == polls[i];
      }
    }
  }

  /** `waitForStakeSpendInclusionProof`; a transaction without outputs panics at the first poll. */
  method WaitForInclusionProof(tx: Tx, polls: seq<ProofPoll>) returns (panicked: bool, r: Option<Proof>, t: seq<Obs>)
    ensures panicked <==> tx.outputs == [] && polls != []
    ensures panicked ==> t == [Panic]
    ensures !panicked ==> r == BuiltProof(polls) && t == ProofTrace(polls)
  {
    t := [];
    var i := 0;
    while i < |polls|
      invariant 0 <= i <= |polls| && (i > 0 ==> tx.outputs != [])
      invariant t + ProofTrace(polls[i..]) == ProofTrace(polls) && BuiltProof(polls[i..]) == BuiltProof(polls)
      invariant i == 0 ==> t == []
    {
      if tx.outputs == [] {
        return true, None, [Panic];
      }
      assert polls[i..][1..] == polls[i + 1..];
      if polls[i].Built? {
        return false, Some(polls[i].proof), t + [Proved(polls[i].proof)];
      }
      t := t + [QueryFailed];
      i := i + 1;
    }
    panicked, r := false, None;
  }

  // ---- Reporting ----

  /** Babylon no longer wants the report. */
  predicate GivesUp(a: Attempt) {
    a.active == Some(false) && a.verified == Some(false)
  }

  predicate Reports(a: Attempt) {
    a.active.Some? && a.verified.Some? && !GivesUp(a) && a.funding
  }

  function AttemptTrace(a: Attempt, proof: Proof): seq<Obs> {
    if a.active.None? || a.verified.None? then [QueryFailed]
    else
      [Status(a.active.value, a.verified.value)] +
      if GivesUp(a) then [] else if a.funding then [Report(proof)] else [QueryFailed]
  }

  function ReportTrace(attempts: seq<Attempt>, proof: Proof): seq<Obs> {
    if attempts == [] then []
    else if GivesUp(attempts[0]) || (Reports(attempts[0]) && attempts[0].accepted) then AttemptTrace(attempts[0], proof)
    else AttemptTrace(attempts[0], proof) + ReportTrace(attempts[1..], proof)
  }

  lemma {:induction false} ReportTraceShape(attempts: seq<Attempt>, proof: Proof, n: nat)
    requires n < |ReportTrace(attempts, proof)|
    ensures var t := ReportTrace(attempts, proof);
            && (t[n].Status? || t[n].QueryFailed? || t[n] == Report(proof))
            && (t[n].Report? ==> n > 0 && t[n - 1].Status? && (t[n - 1].active || t[n - 1].verified))
  {
    var first := AttemptTrace(attempts[0], proof);
    if n >= |first| {
      ReportTraceShape(attempts[1..], proof, n - |first|);
    }
  }

  /** Both status queries succeeded, with these answers. */
  predicate Answered(a: Attempt, active: bool, verified: bool) {
    a.active == Some(active) && a.verified == Some(verified)
  }

  /** The delegation was seen active or verified, and the funding transactions were fetched. */
  predicate Reportable(a: Attempt) {
    (Answered(a, true, true) || Answered(a, true, false) || Answered(a, false, true)) && a.funding
  }

  /** A report is made exactly when some attempt gets that far before an earlier one saw neither. */
  predicate EverReports(attempts: seq<Attempt>) {
    exists i ::
      && 0 <= i < |attempts| && Reportable(attempts[i])
      && forall j :: 0 <= j < i ==> !Answered(attempts[j], false, false)
  }

  lemma ReportsIff(a: Attempt)
    ensures Reports(a) <==> Reportable(a)
    ensures GivesUp(a) <==> Answered(a, false, false)
  {
    if a.active.Some? && a.verified.Some? {
      assert Answered(a, a.active.value, a.verified.value);
      assert a.active.value == true || a.active.value == false;
    }
  }

  lemma {:induction false} ReportTraceReports(attempts: seq<Attempt>, proof: Proof)
    ensures Report(proof) in ReportTrace(attempts, proof) <==> EverReports(attempts)
  {
    if attempts != [] {
      var a, rest := attempts[0], attempts[1..];
      ReportTraceReports(rest, proof);
      ReportsIff(a);
      assert Report(proof) in AttemptTrace(a, proof) <==> Reports(a);
      if EverReports(attempts) && !Reports(a) {
        var i :|
          && 0 <= i < |attempts| && Reportable(attempts[i])
          && forall j :: 0 <= j < i ==> !Answered(attempts[j], false, false);
        assert rest[i - 1] == attempts[i];
        assert !Answered(attempts[0], false, false);
        forall j | 0 <= j < i - 1 ensures !Answered(rest[j], false, false) {
          assert rest[j] == attempts[j + 1];
        }
        assert EverReports(rest);
      }
      if EverReports(rest) && !GivesUp(a) {
        var i :|
          && 0 <= i < |rest| && Reportable(rest[i])
          && forall j :: 0 <= j < i ==> !Answered(rest[j], false, false);
        assert rest[i] == attempts[i + 1];
        forall j | 0 <= j < i + 1 ensures !Answered(attempts[j], false, false) {
          if j > 0 {
            assert rest[j - 1] == attempts[j];
          }
        }
      }
    }
  }

  lemma ReportTraceStep(done: seq<Obs>, attempts: seq<Attempt>, proof: Proof, i: nat)
    requires i < |attempts|
    ensures var a := attempts[i];
            done + ReportTrace(attempts[i..], proof) ==
            done + AttemptTrace(a, proof) +
            if GivesUp(a) || (Reports(a) && a.accepted) then [] else ReportTrace(attempts[i + 1..], proof)
  {
    assert attempts[i..][1..] == attempts[i + 1..];
  }

  /** One attempt; `again` is the error that makes `retry.Do` go on. */
  method TryReport(a: Attempt, proof: Proof) returns (again: bool, t: seq<Obs>)
    ensures t == AttemptTrace(a, proof)
    ensures Report(proof) in t <==>
      a.active.Some? && a.verified.Some? && (a.active.value || a.verified.value) && a.funding
    ensures !again && Report(proof) !in t <==>
      a.active.Some? && a.verified.Some? && !a.active.value && !a.verified.value
    ensures again && Report(proof) in t <==> Report(proof) in t && !a.accepted
    ensures again <==> !GivesUp(a) && !(Reports(a) && a.accepted)
  {
    if a.active.None? || a.verified.None? {
      return true, [QueryFailed];
    }
    t := [Status(a.active.value, a.verified.value)];
    if !a.active.value && !a.verified.value {
      return false, t;
    }
    if !a.funding {
      return true, t + [QueryFailed];
    }
    return !a.accepted, t + [Report(proof)];
  }

  /** `reportUnbondingToBabylon` */
  method ReportUnbondingToBabylon(attempts: seq<Attempt>, proof: Proof) returns (t: seq<Obs>)
    ensures t == ReportTrace(attempts, proof)
  {
    t := [];
    var i, again := 0, true;
    while i < |attempts| && again
      invariant 0 <= i <= |attempts|
      invariant t + (if again then ReportTrace(attempts[i..], proof) else []) == ReportTrace(attempts, proof)
    {
      ReportTraceStep(t, attempts, proof, i);
      var seen;
      again, seen := TryReport(attempts[i], proof);
      t := t + seen;
      i := i + 1;
    }
  }

  // ---- The handler ----

  /** The handler gets past the wait for a live expansion. */
  predicate GoesOn(a: Answers, k: nat) {
    IsLive(a) ==> Located(a.rawTxs) && DeepEnough(a.depths, k, 20)
  }

  function ExpansionTrace(a: Answers, k: nat): seq<Obs> {
    if !IsLive(a) then []
    else [LiveExpansion] + if Located(a.rawTxs) then DepthTrace(a.depths, k, DEPTH_ATTEMPTS) else []
  }

  function ProofAndReportTrace(tx: Tx, a: Answers): seq<Obs> {
    if tx.outputs == [] && a.proofs != [] then [Panic]
    else if BuiltProof(a.proofs).None? then ProofTrace(a.proofs)
    else ProofTrace(a.proofs) + ReportTrace(a.attempts, BuiltProof(a.proofs).value) + [Removal]
  }

  function SpendTrace(tx: Tx, td: Delegation, a: Answers, k: nat): seq<Obs> {
    ExpansionTrace(a, k) +
    if !GoesOn(a, k) then [] else if TakesTimelock(tx, td) then [Removal] else ProofAndReportTrace(tx, a)
  }

  /** `handleSpend` */
  method HandleSpend(tx: Tx, td: Delegation, wellFormed: seq<nat> -> bool, a: Answers, k: nat) returns (t: seq<Obs>)
    ensures t == SpendTrace(tx, td, a, k)
  {
    t := [];
    var path := TryParseStakerSignature(tx, td, wellFormed);
    if a.expansion.Some? && a.expansion.value.isStakeExpansion && !a.expansion.value.isUnbonded {
      t := [LiveExpansion];
      var located := LocateInclusion(a.rawTxs);
      if !located {
        return;
      }
      var ok, waited := WaitForRequiredDepth(a.depths, k);
      t := t + waited;
      if !ok {
        return;
      }
    }
    assert t == ExpansionTrace(a, k);
    if path == TimelockPath {
      t := t + [Removal];
      return;
    }
    var panicked, r, proved := WaitForInclusionProof(tx, a.proofs);
    if panicked || r.None? {
      t := t + proved;
      return;
    }
    var reported := ReportUnbondingToBabylon(a.attempts, r.value);
    t := t + (proved + reported + [Removal]);
  }

  // ---- What every handler run does ----

  lemma ExpansionTraceIsQuiet(a: Answers, k: nat)
    ensures var t := ExpansionTrace(a, k); forall i :: 0 <= i < |t| ==> !t[i].Report? && !t[i].Removal? && !t[i].Panic?
    ensures IsLive(a) && GoesOn(a, k) ==>
      var t := ExpansionTrace(a, k); |t| > 1 && t[0] == LiveExpansion && Passes(t[|t| - 1], k)
    ensures !IsLive(a) ==> LiveExpansion !in ExpansionTrace(a, k)
  {
    DepthTraceEnds(a.depths, k, DEPTH_ATTEMPTS);
  }

  predicate GoodAt(t: seq<Obs>, n: nat)
    requires n < |t|
  {
    && !t[n].LiveExpansion?
    && (t[n].Removal? ==> n == |t| - 1)
    && (t[n].Report? ==>
          && n > 0 && t[n - 1].Status? && (t[n - 1].active || t[n - 1].verified)
          && Proved(t[n].reported) in t[..n])
  }

  lemma ProofThenReports(polls: seq<ProofPoll>, attempts: seq<Attempt>, n: nat)
    requires BuiltProof(polls).Some?
    requires n < |ProofTrace(polls) + ReportTrace(attempts, BuiltProof(polls).value) + [Removal]|
    ensures GoodAt(ProofTrace(polls) + ReportTrace(attempts, BuiltProof(polls).value) + [Removal], n)
  {
    ProofTraceEnds(polls);
    var p := BuiltProof(polls).value;
    var proved, reported := ProofTrace(polls), ReportTrace(attempts, p);
    var t := proved + reported + [Removal];
    if |proved| <= n < |t| - 1 {
      var m := n - |proved|;
      ReportTraceShape(attempts, p, m);
      assert t[n] == reported[m];
      if t[n].Report? {
        assert t[n - 1] == reported[m - 1];
        var i :| 0 <= i < |proved| && proved[i] == Proved(p);
        assert t[..n][i] == Proved(p);
      }
    }
  }

  lemma ProofAndReportShape(tx: Tx, a: Answers, n: nat)
    requires n < |ProofAndReportTrace(tx, a)|
    ensures GoodAt(ProofAndReportTrace(tx, a), n)
    ensures ProofAndReportTrace(tx, a)[n].Removal? ==> tx.outputs != [] && BuiltProof(a.proofs).Some?
  {
    if tx.outputs != [] || a.proofs == [] {
      ProofTraceEnds(a.proofs);
      if BuiltProof(a.proofs).Some? {
        ProofThenReports(a.proofs, a.attempts, n);
      } else {
        assert ProofAndReportTrace(tx, a) == ProofTrace(a.proofs);
      }
    }
  }

  /**
    For every sequence of answers: a report carries a proof that was built before, follows a status
    of the same attempt that was active or verified, is never made for a timelock-path spend, and
    after a live expansion was seen only once a poll showed depth `k` or an unbonded child.
   */
  lemma ReportsAreJustified(tx: Tx, td: Delegation, a: Answers, k: nat, n: nat)
    requires n < |SpendTrace(tx, td, a, k)| && SpendTrace(tx, td, a, k)[n].Report?
    ensures var t := SpendTrace(tx, td, a, k);
            && !TakesTimelock(tx, td)
            && Proved(t[n].reported) in t[..n]
            && n > 0 && t[n - 1].Status? && (t[n - 1].active || t[n - 1].verified)
            && (LiveExpansion in t ==>
                  exists j ::
                    && 0 < j < n && t[0] == LiveExpansion
                    && (t[j] == ChildUnbonded || (t[j].Depth? && t[j].depth >= k)))
  {
    var t, waited := SpendTrace(tx, td, a, k), ExpansionTrace(a, k);
    ExpansionTraceIsQuiet(a, k);
    var rest, m := ProofAndReportTrace(tx, a), n - |waited|;
    assert t == waited + rest && t[n] == rest[m];
    ProofAndReportShape(tx, a, m);
    assert t[n - 1] == rest[m - 1];
    var i :| 0 <= i < m && rest[i] == Proved(t[n].reported);
    assert t[..n][|waited| + i] == rest[i];
    if LiveExpansion in t {
      var l :| 0 <= l < |t| && t[l] == LiveExpansion;
      if l >= |waited| {
        ProofAndReportShape(tx, a, l - |waited|);
      }
      assert IsLive(a);
      assert t[0] == waited[0] && t[|waited| - 1] == waited[|waited| - 1];
    }
  }

  /** The spend is seen as a live expansion exactly if Babylon knows it as one that is not unbonded. */
  lemma SeenLiveIff(tx: Tx, td: Delegation, a: Answers, k: nat)
    ensures LiveExpansion in SpendTrace(tx, td, a, k) <==> a.expansion == Some(Child(true, false))
  {
    var t, waited := SpendTrace(tx, td, a, k), ExpansionTrace(a, k);
    ExpansionTraceIsQuiet(a, k);
    if IsLive(a) {
      assert t[0] == LiveExpansion;
    } else if l :| 0 <= l < |t| && t[l] == LiveExpansion {
      if !TakesTimelock(tx, td) {
        ProofAndReportShape(tx, a, l);
      }
    }
  }

  /**
    A report is made if and only if the wait was passed, the spend is not recognised as a timelock
    spend, a proof was built and an attempt got through. Whether the transaction is an unbonding
    transaction is not among the conditions.
   */
  lemma ReportedIff(tx: Tx, td: Delegation, a: Answers, k: nat)
    ensures (exists n :: 0 <= n < |SpendTrace(tx, td, a, k)| && SpendTrace(tx, td, a, k)[n].Report?)
       <==> && GoesOn(a, k) && !TakesTimelock(tx, td) && tx.outputs != []
            && BuiltProof(a.proofs).Some? && EverReports(a.attempts)
  {
    var t, waited, rest := SpendTrace(tx, td, a, k), ExpansionTrace(a, k), ProofAndReportTrace(tx, a);
    var p := BuiltProof(a.proofs);
    ExpansionTraceIsQuiet(a, k);
    ProofTraceEnds(a.proofs);
    if n :| 0 <= n < |t| && t[n].Report? {
      assert n >= |waited| && GoesOn(a, k) && !TakesTimelock(tx, td) && t[n] == rest[n - |waited|];
      ReportedInRest(tx, a, n - |waited|);
    }
    if GoesOn(a, k) && !TakesTimelock(tx, td) && tx.outputs != [] && p.Some? && EverReports(a.attempts) {
      ReportTraceReports(a.attempts, p.value);
      assert Report(p.value) in rest;
      assert Report(p.value) in t;
    }
  }

  lemma ReportedInRest(tx: Tx, a: Answers, n: nat)
    requires n < |ProofAndReportTrace(tx, a)| && ProofAndReportTrace(tx, a)[n].Report?
    ensures tx.outputs != [] && BuiltProof(a.proofs).Some? && EverReports(a.attempts)
  {
    ProofTraceEnds(a.proofs);
    var t, proved, p := ProofAndReportTrace(tx, a), ProofTrace(a.proofs), BuiltProof(a.proofs);
    assert p.Some?;
    var reported := ReportTrace(a.attempts, p.value);
    assert t[n] == reported[n - |proved|];
    ReportTraceShape(a.attempts, p.value, n - |proved|);
    ReportTraceReports(a.attempts, p.value);
  }

  /**
    The delegation stops being tracked if and only if the spend was recognised as a timelock spend
    or a proof was built, in both cases after the wait, and then nothing follows.
   */
  lemma RemovedIff(tx: Tx, td: Delegation, a: Answers, k: nat)
    ensures Removal in SpendTrace(tx, td, a, k) <==>
      GoesOn(a, k) && (TakesTimelock(tx, td) || (tx.outputs != [] && BuiltProof(a.proofs).Some?))
    ensures var t := SpendTrace(tx, td, a, k); forall n :: 0 <= n < |t| && t[n].Removal? ==> n == |t| - 1
  {
    var t, waited, rest := SpendTrace(tx, td, a, k), ExpansionTrace(a, k), ProofAndReportTrace(tx, a);
    ExpansionTraceIsQuiet(a, k);
    forall n | 0 <= n < |t| && t[n].Removal?
      ensures n == |t| - 1 && n >= |waited| && GoesOn(a, k)
      ensures TakesTimelock(tx, td) || (tx.outputs != [] && BuiltProof(a.proofs).Some?)
    {
      if !TakesTimelock(tx, td) {
        assert t[n] == rest[n - |waited|];
        ProofAndReportShape(tx, a, n - |waited|);
      }
    }
    if GoesOn(a, k) && (TakesTimelock(tx, td) || (tx.outputs != [] && BuiltProof(a.proofs).Some?)) {
      assert t[|t| - 1] == Removal;
    }
  }

  /**
    A spend of the staking output through a three-element timelock witness is still reported when
    its outputs are not the unbonding output, as a withdrawal's are not.
   */
  lemma WithdrawalIsReported(tx: Tx, td: Delegation, a: Answers, k: nat)
    requires !PaysUnbondingOutput(tx, td) && tx.outputs != []
    requires !IsLive(a) && BuiltProof(a.proofs).Some? && EverReports(a.attempts)
    ensures exists n :: 0 <= n < |SpendTrace(tx, td, a, k)| && SpendTrace(tx, td, a, k)[n].Report?
  {
    ReportedIff(tx, td, a, k);
  }
}
