/**
  btcstaking-tracker/atomicslasher/types.go: delegations indexed by staking transaction and by both
  slashing transactions.
 */
module DelegationIndex {
  import opened Wrappers

  type TxHash = nat

  datatype Delegation = Delegation(staking: TxHash, slashing: TxHash, unbondingSlashing: TxHash)

  datatype Path = SlashStakingTx | SlashUnbondingTx

  datatype Index = Index(
    delegations: map<TxHash, Delegation>,
    bySlashing: map<TxHash, TxHash>,
    byUnbondingSlashing: map<TxHash, TxHash>
  )

  const EMPTY := Index(map[], map[], map[])

  datatype Op = Add(d: Delegation) | Remove(staking: TxHash)

  function Apply(i: Index, op: Op): Index {
    match op
    case Add(d) =>
      if d.staking in i.delegations then i
      else Index(i.delegations[d.staking := d], i.bySlashing[d.slashing := d.staking],
                 i.byUnbondingSlashing[d.unbondingSlashing := d.staking])
    case Remove(h) =>
      if h !in i.delegations then i
      else
        var d := i.delegations[h];
        Index(i.delegations - {h}, i.bySlashing - {d.slashing}, i.byUnbondingSlashing - {d.unbondingSlashing})
  }

  function Run(ops: seq<Op>): Index {
    if ops == [] then EMPTY else Apply(Run(ops[..|ops| - 1]), ops[|ops| - 1])
  }

  /** Every index entry points to a tracked delegation that carries that very hash. */
  ghost predicate Sound(i: Index) {
    && (forall h :: h in i.delegations ==> i.delegations[h].staking == h)
    && (forall h :: h in i.bySlashing ==>
          i.bySlashing[h] in i.delegations && i.delegations[i.bySlashing[h]].slashing == h)
    && (forall h :: h in i.byUnbondingSlashing ==>
          i.byUnbondingSlashing[h] in i.delegations && i.delegations[i.byUnbondingSlashing[h]].unbondingSlashing == h)
  }

  /** Every tracked delegation is indexed under both of its hashes. */
  ghost predicate Complete(i: Index) {
    forall h :: h in i.delegations ==>
      && i.delegations[h].slashing in i.bySlashing && i.bySlashing[i.delegations[h].slashing] == h
      && i.delegations[h].unbondingSlashing in i.byUnbondingSlashing
      && i.byUnbondingSlashing[i.delegations[h].unbondingSlashing] == h
  }

  /** No two tracked delegations share a slashing hash of the same kind. */
  ghost predicate Distinct(delegations: map<TxHash, Delegation>) {
    forall g, h :: g in delegations && h in delegations && g != h ==>
      && delegations[g].slashing != delegations[h].slashing
      && delegations[g].unbondingSlashing != delegations[h].unbondingSlashing
  }

  /** `FindSlashedBTCDelegation` */
  function Find(i: Index, tx: TxHash): Option<(Delegation, Path)>
    requires forall h :: h in i.bySlashing ==> i.bySlashing[h] in i.delegations
    requires forall h :: h in i.byUnbondingSlashing ==> i.byUnbondingSlashing[h] in i.delegations
  {
    if tx in i.bySlashing then Some((i.delegations[i.bySlashing[tx]], SlashStakingTx))
    else if tx in i.byUnbondingSlashing then Some((i.delegations[i.byUnbondingSlashing[tx]], SlashUnbondingTx))
    else None
  }

  lemma ApplyKeepsSound(i: Index, op: Op)
    requires Sound(i)
    ensures Sound(Apply(i, op))
  {
  }

  /** Soundness holds after any sequence of additions and removals, whatever hashes collide. */
  lemma {:induction false} RunIsSound(ops: seq<Op>)
    ensures Sound(Run(ops))
  {
    if ops != [] {
      RunIsSound(ops[..|ops| - 1]);
      ApplyKeepsSound(Run(ops[..|ops| - 1]), ops[|ops| - 1]);
    }
  }

  lemma ApplyKeepsComplete(i: Index, op: Op)
    requires Sound(i) && Complete(i) && Distinct(Apply(i, op).delegations)
    requires op.Remove? ==> Distinct(i.delegations)
    ensures Complete(Apply(i, op))
  {
    var j := Apply(i, op);
    match op
    case Remove(_) =>
    case Add(d) =>
      if d.staking !in i.delegations {
        assert j.delegations[d.staking] == d;
        forall h | h in i.delegations
          ensures i.delegations[h].slashing != d.slashing && i.delegations[h].unbondingSlashing != d.unbondingSlashing
        {
          assert j.delegations[h] == i.delegations[h] && h != d.staking;
        }
      }
  }

  /** As long as the tracked hashes were distinct all along, every tracked delegation is indexed. */
  lemma {:induction false} DistinctRunIsComplete(ops: seq<Op>)
    requires forall n :: 0 <= n <= |ops| ==> Distinct(Run(ops[..n]).delegations)
    ensures Complete(Run(ops))
  {
    if ops != [] {
      var before := ops[..|ops| - 1];
      forall n | 0 <= n <= |before| ensures Distinct(Run(before[..n]).delegations) {
        assert before[..n] == ops[..n];
      }
      DistinctRunIsComplete(before);
      RunIsSound(before);
      assert before[..|before|] == before && ops[..|ops|] == ops;
      ApplyKeepsComplete(Run(before), ops[|ops| - 1]);
    }
  }

  /**
    On such runs the lookup agrees with a scan over the tracked delegations, staking path first:
    it finds a delegation slashed by `tx` if there is one, else one whose unbonding is, else nothing.
   */
  lemma FindAgreesWithScan(ops: seq<Op>, tx: TxHash, h: TxHash)
    requires forall n :: 0 <= n <= |ops| ==> Distinct(Run(ops[..n]).delegations)
    ensures Sound(Run(ops))
    ensures var i := Run(ops);
            && (h in i.delegations && i.delegations[h].slashing == tx ==>
                  Find(i, tx) == Some((i.delegations[h], SlashStakingTx)))
            && (h in i.delegations && i.delegations[h].unbondingSlashing == tx && !Carried(i, SlashStakingTx, tx) ==>
                  Find(i, tx) == Some((i.delegations[h], SlashUnbondingTx)))
            && (Find(i, tx).None? <==> !Carried(i, SlashStakingTx, tx) && !Carried(i, SlashUnbondingTx, tx))
  {
    RunIsSound(ops);
    DistinctRunIsComplete(ops);
  }

  /** With a collision, removing one delegation hides the other: it is tracked but not found. */
  lemma CollisionHidesADelegation(a: Delegation, b: Delegation)
    requires a.staking != b.staking && a.slashing == b.slashing
    requires a.slashing != a.unbondingSlashing && a.slashing != b.unbondingSlashing
    ensures var i := Run([Add(a), Add(b), Remove(b.staking)]);
            && Sound(i) && a.staking in i.delegations && i.delegations[a.staking].slashing == a.slashing
            && Find(i, a.slashing).None?
  {
    var ops := [Add(a), Add(b), Remove(b.staking)];
    assert ops[..2] == [Add(a), Add(b)] && ops[..2][..1] == [Add(a)] && [Add(a)][..0] == [];
    assert Run([Add(a)]) == Apply(EMPTY, Add(a));
    assert Run(ops[..2]) == Apply(Run([Add(a)]), Add(b));
    RunIsSound(ops);
  }

  // ---- When a collision does harm ----

  function HashOf(d: Delegation, p: Path): TxHash {
    if p.SlashStakingTx? then d.slashing else d.unbondingSlashing
  }

  function IndexOf(i: Index, p: Path): map<TxHash, TxHash> {
    if p.SlashStakingTx? then i.bySlashing else i.byUnbondingSlashing
  }

  /** Some tracked delegation carries the hash. */
  ghost predicate Carried(i: Index, p: Path, h: TxHash) {
    exists g :: g in i.delegations && HashOf(i.delegations[g], p) == h
  }

  /** Operation `n` adds a new delegation that carries the hash. */
  predicate AddsAt(ops: seq<Op>, n: nat, p: Path, h: TxHash) {
    n < |ops| && ops[n].Add? && ops[n].d.staking !in Run(ops[..n]).delegations && HashOf(ops[n].d, p) == h
  }

  /** Operation `n` removes a tracked delegation that carries the hash. */
  predicate RemovesAt(ops: seq<Op>, n: nat, p: Path, h: TxHash) {
    n < |ops| && ops[n].Remove? &&
    var before := Run(ops[..n]).delegations;
    ops[n].staking in before && HashOf(before[ops[n].staking], p) == h
  }

  /** Operation `n` removes a carrier of the hash, and none is added later. */
  predicate HidesAt(ops: seq<Op>, n: nat, p: Path, h: TxHash) {
    RemovesAt(ops, n, p, h) && forall m :: n < m < |ops| ==> !AddsAt(ops, m, p, h)
  }

  ghost predicate Hidden(ops: seq<Op>, p: Path, h: TxHash) {
    exists n: nat :: HidesAt(ops, n, p, h)
  }

  lemma SameBefore(ops: seq<Op>, n: nat, p: Path, h: TxHash)
    requires n < |ops| - 1
    ensures AddsAt(ops[..|ops| - 1], n, p, h) <==> AddsAt(ops, n, p, h)
    ensures RemovesAt(ops[..|ops| - 1], n, p, h) <==> RemovesAt(ops, n, p, h)
  {
    assert ops[..|ops| - 1][..n] == ops[..n];
  }

  lemma HiddenStep(ops: seq<Op>, p: Path, h: TxHash)
    requires ops != []
    ensures Hidden(ops, p, h) <==>
            || RemovesAt(ops, |ops| - 1, p, h)
            || (Hidden(ops[..|ops| - 1], p, h) && !AddsAt(ops, |ops| - 1, p, h))
  {
    var last, before := |ops| - 1, ops[..|ops| - 1];
    forall n: nat | n < last
      ensures AddsAt(before, n, p, h) <==> AddsAt(ops, n, p, h)
      ensures RemovesAt(before, n, p, h) <==> RemovesAt(ops, n, p, h)
    {
      SameBefore(ops, n, p, h);
    }
    if n: nat :| HidesAt(ops, n, p, h) {
      assert n < last ==> HidesAt(before, n, p, h) && !AddsAt(ops, last, p, h);
    }
    if RemovesAt(ops, last, p, h) {
      assert HidesAt(ops, last, p, h);
    }
    if n: nat :| HidesAt(before, n, p, h) && !AddsAt(ops, last, p, h) {
      assert HidesAt(ops, n, p, h);
    }
  }

  /** After any operations, a hash is indexed if and only if it is carried and not hidden. */
  lemma {:induction false} IndexedIff(ops: seq<Op>, p: Path, h: TxHash)
    ensures h in IndexOf(Run(ops), p) <==> Carried(Run(ops), p, h) && !Hidden(ops, p, h)
  {
    RunIsSound(ops);
    if h in IndexOf(Run(ops), p) {
      assert HashOf(Run(ops).delegations[IndexOf(Run(ops), p)[h]], p) == h;
    }
    if ops != [] {
      var before, last := ops[..|ops| - 1], ops[|ops| - 1];
      IndexedIff(before, p, h);
      HiddenStep(ops, p, h);
      if Carried(Run(ops), p, h) && !Carried(Run(before), p, h) {
        CarriedStep(Run(before), last, p, h);
      }
    }
  }

  lemma CarriedStep(i: Index, op: Op, p: Path, h: TxHash)
    requires Carried(Apply(i, op), p, h) && !Carried(i, p, h)
    ensures op.Add? && op.d.staking !in i.delegations && HashOf(op.d, p) == h
  {
    var j := Apply(i, op);
    var g :| g in j.delegations && HashOf(j.delegations[g], p) == h;
    assert g in i.delegations ==> j.delegations[g] != i.delegations[g];
  }

  /** What a scan over the tracked delegations would find, staking path first. */
  ghost predicate AgreesWithScan(i: Index, tx: TxHash)
    requires Sound(i)
  {
    var found := Find(i, tx);
    if Carried(i, SlashStakingTx, tx) then found.Some? && found.value.1 == SlashStakingTx
    else if Carried(i, SlashUnbondingTx, tx) then found.Some? && found.value.1 == SlashUnbondingTx
    else found.None?
  }

  /**
    So the lookup agrees with a scan if and only if no carrier of the hash was removed since the
    last one was added: collisions do no harm as long as none of the colliding delegations goes.
   */
  lemma AgreesWithScanIff(ops: seq<Op>, tx: TxHash)
    ensures Sound(Run(ops))
    ensures AgreesWithScan(Run(ops), tx) <==>
            if Carried(Run(ops), SlashStakingTx, tx) then !Hidden(ops, SlashStakingTx, tx)
            else Carried(Run(ops), SlashUnbondingTx, tx) ==> !Hidden(ops, SlashUnbondingTx, tx)
  {
    RunIsSound(ops);
    IndexedIff(ops, SlashStakingTx, tx);
    IndexedIff(ops, SlashUnbondingTx, tx);
  }

  class BTCDelegationIndex {
    var delMap: map<TxHash, Delegation>
    var slashingTxMap: map<TxHash, TxHash>
    var unbondingSlashingTxMap: map<TxHash, TxHash>

    ghost function View(): Index
      reads this
    {
      Index(delMap, slashingTxMap, unbondingSlashingTxMap)
    }

    ghost predicate Valid()
      reads this
    {
      Sound(View())
    }

    constructor ()
      ensures Valid() && View() == EMPTY
    {
      delMap, slashingTxMap, unbondingSlashingTxMap := map[], map[], map[];
    }

    method Add(d: Delegation) returns (added: bool)
      requires Valid()
      modifies this
      ensures Valid() && View() == Apply(old(View()), Op.Add(d))
      ensures added <==> d.staking !in old(delMap)
    {
      ApplyKeepsSound(View(), Op.Add(d));
      if d.staking in delMap {
        return false;
      }
      delMap := delMap[d.staking := d];
      slashingTxMap := slashingTxMap[d.slashing := d.staking];
      unbondingSlashingTxMap := unbondingSlashingTxMap[d.unbondingSlashing := d.staking];
      added := true;
    }

    method Remove(h: TxHash)
      requires Valid()
      modifies this
      ensures Valid() && View() == Apply(old(View()), Op.Remove(h))
    {
      ApplyKeepsSound(View(), Op.Remove(h));
      if h !in delMap {
        return;
      }
      var d := delMap[h];
      delMap := delMap - {h};
      slashingTxMap := slashingTxMap - {d.slashing};
      unbondingSlashingTxMap := unbondingSlashingTxMap - {d.unbondingSlashing};
    }

    /** The map lookups never meet a missing delegation, and what is found carries the hash. */
    method FindSlashedBTCDelegation(tx: TxHash) returns (r: Option<(Delegation, Path)>)
      requires Valid()
      ensures r == Find(View(), tx)
      ensures r.Some? ==> r.value.0.staking in delMap && delMap[r.value.0.staking] == r.value.0
      ensures r.Some? ==> tx == if r.value.1.SlashStakingTx? then r.value.0.slashing else r.value.0.unbondingSlashing
    {
      if tx in slashingTxMap {
        return Some((delMap[slashingTxMap[tx]], SlashStakingTx));
      }
      if tx in unbondingSlashingTxMap {
        return Some((delMap[unbondingSlashingTxMap[tx]], SlashUnbondingTx));
      }
      r := None;
    }
  }
}
