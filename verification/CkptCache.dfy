/**
  types/ckpt_cache.go: pairing the two segments of a checkpoint. Go iterates over maps in any
  order, so the loops below pick the next key arbitrarily. Whether two segments connect and decode,
  and to which epoch, is a parameter of the cache, and so is the hash that keys the segments.
 */
module CkptCache {
  import opened Wrappers
  import opened Collections

  type Key = nat
  type Data = nat
  type Connect = (Data, Data) -> Option<nat>

  /** `id` tells apart two segments with equal data. */
  datatype Segment = Segment(id: nat, index: nat, data: Data, time: int)

  datatype Ckpt = Ckpt(seg0: Segment, seg1: Segment, epoch: nat)

  const NUMBER_OF_PARTS: nat := 2

  lemma Associate<T>(a: seq<T>, b: seq<T>, c: seq<T>)
    ensures (a + b) + c == a + (b + c)
  {
  }

  // ---- What matching computes, as a function of the order of the outer loop ----

  /** The first segment 0, in visiting order, that connects with the data of a segment 1. */
  ghost function Owner(order: seq<Key>, s0: map<Key, Segment>, connect: Connect, d: Data): (r: Option<Key>)
    requires forall h :: h in order ==> h in s0
    ensures r.Some? ==> r.value in order && connect(s0[r.value].data, d).Some?
  {
    if order == [] then None
    else
      var before, h := order[..|order| - 1], order[|order| - 1];
      var r := Owner(before, s0, connect, d);
      if r.Some? then r
      else if connect(s0[h].data, d).Some? then Some(h) else None
  }

  /** Segment 1 keys whose data connects with some segment 0 among `keys`. */
  ghost function Connectable(keys: set<Key>, s0: map<Key, Segment>, s1: map<Key, Segment>, connect: Connect): set<Key>
    requires keys <= s0.Keys
  {
    set h1 | h1 in s1 && exists h0 :: h0 in keys && connect(s0[h0].data, s1[h1].data).Some?
  }

  /** The checkpoint that the visiting order makes for the segment 1 under `h1`. */
  ghost function Made(order: seq<Key>, s0: map<Key, Segment>, s1: map<Key, Segment>, connect: Connect, h1: Key): Ckpt
    requires forall h :: h in order ==> h in s0
    requires h1 in s1 && Owner(order, s0, connect, s1[h1].data).Some?
  {
    var seg0 := s0[Owner(order, s0, connect, s1[h1].data).value];
    Ckpt(seg0, s1[h1], connect(seg0.data, s1[h1].data).value)
  }

  /** An order in which `range` may visit a map: each key once. */
  ghost predicate Visits(order: seq<Key>, s0: map<Key, Segment>) {
    NoDup(order) && ToSet(order) == s0.Keys
  }

  lemma {:induction false} OwnerExists(order: seq<Key>, s0: map<Key, Segment>, connect: Connect, d: Data)
    requires forall h :: h in order ==> h in s0
    ensures Owner(order, s0, connect, d).Some? <==> exists h :: h in order && connect(s0[h].data, d).Some?
  {
    if order != [] {
      var before := order[..|order| - 1];
      OwnerExists(before, s0, connect, d);
      assert order == before + [order[|order| - 1]];
    }
  }

  /**
    A segment 1 is consumed exactly when some cached segment 0 connects with it. So the leftover
    segments 1 and the number of checkpoints are the same for every iteration order.
   */
  lemma ConsumedDoesNotDependOnOrder(
    order: seq<Key>, s0: map<Key, Segment>, s1: map<Key, Segment>, connect: Connect, h1: Key
  )
    requires Visits(order, s0) && h1 in s1
    ensures (forall h :: h in order ==> h in s0)
    ensures h1 in Connectable(s0.Keys, s0, s1, connect) <==> Owner(order, s0, connect, s1[h1].data).Some?
  {
    assert forall h :: h in order <==> h in ToSet(order);
    OwnerExists(order, s0, connect, s1[h1].data);
  }

  ghost predicate Connects(s0: map<Key, Segment>, s1: map<Key, Segment>, connect: Connect, h0: Key, h1: Key) {
    h0 in s0 && h1 in s1 && connect(s0[h0].data, s1[h1].data).Some?
  }

  ghost predicate HasPartner(s0: map<Key, Segment>, s1: map<Key, Segment>, connect: Connect, h1: Key) {
    exists h0 :: Connects(s0, s1, connect, h0, h1)
  }

  /** Each segment 1 connects with at most one segment 0. */
  ghost predicate OneOwner(s0: map<Key, Segment>, s1: map<Key, Segment>, connect: Connect) {
    forall h1, h, h' :: Connects(s0, s1, connect, h, h1) && Connects(s0, s1, connect, h', h1) ==> h == h'
  }

  /** Each segment 0 connects with at most one segment 1. */
  ghost predicate OnePartner(s0: map<Key, Segment>, s1: map<Key, Segment>, connect: Connect) {
    forall h0, h, h' :: Connects(s0, s1, connect, h0, h) && Connects(s0, s1, connect, h0, h') ==> h == h'
  }

  /** With at most one candidate per segment 1, the pairs do not depend on the iteration order either. */
  lemma PairsDoNotDependOnOrder(
    order: seq<Key>, order': seq<Key>, s0: map<Key, Segment>, s1: map<Key, Segment>, connect: Connect, h1: Key
  )
    requires Visits(order, s0) && Visits(order', s0) && OneOwner(s0, s1, connect) && h1 in s1
    ensures (forall h :: h in order || h in order' ==> h in s0)
    ensures Owner(order, s0, connect, s1[h1].data) == Owner(order', s0, connect, s1[h1].data)
  {
    ConsumedDoesNotDependOnOrder(order, s0, s1, connect, h1);
    ConsumedDoesNotDependOnOrder(order', s0, s1, connect, h1);
    var r, r' := Owner(order, s0, connect, s1[h1].data), Owner(order', s0, connect, s1[h1].data);
    if r.Some? {
      assert Connects(s0, s1, connect, r.value, h1) && Connects(s0, s1, connect, r'.value, h1);
    }
  }

  /** Without that, two segments 0 compete for one segment 1, and the first visited wins. */
  lemma CompetitionDependsOnOrder()
    ensures var s0 := map[1 := Segment(1, 0, 10, 0), 2 := Segment(2, 0, 20, 0)];
            var connect: Connect := (a: Data, b: Data) => Some(7);
            && Owner([1, 2], s0, connect, 30) == Some(1)
            && Owner([2, 1], s0, connect, 30) == Some(2)
  {
    assert [1, 2][..1] == [1] && [2, 1][..1] == [2];
  }

  /** The segments 0 that some checkpoint used. */
  ghost function Owners(order: seq<Key>, s0: map<Key, Segment>, s1: map<Key, Segment>, connect: Connect): set<Key>
    requires forall h :: h in order ==> h in s0
  {
    set h1 | h1 in s1 && Owner(order, s0, connect, s1[h1].data).Some? :: Owner(order, s0, connect, s1[h1].data).value
  }

  /** Some segment 0 ended up in two checkpoints. */
  ghost predicate SharedOwner(order: seq<Key>, s0: map<Key, Segment>, s1: map<Key, Segment>, connect: Connect)
    requires forall h :: h in order ==> h in s0
  {
    exists h, h' :: h in s1 && h' in s1 && h != h' && Owner(order, s0, connect, s1[h].data).Some?
                    && Owner(order, s0, connect, s1[h].data) == Owner(order, s0, connect, s1[h'].data)
  }

  /** `keys` lists the consumed segments 1, each once. */
  ghost predicate ListsConsumed(
    keys: seq<Key>, order: seq<Key>, s0: map<Key, Segment>, s1: map<Key, Segment>, connect: Connect
  )
    requires forall h :: h in order ==> h in s0
  {
    && NoDup(keys)
    && (forall i :: 0 <= i < |keys| ==> keys[i] in s1 && Owner(order, s0, connect, s1[keys[i]].data).Some?)
    && (forall h :: h in s1 && Owner(order, s0, connect, s1[h].data).Some? ==> h in keys)
  }

  ghost function OwnerList(
    keys: seq<Key>, order: seq<Key>, s0: map<Key, Segment>, s1: map<Key, Segment>, connect: Connect
  ): (r: seq<Key>)
    requires forall h :: h in order ==> h in s0
    requires ListsConsumed(keys, order, s0, s1, connect)
    ensures |r| == |keys|
    ensures forall i :: 0 <= i < |keys| ==> r[i] == Owner(order, s0, connect, s1[keys[i]].data).value
  {
    seq(|keys|, i requires 0 <= i < |keys| => Owner(order, s0, connect, s1[keys[i]].data).value)
  }

  lemma OwnerListCovers(keys: seq<Key>, order: seq<Key>, s0: map<Key, Segment>, s1: map<Key, Segment>, connect: Connect)
    requires forall h :: h in order ==> h in s0
    requires ListsConsumed(keys, order, s0, s1, connect)
    ensures ToSet(OwnerList(keys, order, s0, s1, connect)) == Owners(order, s0, s1, connect)
  {
    var owners := OwnerList(keys, order, s0, s1, connect);
    forall h | h in Owners(order, s0, s1, connect) ensures h in owners {
      var h1 :| h1 in s1 && Owner(order, s0, connect, s1[h1].data) == Some(h);
      var i :| 0 <= i < |keys| && keys[i] == h1;
      assert owners[i] == h;
    }
    forall h | h in owners ensures h in Owners(order, s0, s1, connect) {
      var i :| 0 <= i < |owners| && owners[i] == h;
      assert keys[i] in s1;
    }
  }

  lemma DuplicateOwnerIsShared(
    keys: seq<Key>, order: seq<Key>, s0: map<Key, Segment>, s1: map<Key, Segment>, connect: Connect, i: nat, j: nat
  )
    requires forall h :: h in order ==> h in s0
    requires ListsConsumed(keys, order, s0, s1, connect) && i < j < |keys|
    requires OwnerList(keys, order, s0, s1, connect)[i] == OwnerList(keys, order, s0, s1, connect)[j]
    ensures SharedOwner(order, s0, s1, connect)
  {
    assert keys[i] != keys[j];
    assert Owner(order, s0, connect, s1[keys[i]].data) == Owner(order, s0, connect, s1[keys[j]].data);
  }

  lemma SharedOwnerIsDuplicate(
    keys: seq<Key>, order: seq<Key>, s0: map<Key, Segment>, s1: map<Key, Segment>, connect: Connect
  )
    requires forall h :: h in order ==> h in s0
    requires ListsConsumed(keys, order, s0, s1, connect) && SharedOwner(order, s0, s1, connect)
    ensures !NoDup(OwnerList(keys, order, s0, s1, connect))
  {
    var owners := OwnerList(keys, order, s0, s1, connect);
    var h, h' :| h in s1 && h' in s1 && h != h' && Owner(order, s0, connect, s1[h].data).Some?
                 && Owner(order, s0, connect, s1[h].data) == Owner(order, s0, connect, s1[h'].data);
    var i :| 0 <= i < |keys| && keys[i] == h;
    var j :| 0 <= j < |keys| && keys[j] == h';
    assert owners[i] == owners[j];
  }

  /** As many segments 0 are consumed as checkpoints are made exactly when no segment 0 serves twice. */
  lemma OwnersCount(keys: seq<Key>, order: seq<Key>, s0: map<Key, Segment>, s1: map<Key, Segment>, connect: Connect)
    requires forall h :: h in order ==> h in s0
    requires ListsConsumed(keys, order, s0, s1, connect)
    ensures |Owners(order, s0, s1, connect)| <= |keys|
    ensures |Owners(order, s0, s1, connect)| == |keys| <==> !SharedOwner(order, s0, s1, connect)
  {
    var owners := OwnerList(keys, order, s0, s1, connect);
    OwnerListCovers(keys, order, s0, s1, connect);
    ToSetSize(owners);
    if !NoDup(owners) {
      var i, j :| 0 <= i < j < |owners| && owners[i] == owners[j];
      DuplicateOwnerIsShared(keys, order, s0, s1, connect, i, j);
    } else if SharedOwner(order, s0, s1, connect) {
      SharedOwnerIsDuplicate(keys, order, s0, s1, connect);
    }
  }

  /** One partner per segment 0 is enough for that. */
  lemma OnePartnerNeverShares(order: seq<Key>, s0: map<Key, Segment>, s1: map<Key, Segment>, connect: Connect)
    requires forall h :: h in order ==> h in s0
    requires OnePartner(s0, s1, connect)
    ensures !SharedOwner(order, s0, s1, connect)
  {
    if SharedOwner(order, s0, s1, connect) {
      var h, h' :| h in s1 && h' in s1 && h != h' && Owner(order, s0, connect, s1[h].data).Some?
                   && Owner(order, s0, connect, s1[h].data) == Owner(order, s0, connect, s1[h'].data);
      var h0 := Owner(order, s0, connect, s1[h].data).value;
      assert Connects(s0, s1, connect, h0, h) && Connects(s0, s1, connect, h0, h');
    }
  }

  // ---- One segment 0 after the other ----

  lemma OwnerStep(order: seq<Key>, h0: Key, s0: map<Key, Segment>, connect: Connect, d: Data)
    requires h0 in s0 && forall h :: h in order ==> h in s0
    ensures var r := Owner(order, s0, connect, d);
            Owner(order + [h0], s0, connect, d) ==
            if r.Some? then r else if connect(s0[h0].data, d).Some? then Some(h0) else None
  {
    assert (order + [h0])[..|order|] == order;
  }

  /** What `seg0` takes from `s1` before the keys in `todo` are looked at, and what it makes of that. */
  ghost predicate Takes(
    seg0: Segment, taken: seq<Key>, made: seq<Ckpt>, s1: map<Key, Segment>, todo: set<Key>, connect: Connect
  )
  {
    && NoDup(taken) && |made| == |taken|
    && (forall h :: h in taken <==> h in s1 && h !in todo && connect(seg0.data, s1[h].data).Some?)
    && (forall i :: 0 <= i < |taken| ==>
          taken[i] in s1 && connect(seg0.data, s1[taken[i]].data) == Some(made[i].epoch)
          && made[i].seg0 == seg0 && made[i].seg1 == s1[taken[i]])
  }

  lemma VisitOwner(
    order: seq<Key>, keys: seq<Key>, h0: Key, taken: seq<Key>, next: seq<Ckpt>, s0: map<Key, Segment>,
    s1: map<Key, Segment>, connect: Connect, h: Key
  )
    requires h0 in s0 && forall h :: h in order ==> h in s0
    requires ListsConsumed(keys, order, s0, s1, connect) && Takes(s0[h0], taken, next, s1, ToSet(keys), connect)
    requires h in s1
    ensures h in keys <==> Owner(order, s0, connect, s1[h].data).Some?
    ensures Owner(order + [h0], s0, connect, s1[h].data) ==
            if h in keys then Owner(order, s0, connect, s1[h].data) else if h in taken then Some(h0) else None
  {
    OwnerStep(order, h0, s0, connect, s1[h].data);
  }

  lemma VisitListsConsumed(
    order: seq<Key>, keys: seq<Key>, h0: Key, taken: seq<Key>, next: seq<Ckpt>, s0: map<Key, Segment>,
    s1: map<Key, Segment>, connect: Connect
  )
    requires h0 in s0 && forall h :: h in order ==> h in s0
    requires ListsConsumed(keys, order, s0, s1, connect) && Takes(s0[h0], taken, next, s1, ToSet(keys), connect)
    ensures ListsConsumed(keys + taken, order + [h0], s0, s1, connect)
  {
    var all := keys + taken;
    forall h | h in s1 ensures h in all <==> Owner(order + [h0], s0, connect, s1[h].data).Some? {
      VisitOwner(order, keys, h0, taken, next, s0, s1, connect, h);
    }
    forall i | 0 <= i < |all| ensures all[i] in s1 && all[i] in all {
      if i >= |keys| {
        assert all[i] == taken[i - |keys|];
      }
    }
    forall i, j | 0 <= i < j < |all| ensures all[i] != all[j] {
      if i < |keys| <= j {
        assert all[i] in keys && all[j] == taken[j - |keys|] && all[j] in taken;
      }
    }
  }

  lemma VisitOwners(
    order: seq<Key>, keys: seq<Key>, h0: Key, taken: seq<Key>, next: seq<Ckpt>, s0: map<Key, Segment>,
    s1: map<Key, Segment>, connect: Connect
  )
    requires h0 in s0 && forall h :: h in order ==> h in s0
    requires ListsConsumed(keys, order, s0, s1, connect) && Takes(s0[h0], taken, next, s1, ToSet(keys), connect)
    ensures Owners(order + [h0], s0, s1, connect) ==
            Owners(order, s0, s1, connect) + (if taken == [] then {} else {h0})
  {
    forall h | h in s1
      ensures h in keys <==> Owner(order, s0, connect, s1[h].data).Some?
      ensures Owner(order + [h0], s0, connect, s1[h].data) ==
              if h in keys then Owner(order, s0, connect, s1[h].data) else if h in taken then Some(h0) else None
    {
      VisitOwner(order, keys, h0, taken, next, s0, s1, connect, h);
    }
    if taken != [] {
      assert taken[0] in taken && taken[0] !in ToSet(keys);
      assert Owner(order + [h0], s0, connect, s1[taken[0]].data) == Some(h0);
    }
    var a, b := Owners(order + [h0], s0, s1, connect), Owners(order, s0, s1, connect);
    forall x | x in a ensures x in b + (if taken == [] then {} else {h0}) {
      var h :| h in s1 && Owner(order + [h0], s0, connect, s1[h].data) == Some(x);
    }
  }

  /** `made` are the checkpoints of `keys`, in that order. */
  ghost predicate MadeFrom(
    made: seq<Ckpt>, keys: seq<Key>, order: seq<Key>, s0: map<Key, Segment>, s1: map<Key, Segment>,
    connect: Connect
  )
    requires forall h :: h in order ==> h in s0
    requires ListsConsumed(keys, order, s0, s1, connect)
  {
    |made| == |keys| && forall i :: 0 <= i < |keys| ==> made[i] == Made(order, s0, s1, connect, keys[i])
  }

  lemma VisitMadeFrom(
    made: seq<Ckpt>, next: seq<Ckpt>, order: seq<Key>, keys: seq<Key>, h0: Key, taken: seq<Key>,
    s0: map<Key, Segment>, s1: map<Key, Segment>, connect: Connect
  )
    requires h0 in s0 && forall h :: h in order ==> h in s0
    requires ListsConsumed(keys, order, s0, s1, connect) && Takes(s0[h0], taken, next, s1, ToSet(keys), connect)
    requires MadeFrom(made, keys, order, s0, s1, connect)
    requires ListsConsumed(keys + taken, order + [h0], s0, s1, connect)
    ensures MadeFrom(made + next, keys + taken, order + [h0], s0, s1, connect)
  {
    forall i | 0 <= i < |keys + taken|
      ensures (made + next)[i] == Made(order + [h0], s0, s1, connect, (keys + taken)[i])
    {
      var h1 := (keys + taken)[i];
      VisitOwner(order, keys, h0, taken, next, s0, s1, connect, h1);
      if i < |keys| {
        assert h1 == keys[i];
      } else {
        assert h1 == taken[i - |keys|] && h1 in taken && h1 !in ToSet(keys);
      }
    }
  }

  /**
    A matching of `s0` and `s1`: `order` is how the outer loop went, `keys` are the consumed
    segments 1, `made` their checkpoints, `rest0` and `rest1` what is left.
   */
  datatype MatchRecord = MatchRecord(
    order: seq<Key>,
    keys: seq<Key>,
    made: seq<Ckpt>,
    s0: map<Key, Segment>,
    s1: map<Key, Segment>,
    rest0: map<Key, Segment>,
    rest1: map<Key, Segment>,
    connect: Connect
  )

  /** The record is right for the part of the outer loop that has `todo` still to visit. */
  ghost predicate Progress(m: MatchRecord, todo: set<Key>) {
    && NoDup(m.order) && todo <= m.s0.Keys && (forall h :: h in m.order <==> h in m.s0 && h !in todo)
    && ListsConsumed(m.keys, m.order, m.s0, m.s1, m.connect)
    && MadeFrom(m.made, m.keys, m.order, m.s0, m.s1, m.connect)
    && m.rest0 == m.s0 - Owners(m.order, m.s0, m.s1, m.connect)
    && m.rest1 == m.s1 - ToSet(m.keys)
  }

  /** A complete matching: every segment 0 was visited. */
  type Matching = m: MatchRecord | Progress(m, {})
    ghost witness MatchRecord([], [], [], map[], map[], map[], map[], (a: Data, b: Data) => None)

  lemma MatchStart(s0: map<Key, Segment>, s1: map<Key, Segment>, connect: Connect)
    ensures Progress(MatchRecord([], [], [], s0, s1, s0, s1, connect), s0.Keys)
  {
    assert Owners([], s0, s1, connect) == {};
  }

  /** A segment 0 is only deleted when it is its turn. */
  lemma StillCached(m: MatchRecord, todo: set<Key>)
    requires Progress(m, todo)
    ensures todo <= m.rest0.Keys
  {
  }

  lemma TakesFromRest(
    seg0: Segment, taken: seq<Key>, next: seq<Ckpt>, keys: seq<Key>, s1: map<Key, Segment>,
    rest1: map<Key, Segment>, connect: Connect
  )
    requires rest1 == s1 - ToSet(keys)
    requires Takes(seg0, taken, next, rest1, {}, connect)
    ensures Takes(seg0, taken, next, s1, ToSet(keys), connect)
  {
    forall i | 0 <= i < |taken| ensures taken[i] in s1 && rest1[taken[i]] == s1[taken[i]] {
      assert taken[i] in taken;
    }
  }

  lemma OrderStep(order: seq<Key>, s0: map<Key, Segment>, todo: set<Key>, h0: Key)
    requires NoDup(order) && (forall h :: h in order <==> h in s0 && h !in todo)
    requires h0 in todo && h0 in s0
    ensures NoDup(order + [h0]) && forall h :: h in order + [h0] <==> h in s0 && h !in todo - {h0}
  {
  }

  lemma MapMinusTwice<K, V>(m: map<K, V>, a: set<K>, b: set<K>)
    ensures (m - a) - b == m - (a + b)
    ensures b == {} ==> m - a == m - (a + b)
  {
  }

  /** The record after one more turn of the outer loop. */
  ghost function VisitNext(m: MatchRecord, todo: set<Key>, h0: Key, taken: seq<Key>, next: seq<Ckpt>): (m': MatchRecord)
    requires Progress(m, todo)
    requires h0 in todo && h0 in m.rest0 && Takes(m.rest0[h0], taken, next, m.rest1, {}, m.connect)
    ensures Progress(m', todo - {h0})
  {
    TakesFromRest(m.s0[h0], taken, next, m.keys, m.s1, m.rest1, m.connect);
    VisitListsConsumed(m.order, m.keys, h0, taken, next, m.s0, m.s1, m.connect);
    VisitOwners(m.order, m.keys, h0, taken, next, m.s0, m.s1, m.connect);
    VisitMadeFrom(m.made, next, m.order, m.keys, h0, taken, m.s0, m.s1, m.connect);
    OrderStep(m.order, m.s0, todo, h0);
    ToSetConcat(m.keys, taken);
    MapMinusTwice(m.s1, ToSet(m.keys), ToSet(taken));
    MapMinusTwice(m.s0, Owners(m.order, m.s0, m.s1, m.connect), if taken == [] then {} else {h0});
    m.(order := m.order + [h0], keys := m.keys + taken, made := m.made + next,
       rest0 := if taken == [] then m.rest0 else m.rest0 - {h0}, rest1 := m.rest1 - ToSet(taken))
  }

  // ---- What holds of every matching ----

  /** In whatever order the maps were visited, no two remaining segments connect. */
  lemma NothingConnectableRemains(m: Matching, h0: Key, h1: Key)
    ensures !Connects(m.rest0, m.rest1, m.connect, h0, h1)
  {
    if Connects(m.rest0, m.rest1, m.connect, h0, h1) {
      OwnerExists(m.order, m.s0, m.connect, m.s1[h1].data);
    }
  }

  /** A segment 1 is in at most one new checkpoint, and in one exactly if some segment 0 connects with it. */
  lemma EachSegment1MatchedOnce(m: Matching, h1: Key)
    requires h1 in m.s1
    ensures h1 in m.keys <==> HasPartner(m.s0, m.s1, m.connect, h1)
    ensures h1 in m.keys <==> h1 !in m.rest1
    ensures h1 in m.keys ==> exists i :: 0 <= i < |m.made| && m.keys[i] == h1 && m.made[i].seg1 == m.s1[h1]
    ensures forall i, j :: 0 <= i < j < |m.made| && m.keys[i] == h1 ==> m.keys[j] != h1
  {
    OwnerExists(m.order, m.s0, m.connect, m.s1[h1].data);
    if h0 :| Connects(m.s0, m.s1, m.connect, h0, h1) {
      assert h0 in m.order && m.connect(m.s0[h0].data, m.s1[h1].data).Some?;
    }
    if h1 in m.keys {
      var i :| 0 <= i < |m.keys| && m.keys[i] == h1;
      assert m.made[i].seg1 == m.s1[h1];
      assert Connects(m.s0, m.s1, m.connect, Owner(m.order, m.s0, m.connect, m.s1[h1].data).value, h1);
    }
  }

  lemma MapMinusSize<K, V>(m: map<K, V>, gone: set<K>)
    requires gone <= m.Keys
    ensures |m - gone| == |m| - |gone|
  {
    assert (m - gone).Keys == m.Keys - gone;
    assert |m| == |m.Keys| && |m - gone| == |(m - gone).Keys|;
    assert |m.Keys - gone| == |m.Keys| - |gone|;
  }

  lemma RestSizes(m: Matching)
    ensures |m.rest1| == |m.s1| - |m.made|
    ensures |m.rest0| == |m.s0| - |Owners(m.order, m.s0, m.s1, m.connect)|
  {
    ToSetSize(m.keys);
    MapMinusSize(m.s0, Owners(m.order, m.s0, m.s1, m.connect));
    assert forall h :: h in m.keys ==> h in m.s1;
    MapMinusSize(m.s1, ToSet(m.keys));
  }

  /**
    Conservation of segments: the segments 1 drop by the number of checkpoints made, and the
    total drops by exactly twice that number if and only if no segment 0 is in two checkpoints.
   */
  lemma SegmentsConserved(m: Matching)
    ensures |m.rest1| == |m.s1| - |m.made|
    ensures |m.rest0| >= |m.s0| - |m.made|
    ensures |m.rest0| + |m.rest1| == |m.s0| + |m.s1| - 2 * |m.made| <==> !SharedOwner(m.order, m.s0, m.s1, m.connect)
  {
    RestSizes(m);
    OwnersCount(m.keys, m.order, m.s0, m.s1, m.connect);
  }

  /** The segments 1 that connect with no segment 0. */
  ghost function Unconnectable(s0: map<Key, Segment>, s1: map<Key, Segment>, connect: Connect): map<Key, Segment> {
    map h | h in s1 && !HasPartner(s0, s1, connect, h) :: s1[h]
  }

  lemma UnconnectableRest(s0: map<Key, Segment>, s1: map<Key, Segment>, connect: Connect, rest1: map<Key, Segment>)
    requires forall h :: h in rest1 ==> h in s1 && rest1[h] == s1[h]
    requires forall h :: h in s1 ==> (h in rest1 <==> !HasPartner(s0, s1, connect, h))
    ensures rest1 == Unconnectable(s0, s1, connect)
  {
  }

  lemma RestIsPart(m: Matching, h: Key)
    requires h in m.rest1
    ensures h in m.s1 && m.rest1[h] == m.s1[h]
  {
  }

  /** Exactly those are left, whatever the iteration order. */
  lemma LeftoverSegments1(m: Matching)
    ensures m.rest1 == Unconnectable(m.s0, m.s1, m.connect)
    ensures |m.made| == |m.s1| - |Unconnectable(m.s0, m.s1, m.connect)|
  {
    var s0, s1, connect, rest1 := m.s0, m.s1, m.connect, m.rest1;
    forall h1 | h1 in s1 ensures h1 in rest1 <==> !HasPartner(s0, s1, connect, h1) {
      EachSegment1MatchedOnce(m, h1);
    }
    forall h | h in rest1 ensures h in s1 && rest1[h] == s1[h] {
      RestIsPart(m, h);
    }
    UnconnectableRest(s0, s1, connect, rest1);
    RestSizes(m);
  }

  lemma OrderVisits(m: Matching)
    ensures Visits(m.order, m.s0)
  {
    assert ToSet(m.order) == m.s0.Keys;
  }

  lemma SameOwners(order: seq<Key>, order': seq<Key>, s0: map<Key, Segment>, s1: map<Key, Segment>, connect: Connect)
    requires Visits(order, s0) && Visits(order', s0) && OneOwner(s0, s1, connect)
    ensures (forall h :: h in order || h in order' ==> h in s0)
    ensures Owners(order, s0, s1, connect) == Owners(order', s0, s1, connect)
  {
    assert forall h :: h in order || h in order' ==> h in ToSet(order) || h in ToSet(order');
    forall h | h in s1 ensures Owner(order, s0, connect, s1[h].data) == Owner(order', s0, connect, s1[h].data) {
      PairsDoNotDependOnOrder(order, order', s0, s1, connect, h);
    }
  }

  lemma OrdersLeaveSame(m: Matching, m': Matching)
    requires m.s0 == m'.s0 && m.s1 == m'.s1 && m.connect == m'.connect && OneOwner(m.s0, m.s1, m.connect)
    ensures m.rest0 == m'.rest0 && m.rest1 == m'.rest1
  {
    LeftoverSegments1(m);
    LeftoverSegments1(m');
    OrderVisits(m);
    OrderVisits(m');
    SameOwners(m.order, m'.order, m.s0, m.s1, m.connect);
  }

  /** With at most one candidate per segment 1, everything agrees: leftovers on both sides and the pairs made. */
  lemma UniquePartnersAgree(m: Matching, m': Matching, h1: Key)
    requires m.s0 == m'.s0 && m.s1 == m'.s1 && m.connect == m'.connect
    requires OneOwner(m.s0, m.s1, m.connect)
    ensures m.rest0 == m'.rest0 && m.rest1 == m'.rest1
    ensures h1 in m.keys <==> h1 in m'.keys
    ensures h1 in m.keys ==> Made(m.order, m.s0, m.s1, m.connect, h1) == Made(m'.order, m.s0, m.s1, m.connect, h1)
  {
    OrdersLeaveSame(m, m');
    if h1 in m.s1 {
      EachSegment1MatchedOnce(m, h1);
      EachSegment1MatchedOnce(m', h1);
      OrderVisits(m);
      OrderVisits(m');
      PairsDoNotDependOnOrder(m.order, m'.order, m.s0, m.s1, m.connect, h1);
    }
  }

  // ---- Accounts: what becomes of each segment 1 ----

  datatype Fate = Cached(key: Key) | Overwritten | Expired | Matched(index: nat)

  /** The fate of every segment 1 ever added, by its id; what is cached; every checkpoint ever made. */
  datatype Accounts = Accounts(fate: map<nat, Fate>, cached: map<Key, Segment>, history: seq<Ckpt>)

  /** The fates agree with the cache and with the history, both ways. */
  ghost predicate Balanced(a: Accounts) {
    && (forall h :: h in a.cached ==> a.cached[h].id in a.fate && a.fate[a.cached[h].id] == Cached(h))
    && (forall id :: id in a.fate && a.fate[id].Cached? ==>
          a.fate[id].key in a.cached && a.cached[a.fate[id].key].id == id)
    && (forall i :: 0 <= i < |a.history| ==>
          a.history[i].seg1.id in a.fate && a.fate[a.history[i].seg1.id] == Matched(i))
    && (forall id :: id in a.fate && a.fate[id].Matched? ==>
          a.fate[id].index < |a.history| && a.history[a.fate[id].index].seg1.id == id)
  }

  type Ledger = a: Accounts | Balanced(a) ghost witness Accounts(map[], map[], [])

  /** A new segment 1 goes under `h`; one that is cached there is overwritten. */
  ghost function LedgerAdd(a: Ledger, h: Key, seg: Segment): (r: Ledger)
    requires seg.id !in a.fate
    ensures r.cached == a.cached[h := seg] && r.history == a.history
  {
    var fate := if h in a.cached then a.fate[a.cached[h].id := Overwritten] else a.fate;
    var r := Accounts(fate[seg.id := Cached(h)], a.cached[h := seg], a.history);
    assert Balanced(r) by {
      forall g | g in r.cached ensures r.cached[g].id in r.fate && r.fate[r.cached[g].id] == Cached(g) {
        assert g != h ==> a.fate[a.cached[g].id] == Cached(g);
      }
    }
    r
  }

  ghost function LedgerMatchOne(a: Ledger, h: Key, c: Ckpt): (r: Ledger)
    requires h in a.cached && c.seg1 == a.cached[h]
  {
    Accounts(a.fate[a.cached[h].id := Matched(|a.history|)], a.cached - {h}, a.history + [c])
  }

  /** `made` are checkpoints of the distinct cached segments 1 under `keys`. */
  ghost predicate Drawn(cached: map<Key, Segment>, keys: seq<Key>, made: seq<Ckpt>) {
    && NoDup(keys) && |made| == |keys|
    && forall i :: 0 <= i < |keys| ==> keys[i] in cached && made[i].seg1 == cached[keys[i]]
  }

  lemma DrawnRest(cached: map<Key, Segment>, keys: seq<Key>, made: seq<Ckpt>)
    requires Drawn(cached, keys, made) && keys != []
    ensures Drawn(cached - {keys[0]}, keys[1..], made[1..])
    ensures cached - {keys[0]} - ToSet(keys[1..]) == cached - ToSet(keys)
  {
    assert forall i :: 0 <= i < |keys[1..]| ==> keys[1..][i] == keys[i + 1] && made[1..][i] == made[i + 1];
  }

  /** One by one, the consumed segments 1 move from the cache into the history. */
  ghost function LedgerMatch(a: Ledger, keys: seq<Key>, made: seq<Ckpt>): (r: Ledger)
    requires Drawn(a.cached, keys, made)
    decreases |keys|
  {
    if keys == [] then a
    else
      DrawnRest(a.cached, keys, made);
      LedgerMatch(LedgerMatchOne(a, keys[0], made[0]), keys[1..], made[1..])
  }

  lemma {:induction false} LedgerMatchMoves(a: Ledger, keys: seq<Key>, made: seq<Ckpt>)
    requires Drawn(a.cached, keys, made)
    ensures LedgerMatch(a, keys, made).cached == a.cached - ToSet(keys)
    ensures LedgerMatch(a, keys, made).history == a.history + made
    decreases |keys|
  {
    if keys == [] {
      assert a.history + made == a.history && a.cached - ToSet(keys) == a.cached;
    } else {
      DrawnRest(a.cached, keys, made);
      LedgerMatchMoves(LedgerMatchOne(a, keys[0], made[0]), keys[1..], made[1..]);
      Associate(a.history, [made[0]], made[1..]);
      assert [made[0]] + made[1..] == made;
    }
  }

  /** A fate other than being cached is final: no later operation changes it. */
  lemma {:induction false} MatchingKeepsFates(a: Ledger, keys: seq<Key>, made: seq<Ckpt>, id: nat)
    requires Drawn(a.cached, keys, made) && id in a.fate
    ensures id in LedgerMatch(a, keys, made).fate
    ensures !a.fate[id].Cached? ==> LedgerMatch(a, keys, made).fate[id] == a.fate[id]
    decreases |keys|
  {
    if keys != [] {
      DrawnRest(a.cached, keys, made);
      MatchingKeepsFates(LedgerMatchOne(a, keys[0], made[0]), keys[1..], made[1..], id);
    }
  }

  lemma DrawnByMatching(m: Matching)
    ensures Drawn(m.s1, m.keys, m.made)
  {
  }

  ghost function LedgerAfter(a: Ledger, m: Matching): (r: Ledger)
    requires a.cached == m.s1
    ensures r.cached == m.rest1 && r.history == a.history + m.made
  {
    DrawnByMatching(m);
    LedgerMatchMoves(a, m.keys, m.made);
    LedgerMatch(a, m.keys, m.made)
  }

  /** The sweep leaves `kept`; what was cached and is not in it has expired. */
  ghost function LedgerExpire(a: Ledger, kept: map<Key, Segment>): (r: Ledger)
    requires forall h :: h in kept ==> h in a.cached && kept[h] == a.cached[h]
    ensures r.cached == kept && r.history == a.history
  {
    Accounts(map id | id in a.fate :: if a.fate[id].Cached? && a.fate[id].key !in kept then Expired else a.fate[id],
             kept, a.history)
  }

  /** Adding overwrites exactly the segment 1 that was cached under the same key. */
  lemma FateAfterAdd(a: Ledger, h: Key, seg: Segment, id: nat)
    requires seg.id !in a.fate && id in a.fate
    ensures id in LedgerAdd(a, h, seg).fate
    ensures LedgerAdd(a, h, seg).fate[id] == if h in a.cached && a.cached[h].id == id then Overwritten else a.fate[id]
  {
  }

  /** A sweep expires exactly the cached segments 1 that it drops. */
  lemma FateAfterExpiry(a: Ledger, kept: map<Key, Segment>, id: nat)
    requires (forall h :: h in kept ==> h in a.cached && kept[h] == a.cached[h]) && id in a.fate
    ensures var dropped := exists h :: h in a.cached && h !in kept && a.cached[h].id == id;
            && id in LedgerExpire(a, kept).fate
            && LedgerExpire(a, kept).fate[id] == if dropped then Expired else a.fate[id]
  {
    if a.fate[id].Cached? {
      assert a.cached[a.fate[id].key].id == id;
    }
  }

  /** Each segment 1 is in at most one checkpoint ever made, and a cached one is in none. */
  lemma MatchedOnce(a: Ledger, id: nat)
    requires id in a.fate
    ensures a.fate[id].Matched? <==> exists i :: 0 <= i < |a.history| && a.history[i].seg1.id == id
    ensures a.fate[id].Cached? <==> exists h :: h in a.cached && a.cached[h].id == id
    ensures forall i, j :: 0 <= i < j < |a.history| && a.history[i].seg1.id == id ==> a.history[j].seg1.id != id
  {
  }

  // ---- Sorting and sweeping ----

  predicate SortedByEpoch(s: seq<Ckpt>) {
    forall i, j :: 0 <= i < j < |s| ==> s[i].epoch <= s[j].epoch
  }

  function InsertByEpoch(c: Ckpt, s: seq<Ckpt>): seq<Ckpt> {
    if s == [] || c.epoch <= s[0].epoch then [c] + s else [s[0]] + InsertByEpoch(c, s[1..])
  }

  lemma {:induction false} InsertKeepsAll(c: Ckpt, s: seq<Ckpt>)
    ensures multiset(InsertByEpoch(c, s)) == multiset(s) + multiset{c}
  {
    if s != [] && c.epoch > s[0].epoch {
      InsertKeepsAll(c, s[1..]);
      assert s == [s[0]] + s[1..];
    }
  }

  lemma InsertedFrom(c: Ckpt, s: seq<Ckpt>, i: nat)
    requires i < |InsertByEpoch(c, s)|
    ensures InsertByEpoch(c, s)[i] == c || InsertByEpoch(c, s)[i] in s
  {
    InsertKeepsAll(c, s);
    assert InsertByEpoch(c, s)[i] in multiset(InsertByEpoch(c, s));
  }

  lemma {:induction false} InsertKeepsSorted(c: Ckpt, s: seq<Ckpt>)
    requires SortedByEpoch(s)
    ensures SortedByEpoch(InsertByEpoch(c, s))
  {
    if s != [] && c.epoch > s[0].epoch {
      var r := InsertByEpoch(c, s[1..]);
      InsertKeepsSorted(c, s[1..]);
      forall i | 0 <= i < |r| ensures s[0].epoch <= r[i].epoch {
        InsertedFrom(c, s[1..], i);
      }
    }
  }

  /** Go's TTL sweep over one map: drop what is older than `ttl`. */
  method Sweep(m: map<Key, Segment>, now: int, ttl: int) returns (r: map<Key, Segment>)
    ensures r == map h | h in m && now - m[h].time <= ttl :: m[h]
  {
    r := m;
    var todo := m.Keys;
    while todo != {}
      invariant todo <= m.Keys
      invariant forall h :: h in r <==> h in m && (h in todo || now - m[h].time <= ttl)
      invariant forall h :: h in r ==> r[h] == m[h]
      decreases todo
    {
      var h :| h in todo;
      todo := todo - {h};
      if now - m[h].time > ttl {
        r := r - {h};
      }
    }
  }

  lemma SameAdded<T>(history: seq<T>, list: seq<T>, made: seq<T>, popped: multiset<T>)
    requires multiset(history) == multiset(list) + popped
    ensures multiset(history + made) == multiset(list + made) + popped
    ensures multiset(list + made) == multiset(list) + multiset(made)
  {
  }

  /** The books balance after a matching when the sorted list holds the old list and the new checkpoints. */
  ghost function Settled(
    a: Ledger, m: Matching, list: seq<Ckpt>, sorted: seq<Ckpt>, popped: multiset<Ckpt>
  ): (r: Ledger)
    requires a.cached == m.s1 && multiset(a.history) == multiset(list) + popped
    requires multiset(sorted) == multiset(list + m.made)
    ensures r == LedgerAfter(a, m) && r.cached == m.rest1
    ensures multiset(r.history) == multiset(sorted) + popped
    ensures multiset(sorted) == multiset(list) + multiset(m.made)
  {
    SameAdded(a.history, list, m.made, popped);
    LedgerAfter(a, m)
  }

  class CheckpointCache {
    const hash: Data -> Key
    const connect: Connect
    var segments0: map<Key, Segment>
    var segments1: map<Key, Segment>
    var checkpoints: seq<Ckpt>
    ghost var ledger: Ledger
    ghost var popped: multiset<Ckpt>  // the checkpoints that were handed out

    /**
      The list is sorted; the ledger, in which every segment 1 ever added has exactly one fate,
      agrees with the cache; and every checkpoint ever made is either still listed or was popped.
     */
    ghost predicate Valid()
      reads this
    {
      && SortedByEpoch(checkpoints)
      && ledger.cached == segments1
      && multiset(ledger.history) == multiset(checkpoints) + popped
    }

    constructor (hash: Data -> Key, connect: Connect)
      ensures Valid() && segments0 == map[] && segments1 == map[] && checkpoints == []
      ensures this.hash == hash && this.connect == connect && ledger.fate == map[]
    {
      this.hash, this.connect := hash, connect;
      segments0, segments1, checkpoints := map[], map[], [];
      ledger, popped := Accounts(map[], map[], []), multiset{};
    }

    /** Stores a segment under the hash of its data. */
    method AddSegment(seg: Segment, now: int) returns (ok: bool)
      requires Valid() && seg.id !in ledger.fate
      modifies this`segments0, this`segments1, this`ledger
      ensures Valid()
      ensures ok <==> seg.index < NUMBER_OF_PARTS
      ensures segments0 ==
              if seg.index == 0 then old(segments0)[hash(seg.data) := seg.(time := now)] else old(segments0)
      ensures ledger ==
              if seg.index == 1 then LedgerAdd(old(ledger), hash(seg.data), seg.(time := now)) else old(ledger)
    {
      if seg.index >= NUMBER_OF_PARTS {
        return false;
      }
      ok := true;
      var h := hash(seg.data);
      if seg.index == 0 {
        segments0 := segments0[h := seg.(time := now)];
      } else {
        ledger := LedgerAdd(ledger, h, seg.(time := now));
        segments1 := segments1[h := seg.(time := now)];
      }
    }

    /** The inner loop: pair one segment 0 with every cached segment 1 that connects with it. */
    method MatchSegment0(h0: Key) returns (ghost taken: seq<Key>, ghost made: seq<Ckpt>)
      requires h0 in segments0
      modifies this`segments0, this`segments1, this`checkpoints
      ensures Takes(old(segments0)[h0], taken, made, old(segments1), {}, connect)
      ensures segments1 == old(segments1) - ToSet(taken)
      ensures segments0 == if taken == [] then old(segments0) else old(segments0) - {h0}
      ensures checkpoints == old(checkpoints) + made
    {
      var seg0 := segments0[h0];
      var todo := segments1.Keys;
      taken, made := [], [];
      while todo != {}
        invariant todo <= segments1.Keys && todo <= old(segments1).Keys
        invariant Takes(seg0, taken, made, old(segments1), todo, connect)
        invariant segments1 == old(segments1) - ToSet(taken)
        invariant segments0 == if taken == [] then old(segments0) else old(segments0) - {h0}
        invariant checkpoints == old(checkpoints) + made
        decreases todo
      {
        var h1 :| h1 in todo;
        todo := todo - {h1};
        var epoch := connect(seg0.data, segments1[h1].data);
        if epoch.Some? {
          checkpoints := checkpoints + [Ckpt(seg0, segments1[h1], epoch.value)];
          made := made + [Ckpt(seg0, segments1[h1], epoch.value)];
          segments0 := segments0 - {h0};
          segments1 := segments1 - {h1};
          assert ToSet(taken + [h1]) == ToSet(taken) + {h1};
          taken := taken + [h1];
        }
      }
    }

    /** One turn of the outer loop. */
    method Visit(
      h0: Key, ghost todo: set<Key>, ghost m: MatchRecord
    ) returns (ghost m': MatchRecord, ghost next: seq<Ckpt>)
      requires h0 in todo && Progress(m, todo)
      requires m.rest0 == segments0 && m.rest1 == segments1 && m.connect == connect
      modifies this`segments0, this`segments1, this`checkpoints
      ensures Progress(m', todo - {h0}) && m'.s0 == m.s0 && m'.s1 == m.s1 && m'.connect == connect
      ensures m'.rest0 == segments0 && m'.rest1 == segments1
      ensures m'.made == m.made + next && checkpoints == old(checkpoints) + next
    {
      StillCached(m, todo);
      ghost var taken;
      taken, next := MatchSegment0(h0);
      m' := VisitNext(m, todo, h0, taken, next);
    }

    /** The nested loops of `Match`: visit every segment 0 in some order. */
    method MatchAll() returns (ghost m: Matching)
      modifies this`segments0, this`segments1, this`checkpoints
      ensures m.s0 == old(segments0) && m.s1 == old(segments1) && m.connect == connect
      ensures m.rest0 == segments0 && m.rest1 == segments1
      ensures checkpoints == old(checkpoints) + m.made
    {
      var todo := segments0.Keys;
      ghost var r := MatchRecord([], [], [], segments0, segments1, segments0, segments1, connect);
      MatchStart(segments0, segments1, connect);
      while todo != {}
        invariant Progress(r, todo)
        invariant r.s0 == old(segments0) && r.s1 == old(segments1) && r.connect == connect
        invariant r.rest0 == segments0 && r.rest1 == segments1
        invariant checkpoints == old(checkpoints) + r.made
        decreases todo
      {
        var h0 :| h0 in todo;
        ghost var r', next := Visit(h0, todo, r);
        Associate(old(checkpoints), r.made, next);
        todo := todo - {h0};
        r := r';
      }
      m := r;
    }

    /** sort.Slice: some sorted rearrangement. */
    method SortCheckpoints()
      modifies this`checkpoints
      ensures SortedByEpoch(checkpoints) && multiset(checkpoints) == multiset(old(checkpoints))
    {
      var all := checkpoints;
      var sorted, i := [], 0;
      while i < |all|
        invariant 0 <= i <= |all|
        invariant SortedByEpoch(sorted) && multiset(sorted) == multiset(all[..i])
      {
        assert all[..i + 1] == all[..i] + [all[i]];
        InsertKeepsAll(all[i], sorted);
        InsertKeepsSorted(all[i], sorted);
        sorted := InsertByEpoch(all[i], sorted);
        i := i + 1;
      }
      assert all[..i] == all;
      checkpoints := sorted;
    }

    /** The body of `Match`, without the accounts. */
    method MatchAndSort() returns (ghost m: Matching)
      modifies this`segments0, this`segments1, this`checkpoints
      ensures m.s0 == old(segments0) && m.s1 == old(segments1) && m.connect == connect
      ensures m.rest0 == segments0 && m.rest1 == segments1
      ensures SortedByEpoch(checkpoints) && multiset(checkpoints) == multiset(old(checkpoints) + m.made)
    {
      m := MatchAll();
      SortCheckpoints();
    }

    /** Pairs everything that connects and sorts the list; `m` is the matching that was made. */
    method Match() returns (ghost m: Matching)
      requires Valid()
      modifies this`segments0, this`segments1, this`checkpoints, this`ledger
      ensures Valid()
      ensures m.s0 == old(segments0) && m.s1 == old(segments1) && m.connect == connect
      ensures m.rest0 == segments0 && m.rest1 == segments1
      ensures multiset(checkpoints) == multiset(old(checkpoints)) + multiset(m.made)
      ensures ledger == LedgerAfter(old(ledger), m)
    {
      ghost var list := checkpoints;
      m := MatchAndSort();
      ledger := Settled(ledger, m, list, checkpoints, popped);
    }

    /** Hands out a checkpoint of the smallest epoch. */
    method PopEarliestCheckpoint() returns (r: Option<Ckpt>)
      requires Valid()
      modifies this`checkpoints, this`popped
      ensures Valid()
      ensures r.None? <==> old(checkpoints) == []
      ensures r.None? ==> checkpoints == old(checkpoints) && popped == old(popped)
      ensures r.Some? ==> old(checkpoints) == [r.value] + checkpoints && popped == old(popped) + multiset{r.value}
      ensures r.Some? ==> forall c :: c in old(checkpoints) ==> r.value.epoch <= c.epoch
    {
      if |checkpoints| == 0 {
        return None;
      }
      r := Some(checkpoints[0]);
      assert checkpoints == [checkpoints[0]] + checkpoints[1..];
      popped := popped + multiset{checkpoints[0]};
      checkpoints := checkpoints[1..];
    }

    /** One tick of the cleanup routine. */
    method Expire(now: int, ttl: int)
      requires Valid()
      modifies this`segments0, this`segments1, this`ledger
      ensures Valid()
      ensures segments0 == map h | h in old(segments0) && now - old(segments0)[h].time <= ttl :: old(segments0)[h]
      ensures segments1 == map h | h in old(segments1) && now - old(segments1)[h].time <= ttl :: old(segments1)[h]
      ensures ledger == LedgerExpire(old(ledger), segments1)
    {
      segments0 := Sweep(segments0, now, ttl);
      segments1 := Sweep(segments1, now, ttl);
      ledger := LedgerExpire(ledger, segments1);
    }

    /** The drain of `matchAndSubmitCheckpoints`: checkpoints go out in epoch order and none stays. */
    method MatchAndSubmit() returns (submitted: seq<Ckpt>, ghost m: Matching)
      requires Valid()
      modifies this
      ensures Valid() && checkpoints == []
      ensures SortedByEpoch(submitted)
      ensures multiset(submitted) == multiset(old(checkpoints)) + multiset(m.made)
      ensures popped == old(popped) + multiset(submitted)
    {
      m := Match();
      submitted := [];
      ghost var all := checkpoints;
      while |checkpoints| > 0
        invariant Valid()
        invariant submitted + checkpoints == all
        invariant popped == old(popped) + multiset(submitted)
        decreases |checkpoints|
      {
        var c := PopEarliestCheckpoint();
        Associate(submitted, [c.value], checkpoints);
        submitted := submitted + [c.value];
      }
      assert submitted + [] == submitted;
    }
  }
}
