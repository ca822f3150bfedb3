/**
  btcstaking-tracker/btcslasher: scanning Babylon for equivocation evidence from a height that is
  kept in memory and persisted. The pages Babylon lists, and what became of slashing each piece of
  evidence, are inputs.
 */
module EvidenceCursor {
  import opened Wrappers

  datatype Evidence = Evidence(id: nat, height: nat)

  /** `slashed` is false if parsing, key extraction or `SlashFinalityProvider` failed. */
  datatype Item = Item(evidence: Evidence, slashed: bool)

  datatype Page = Page(items: seq<Item>) | ListFailed

  // ---- One scan ----

  /** Everything that is listed before the first failing page. */
  function Items(pages: seq<Page>): seq<Item> {
    if pages == [] || pages[0].ListFailed? then [] else pages[0].items + Items(pages[1..])
  }

  /** If all pages could be listed, that is everything on any of them. */
  lemma {:induction false} ItemsOfAllPages(pages: seq<Page>, x: Item)
    requires Fetched(pages)
    ensures x in Items(pages) <==> exists i :: 0 <= i < |pages| && x in pages[i].items
  {
    if pages != [] {
      var rest := pages[1..];
      ItemsOfAllPages(rest, x);
      if i :| 0 <= i < |pages| && x in pages[i].items {
        assert i > 0 ==> x in rest[i - 1].items;
      }
      if i :| 0 <= i < |rest| && x in rest[i].items {
        assert x in pages[i + 1].items;
      }
    }
  }

  predicate Fetched(pages: seq<Page>) {
    forall i :: 0 <= i < |pages| ==> pages[i].Page?
  }

  predicate AllSlashed(items: seq<Item>) {
    forall i :: 0 <= i < |items| ==> items[i].slashed
  }

  function Max(a: nat, b: nat): nat {
    if a < b then b else a
  }

  /** The largest height that was slashed, or 0. */
  function LastSlashed(items: seq<Item>): nat {
    if items == [] then 0
    else
      var n := |items| - 1;
      if items[n].slashed then Max(LastSlashed(items[..n]), items[n].evidence.height) else LastSlashed(items[..n])
  }

  lemma {:induction false} LastSlashedBounds(items: seq<Item>, i: nat)
    requires i < |items| && items[i].slashed
    ensures items[i].evidence.height <= LastSlashed(items)
  {
    var n := |items| - 1;
    if i < n {
      LastSlashedBounds(items[..n], i);
    }
  }

  lemma {:induction false} LastSlashedIsListed(items: seq<Item>)
    requires LastSlashed(items) > 0
    ensures exists i :: 0 <= i < |items| && items[i].evidence.height == LastSlashed(items)
  {
    var n := |items| - 1;
    if LastSlashed(items[..n]) == LastSlashed(items) {
      LastSlashedIsListed(items[..n]);
      var i :| 0 <= i < n && items[..n][i].evidence.height == LastSlashed(items);
      assert items[i].evidence.height == LastSlashed(items);
    } else {
      assert items[n].evidence.height == LastSlashed(items);
    }
  }

  /** What the closure has accumulated after `items`. */
  predicate Accumulated(items: seq<Item>, last: nat, failed: bool) {
    last == LastSlashed(items) && (failed <==> !AllSlashed(items))
  }

  lemma AccumulateOne(items: seq<Item>, last: nat, failed: bool, x: Item)
    requires Accumulated(items, last, failed)
    ensures Accumulated(items + [x], if x.slashed then Max(last, x.evidence.height) else last, failed || !x.slashed)
  {
    var all := items + [x];
    assert all[..|items|] == items && all[|items|] == x;
    if AllSlashed(all) {
      forall i | 0 <= i < |items| ensures items[i].slashed {
        assert all[i] == items[i];
      }
    }
  }

  /** The loop over the evidence of one page, with what the earlier pages left in the closure. */
  method HandlePage(
    items: seq<Item>, ghost before: seq<Item>, last0: nat, failed0: bool
  ) returns (last: nat, failed: bool)
    requires Accumulated(before, last0, failed0)
    ensures Accumulated(before + items, last, failed)
  {
    last, failed := last0, failed0;
    ghost var done := before;
    var i := 0;
    while i < |items|
      invariant 0 <= i <= |items|
      invariant done == before + items[..i] && Accumulated(done, last, failed)
    {
      AccumulateOne(done, last, failed, items[i]);
      done := done + [items[i]];
      if !items[i].slashed {
        failed := true;
      } else if last < items[i].evidence.height {
        last := items[i].evidence.height;
      }
      i := i + 1;
    }
    assert items[..i] == items;
  }

  lemma ItemsStep(done: seq<Item>, pages: seq<Page>, i: nat)
    requires i < |pages| && pages[i].Page?
    ensures done + Items(pages[i..]) == (done + pages[i].items) + Items(pages[i + 1..])
  {
    assert pages[i..][1..] == pages[i + 1..];
  }

  /** `processEvidencesFromHeight`: succeeds exactly when every page was listed and everything slashed. */
  method ProcessEvidences(pages: seq<Page>) returns (last: nat, ok: bool)
    ensures ok <==> Fetched(pages) && AllSlashed(Items(pages))
    ensures ok ==> last == LastSlashed(Items(pages))
  {
    var failed := false;
    last := 0;
    ghost var done: seq<Item> := [];
    var i := 0;
    while i < |pages|
      invariant 0 <= i <= |pages|
      invariant forall j :: 0 <= j < i ==> pages[j].Page?
      invariant done + Items(pages[i..]) == Items(pages)
      invariant Accumulated(done, last, failed)
    {
      if pages[i].ListFailed? {
        return 0, false;
      }
      last, failed := HandlePage(pages[i].items, done, last, failed);
      ItemsStep(done, pages, i);
      done := done + pages[i].items;
      i := i + 1;
    }
    assert done + [] == done;
    ok := !failed;
  }

  // ---- Across scans and crashes ----

  /** `seen` and `handled` are histories: evidence that was listed, and that was slashed without error. */
  datatype State = State(
    cursor: nat,
    persisted: Option<nat>,
    booted: bool,
    seen: set<Evidence>,
    handled: set<Evidence>
  )

  datatype Event =
    | Boot(param: nat, storeRead: bool, paramsLoaded: bool, pages: seq<Page>, stored: bool)
    | Tick(pages: seq<Page>, stored: bool)
    | Crash

  const INITIAL := State(0, None, false, {}, {})

  function Observe(s: State, pages: seq<Page>): State {
    s.(seen := s.seen + (set x | x in Items(pages) :: x.evidence),
       handled := s.handled + (set x | x in Items(pages) && x.slashed :: x.evidence))
  }

  /** A scan and, if it was error-free and found something, the advance of both cursors. */
  function Scan(s: State, pages: seq<Page>, stored: bool): State {
    var s' := Observe(s, pages);
    var last := LastSlashed(Items(pages));
    if Fetched(pages) && AllSlashed(Items(pages)) && last > 0
    then s'.(cursor := last + 1, persisted := if stored then Some(last) else s.persisted)
    else s'
  }

  /** Where a bootstrap starts: the persisted height if there is one. */
  function StartHeight(s: State, param: nat): nat {
    if s.persisted.Some? then s.persisted.value else param
  }

  function Booted(s: State, param: nat, storeRead: bool, paramsLoaded: bool, pages: seq<Page>, stored: bool): State {
    var start := StartHeight(s, param);
    var s' := s.(booted := true, cursor := if start > 0 then start else s.cursor);
    if !storeRead then s
    else if !paramsLoaded then s'
    else Scan(s', pages, stored)
  }

  function Step(s: State, e: Event): State {
    match e
    case Boot(param, storeRead, paramsLoaded, pages, stored) => Booted(s, param, storeRead, paramsLoaded, pages, stored)
    case Tick(pages, stored) => Scan(s, pages, stored)
    case Crash => s.(cursor := 0, booted := false)
  }

  function Run(es: seq<Event>): State {
    if es == [] then INITIAL else Step(Run(es[..|es| - 1]), es[|es| - 1])
  }

  /** Listing from `from` returns only heights at or above it, and what was listed once is listed again. */
  predicate ListsFrom(pages: seq<Page>, from: nat, seen: set<Evidence>) {
    && (forall i :: 0 <= i < |Items(pages)| ==> Items(pages)[i].evidence.height >= from)
    && (Fetched(pages) ==>
          forall ev :: ev in seen && ev.height >= from ==>
            exists i :: 0 <= i < |Items(pages)| && Items(pages)[i].evidence == ev)
  }

  /** A process boots once, from the configured height `h0` if nothing is persisted, and then ticks. */
  predicate Legal(s: State, e: Event, h0: nat) {
    match e
    case Boot(param, _, _, pages, _) =>
      !s.booted && param == h0 && ListsFrom(pages, StartHeight(s, param), s.seen)
    case Tick(pages, _) => s.booted && ListsFrom(pages, s.cursor, s.seen)
    case Crash => true
  }

  /** Nothing that was listed is left behind, neither by the cursor nor by the persisted height. */
  predicate NothingSkipped(s: State, h0: nat) {
    && (forall ev :: ev in s.seen ==> ev.height >= h0)
    && (forall ev :: ev in s.seen && ev.height < s.cursor ==> ev in s.handled)
    && (s.persisted.Some? ==> s.persisted.value >= h0
                              && forall ev :: ev in s.seen && ev.height < s.persisted.value ==> ev in s.handled)
    && (s.booted ==> s.cursor >= h0 && (s.persisted.Some? ==> s.persisted.value <= s.cursor))
    && (!s.booted ==> s.cursor == 0)
  }

  lemma ScanSkipsNothing(s: State, pages: seq<Page>, stored: bool, h0: nat)
    requires NothingSkipped(s, h0) && s.booted && ListsFrom(pages, s.cursor, s.seen)
    ensures NothingSkipped(Scan(s, pages, stored), h0)
    ensures Scan(s, pages, stored).cursor >= s.cursor
    ensures var t := Scan(s, pages, stored);
            t.cursor != s.cursor ==>
              && Fetched(pages) && AllSlashed(Items(pages))
              && (t.persisted.Some? ==> t.persisted.value < t.cursor)
  {
    var items, t := Items(pages), Scan(s, pages, stored);
    var last := LastSlashed(items);
    forall ev | ev in t.seen && ev !in s.seen ensures ev.height >= s.cursor {
      var i :| 0 <= i < |items| && items[i].evidence == ev;
    }
    if Fetched(pages) && AllSlashed(items) && last > 0 {
      LastSlashedIsListed(items);
      forall ev | ev in t.seen && ev.height <= last ensures ev in t.handled {
        if ev !in s.seen || ev.height >= s.cursor {
          var i :| 0 <= i < |items| && items[i].evidence == ev;
          assert items[i] in items && items[i].slashed;
        }
      }
    }
  }

  /**
    A boot starts at the persisted height, or at the configured one if there is none. Unless the
    store can be read and the parameters are loaded, it lists nothing.
   */
  lemma BootScansIff(s: State, param: nat, storeRead: bool, paramsLoaded: bool, pages: seq<Page>, stored: bool)
    ensures var t := Booted(s, param, storeRead, paramsLoaded, pages, stored);
            var start := match s.persisted case Some(h) => h case None => param;
            var ready := s.(booted := true, cursor := if start == 0 then s.cursor else start);
            if !storeRead then t == s
            else if !paramsLoaded then t == ready
            else t == Scan(ready, pages, stored) && t.seen == s.seen + (set x | x in Items(pages) :: x.evidence)
  {
  }

  /** The height of the last evidence of the scan, in every sense. */
  predicate IsTop(items: seq<Item>, h: nat) {
    && (exists i :: 0 <= i < |items| && items[i].evidence.height == h)
    && (forall i :: 0 <= i < |items| ==> items[i].evidence.height <= h)
  }

  /**
    A scan moves the cursor if and only if all pages were listed, everything was slashed and there
    was evidence above height 0. Then the cursor is one above the highest evidence, and a write that
    succeeds persists that height; a failed write leaves the old one.
   */
  lemma ScanAdvances(s: State, pages: seq<Page>, stored: bool)
    ensures var t, items := Scan(s, pages, stored), Items(pages);
            if Fetched(pages) && AllSlashed(items) && (exists i :: 0 <= i < |items| && items[i].evidence.height > 0)
            then
              && t.cursor > 0 && IsTop(items, t.cursor - 1)
              && (if stored then t.persisted == Some(t.cursor - 1) else t.persisted == s.persisted)
            else t.cursor == s.cursor && t.persisted == s.persisted
  {
    var items := Items(pages);
    var last := LastSlashed(items);
    if Fetched(pages) && AllSlashed(items) {
      forall i | 0 <= i < |items| ensures items[i].evidence.height <= last {
        LastSlashedBounds(items, i);
      }
      if last > 0 {
        LastSlashedIsListed(items);
      }
    }
  }

  lemma StepSkipsNothing(s: State, e: Event, h0: nat)
    requires NothingSkipped(s, h0) && Legal(s, e, h0)
    ensures NothingSkipped(Step(s, e), h0)
    ensures !e.Crash? ==> Step(s, e).cursor >= s.cursor
  {
    match e
    case Crash =>
    case Tick(pages, stored) => ScanSkipsNothing(s, pages, stored, h0);
    case Boot(param, storeRead, paramsLoaded, pages, stored) =>
      var start := StartHeight(s, param);
      var s' := s.(booted := true, cursor := if start > 0 then start else s.cursor);
      assert s'.cursor == start;
      assert NothingSkipped(s', h0);
      ScanSkipsNothing(s', pages, stored, h0);
  }

  ghost predicate LegalRun(es: seq<Event>, h0: nat) {
    forall n :: 0 <= n < |es| ==> Legal(Run(es[..n]), es[n], h0)
  }

  /**
    In every run over failing scans, failing writes and crashes: evidence that any scan ever listed
    below the cursor was slashed without error, and evidence that was not lies at or above the height
    a restart would start from, so that it is listed again.
   */
  lemma {:induction false} NoEvidenceIsSkipped(es: seq<Event>, h0: nat)
    requires LegalRun(es, h0)
    ensures NothingSkipped(Run(es), h0)
    ensures forall ev :: ev in Run(es).seen && ev !in Run(es).handled ==>
      ev.height >= Run(es).cursor && ev.height >= StartHeight(Run(es), h0)
  {
    if es != [] {
      var before := es[..|es| - 1];
      forall n | 0 <= n < |before| ensures Legal(Run(before[..n]), before[n], h0) {
        assert before[..n] == es[..n] && before[n] == es[n];
      }
      NoEvidenceIsSkipped(before, h0);
      assert Legal(Run(es[..|es| - 1]), es[|es| - 1], h0);
      StepSkipsNothing(Run(before), es[|es| - 1], h0);
    }
  }

  // ---- The slasher itself ----

  class BTCSlasher {
    var height: nat
    var store: Option<nat>
    var booted: bool
    ghost var seen: set<Evidence>
    ghost var handled: set<Evidence>

    ghost function View(): State
      reads this
    {
      State(height, store, booted, seen, handled)
    }

    constructor ()
      ensures View() == INITIAL
    {
      height, store, booted := 0, None, false;
      seen, handled := {}, {};
    }

    /** One tick of `fetchEvidences`, from the cursor on. */
    method FetchEvidences(pages: seq<Page>, stored: bool)
      modifies this
      ensures View() == Scan(old(View()), pages, stored)
    {
      var last, ok := ProcessEvidences(pages);
      seen := seen + (set x | x in Items(pages) :: x.evidence);
      handled := handled + (set x | x in Items(pages) && x.slashed :: x.evidence);
      if !ok {
        return;
      }
      if last > 0 {
        height := last + 1;
        if stored {
          store := Some(last);
        }
      }
    }

    /** The tracker's and the slasher's `Bootstrap`. */
    method Bootstrap(param: nat, storeRead: bool, paramsLoaded: bool, pages: seq<Page>, stored: bool)
      modifies this
      ensures View() == Booted(old(View()), param, storeRead, paramsLoaded, pages, stored)
    {
      if !storeRead {
        return;
      }
      booted := true;
      var start := if store.Some? then store.value else param;
      if start > 0 {
        height := start;
      }
      if !paramsLoaded {
        return;
      }
      FetchEvidences(pages, stored);
    }
  }
}
