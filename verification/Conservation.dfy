/**
  What the rollover of allowance windows conserves (rt-app/core-go/subscriptions/ledger.go): every
  credit of allowance that the statement ever granted is consumed, expired or still open, whatever
  plans come and go and however long the account sleeps.
*/
module Conservation {
  import opened Prelude
  import opened Plans
  import opened IdleWalk
  import opened JsKeys
  import opened Rollover

  // ---- sorting keeps every entry ----

  lemma {:induction false} PlacedKeepsElements(sorted: seq<Ranked>, x: Ranked)
    ensures multiset(Placed(sorted, x)) == multiset(sorted) + multiset{x}
  {
    hide Precedes;
    if sorted != [] && !Precedes(x, sorted[0]) {
      PlacedKeepsElements(sorted[1..], x);
      assert sorted == [sorted[0]] + sorted[1..];
    }
  }

  lemma {:induction false} PlacedTotal(sorted: seq<Ranked>, x: Ranked, f: Pending -> int)
    ensures Total(Entries(Placed(sorted, x)), f) == Total(Entries(sorted), f) + f(x.entry)
  {
    hide Precedes;
    TotalOfOne(x.entry, f);
    if sorted == [] {
      assert Entries([x]) == [x.entry];
    } else if Precedes(x, sorted[0]) {
      assert Entries([x] + sorted) == [x.entry] + Entries(sorted);
      TotalOfConcatenation([x.entry], Entries(sorted), f);
    } else {
      var rest := Placed(sorted[1..], x);
      PlacedTotal(sorted[1..], x, f);
      assert Entries([sorted[0]] + rest) == [sorted[0].entry] + Entries(rest);
      assert Entries(sorted) == [sorted[0].entry] + Entries(sorted[1..]);
      TotalOfConcatenation([sorted[0].entry], Entries(rest), f);
      TotalOfConcatenation([sorted[0].entry], Entries(sorted[1..]), f);
    }
  }

  predicate Ordered(sorted: seq<Ranked>) {
    forall i, j :: 0 <= i < j < |sorted| ==> Precedes(sorted[i], sorted[j])
  }

  lemma {:induction false} PlacedStaysOrdered(sorted: seq<Ranked>, x: Ranked)
    requires Ordered(sorted) && forall y :: y in sorted ==> y.index < x.index
    ensures Ordered(Placed(sorted, x))
  {
    if sorted != [] && !Precedes(x, sorted[0]) {
      var rest := Placed(sorted[1..], x);
      assert Ordered(sorted[1..]);
      PlacedStaysOrdered(sorted[1..], x);
      PlacedKeepsElements(sorted[1..], x);
      forall j | 0 <= j < |rest|
        ensures Precedes(sorted[0], rest[j])
      {
        assert rest[j] in multiset(rest);
        assert rest[j] == x || rest[j] in sorted[1..];
      }
    }
  }

  predicate Ranks(ranked: seq<Ranked>) {
    forall i, j :: 0 <= i < j < |ranked| ==> ranked[i].index < ranked[j].index
  }

  lemma {:induction false} SortRankedIsSorting(ranked: seq<Ranked>)
    requires Ranks(ranked)
    ensures Ordered(SortRanked(ranked)) && multiset(SortRanked(ranked)) == multiset(ranked)
  {
    hide Precedes;
    if ranked != [] {
      var front, last := ranked[..|ranked| - 1], ranked[|ranked| - 1];
      SortRankedIsSorting(front);
      PlacedKeepsElements(SortRanked(front), last);
      forall y | y in SortRanked(front)
        ensures y.index < last.index
      {
        assert y in multiset(SortRanked(front));
        assert y in front;
      }
      PlacedStaysOrdered(SortRanked(front), last);
      assert ranked == front + [last];
    }
  }

  /**
    Sorting keeps the entries and puts them in the comparator's order, which leaves no choice: any
    arrangement of the ranked entries in that order is this one, so the library's sorting algorithm
    does not matter.
  */
  lemma SortingIsDetermined(entries: seq<Pending>, other: seq<Ranked>)
    requires multiset(other) == multiset(Rank(entries)) && Ordered(other)
    ensures Entries(other) == SortEntries(entries)
  {
    SortRankedIsSorting(Rank(entries));
    OrderedPermutationsAgree(other, SortRanked(Rank(entries)));
  }

  /** One entry before another: earlier; or at the same time a closed window before an opened one, closed ones latest first, opened ones in order. */
  predicate Chronological(a: Pending, placeOfA: nat, b: Pending, placeOfB: nat) {
    || a.at < b.at
    || (a.at == b.at && (if a.Expiry() && b.Expiry() then placeOfA > placeOfB else a.Expiry() || (!b.Expiry() && placeOfA < placeOfB)))
  }

  /** The entries come in order of time; `places` says where each was generated, first for the windows that close, then for those that open. */
  lemma EntriesAreChronological(entries: seq<Pending>) returns (places: seq<nat>)
    ensures var sorted := SortEntries(entries);
            && |sorted| == |places| == |entries| && Distinct(places)
            && (forall i :: 0 <= i < |places| ==> places[i] < |entries| && sorted[i] == entries[places[i]])
            && (forall i, j :: 0 <= i < j < |places| ==> Chronological(sorted[i], places[i], sorted[j], places[j]))
  {
    var ranked := SortRanked(Rank(entries));
    SortRankedIsSorting(Rank(entries));
    assert |multiset(ranked)| == |ranked| && |multiset(Rank(entries))| == |entries|;
    places := seq(|ranked|, i requires 0 <= i < |ranked| => ranked[i].index);
    forall i | 0 <= i < |ranked|
      ensures ranked[i].index < |entries| && ranked[i].entry == entries[ranked[i].index]
    {
      assert ranked[i] in multiset(Rank(entries));
    }
    forall i, j | 0 <= i < j < |ranked|
      ensures places[i] != places[j]
    {
      assert Precedes(ranked[i], ranked[j]);
    }
  }

  /** A window opens at its start, or when it replacing one of another plan not before the present. */
  lemma WindowsOpenOnTime(previous: Option<WindowState>, current: CurrentWindow, p: CurrentProduct, now: int)
    ensures var at, replacing := Opening(previous, current, p, now).at, previous.Some? && previous.value.key != current.key;
            (at == p.start || (replacing && at == now)) && at >= p.start && (replacing ==> at >= now)
  {}

  /**
    A window that does not go on closes at its natural end or now, whichever is earlier; so none closes
    after its successor opens. What is left of it is its allowance less what was used in its own week.
  */
  lemma WindowsDoNotOverlap(previous: WindowState, w: Window, current: Option<CurrentWindow>, counters: map<string, Counter>, now: int)
    ensures var e, going := Close(previous.key, w, current, Continuing(Some(previous), current), counters, now), Continuing(Some(previous), current) && CurrentIn(current.value.products, w.id).Some?;
            e.Some? ==>
              && e.value.Expiry() && e.value.productId == w.id && e.value.credits < 0
              && e.value.details.value.unused == Max(0, w.allowance - if w.id in counters && counters[w.id].weekStart == w.start then counters[w.id].week else 0)
              && (!going ==> e.value.at <= now && e.value.at <= w.start + w.weekSeconds * 1000 && e.value.at in {now, w.start + w.weekSeconds * 1000})
              && (current.Some? && CurrentIn(current.value.products, w.id).Some? ==>
                    e.value.at <= Opening(Some(previous), current.value, CurrentIn(current.value.products, w.id).value, now).at)
  {
    hide Following, Walk;
  }

  lemma PrecedesIsStrict(a: Ranked, b: Ranked)
    ensures !(Precedes(a, b) && Precedes(b, a))
  {}

  lemma {:induction false} OrderedPermutationsAgree(a: seq<Ranked>, b: seq<Ranked>)
    requires Ordered(a) && Ordered(b) && multiset(a) == multiset(b)
    ensures a == b
  {
    hide Precedes;
    assert |multiset(a)| == |a| && |multiset(b)| == |b|;
    if a != [] {
      var i := IndexOf(b, a[0]);
      var j := IndexOf(a, b[0]);
      PrecedesIsStrict(a[0], b[0]);
      assert a[0] == b[0];
      assert a == [a[0]] + a[1..] && b == [b[0]] + b[1..];
      assert multiset(a[1..]) == multiset(a) - multiset{a[0]};
      assert multiset(b[1..]) == multiset(b) - multiset{b[0]};
      OrderedPermutationsAgree(a[1..], b[1..]);
    }
  }

  lemma IndexOf(s: seq<Ranked>, x: Ranked) returns (i: nat)
    requires x in multiset(s)
    ensures i < |s| && s[i] == x
  {
    i :| i < |s| && s[i] == x;
  }

  lemma {:induction false} SortedTotal(ranked: seq<Ranked>, f: Pending -> int)
    ensures Total(Entries(SortRanked(ranked)), f) == Total(Entries(ranked), f)
  {
    hide Precedes;
    if ranked != [] {
      var front, last := ranked[..|ranked| - 1], ranked[|ranked| - 1];
      SortedTotal(front, f);
      PlacedTotal(SortRanked(front), last, f);
      assert Entries(ranked) == Entries(front) + [last.entry];
      TotalOfOne(last.entry, f);
      TotalOfConcatenation(Entries(front), [last.entry], f);
    }
  }

  lemma SortingKeepsTotals(entries: seq<Pending>, f: Pending -> int)
    ensures Total(SortEntries(entries), f) == Total(entries, f)
  {
    SortedTotal(Rank(entries), f);
    assert Entries(Rank(entries)) == entries;
  }

  // ---- the stored windows ----

  lemma {:induction false} ReplacedLookup(windows: seq<Window>, w: Window, id: string)
    requires w.id in WindowIds(windows)
    ensures WindowIn(Replaced(windows, w), id) == if id == w.id then Some(w) else WindowIn(windows, id)
  {
    if windows[0].id != w.id {
      var i :| 0 <= i < |windows| && WindowIds(windows)[i] == w.id;
      assert WindowIds(windows[1..])[i - 1] == w.id;
      ReplacedLookup(windows[1..], w, id);
    } else {
      assert ([w] + windows[1..])[1..] == windows[1..];
    }
  }

  lemma {:induction false} InsertedLookup(windows: seq<Window>, w: Window, id: string)
    requires w.id !in WindowIds(windows)
    ensures WindowIn(Inserted(windows, w), id) == if id == w.id then Some(w) else WindowIn(windows, id)
  {
    if windows != [] {
      assert WindowIds(windows)[0] == windows[0].id;
      assert w.id !in WindowIds(windows[1..]) by {
        assert forall k :: 0 <= k < |windows| - 1 ==> WindowIds(windows[1..])[k] == WindowIds(windows)[k + 1];
      }
      if GoesBefore(w.id, windows[0].id) {
        assert ([w] + windows)[1..] == windows;
      } else {
        InsertedLookup(windows[1..], w, id);
      }
    }
  }

  lemma PutLookup(windows: seq<Window>, w: Window, id: string)
    ensures WindowIn(WithWindow(windows, w), id) == if id == w.id then Some(w) else WindowIn(windows, id)
  {
    if w.id in WindowIds(windows) {
      ReplacedLookup(windows, w, id);
    } else {
      InsertedLookup(windows, w, id);
    }
  }

  predicate DistinctProducts(products: seq<CurrentProduct>) {
    forall i, j :: 0 <= i < j < |products| ==> products[i].id != products[j].id
  }

  lemma {:induction false} CurrentInFront(products: seq<CurrentProduct>, id: string)
    requires products != [] && DistinctProducts(products)
    ensures var front, last := products[..|products| - 1], products[|products| - 1];
            CurrentIn(products, id) == if last.id == id then Some(last) else CurrentIn(front, id)
    ensures CurrentIn(products[..|products| - 1], products[|products| - 1].id) == None
  {
    var n := |products| - 1;
    if n > 0 {
      assert products[1..][..n - 1] == products[..n][1..];
      CurrentInFront(products[1..], id);
    }
  }

  /** The stored state names exactly the windows of the current entitlement. */
  lemma {:induction false} StoredLookup(products: seq<CurrentProduct>, id: string)
    requires DistinctProducts(products)
    ensures WindowIn(StoredWindows(products), id) ==
            if CurrentIn(products, id).Some? then Some(StoredWindow(CurrentIn(products, id).value)) else None
  {
    if products != [] {
      var front, last := products[..|products| - 1], products[|products| - 1];
      StoredLookup(front, id);
      PutLookup(StoredWindows(front), StoredWindow(last), id);
      CurrentInFront(products, id);
    }
  }

  predicate DistinctWindows(windows: seq<Window>) {
    Distinct(WindowIds(windows))
  }

  lemma {:induction false} LookupOfElement(windows: seq<Window>, i: nat)
    requires DistinctWindows(windows) && i < |windows|
    ensures WindowIn(windows, windows[i].id) == Some(windows[i])
  {
    if i > 0 {
      assert WindowIds(windows)[0] != WindowIds(windows)[i];
      assert forall k :: 0 <= k < |windows| - 1 ==> WindowIds(windows[1..])[k] == WindowIds(windows)[k + 1];
      LookupOfElement(windows[1..], i - 1);
    }
  }

  lemma {:induction false} WindowInFront(windows: seq<Window>, id: string)
    requires windows != [] && DistinctWindows(windows)
    ensures var front, last := windows[..|windows| - 1], windows[|windows| - 1];
            && WindowIn(windows, id) == (if last.id == id then Some(last) else WindowIn(front, id))
            && WindowIn(front, last.id) == None
            && DistinctWindows(front)
  {
    var n := |windows| - 1;
    assert forall k :: 0 <= k < n ==> WindowIds(windows[..n])[k] == WindowIds(windows)[k];
    if n > 0 {
      assert WindowIds(windows)[0] != WindowIds(windows)[n];
      assert forall k :: 0 <= k < n ==> WindowIds(windows[1..])[k] == WindowIds(windows)[k + 1];
      assert windows[1..][..n - 1] == windows[..n][1..];
      WindowInFront(windows[1..], id);
    }
  }

  /** Index keys ascend in front of the other keys: the order JSON text keeps. */
  predicate PropertyOrder(windows: seq<Window>) {
    forall i, j :: 0 <= i < j < |windows| ==> !GoesBefore(windows[j].id, windows[i].id)
  }

  lemma {:induction false} PutKeepsPropertyOrder(windows: seq<Window>, w: Window)
    requires PropertyOrder(windows) && DistinctWindows(windows)
    ensures PropertyOrder(WithWindow(windows, w)) && DistinctWindows(WithWindow(windows, w))
  {
    if w.id in WindowIds(windows) {
      var i := FirstWindow(windows, w.id);
      ReplacedAt(windows, w, i);
      var r := windows[i := w];
      assert WindowIds(r) == WindowIds(windows);
    } else {
      InsertedInOrder(windows, w);
    }
  }

  lemma FirstWindow(windows: seq<Window>, id: string) returns (i: nat)
    requires id in WindowIds(windows)
    ensures i < |windows| && windows[i].id == id && id !in WindowIds(windows[..i])
  {
    i := 0;
    while windows[i].id != id
      invariant i < |windows| && id !in WindowIds(windows[..i])
      invariant exists k :: i <= k < |windows| && WindowIds(windows)[k] == id
      decreases |windows| - i
    {
      assert WindowIds(windows[..i + 1]) == WindowIds(windows[..i]) + [windows[i].id];
      i := i + 1;
    }
  }

  lemma {:induction false} InsertedInOrder(windows: seq<Window>, w: Window)
    requires PropertyOrder(windows) && DistinctWindows(windows) && w.id !in WindowIds(windows)
    ensures PropertyOrder(Inserted(windows, w)) && DistinctWindows(Inserted(windows, w))
    ensures forall x :: x in Inserted(windows, w) <==> x == w || x in windows
  {
    var r := Inserted(windows, w);
    if windows != [] {
      assert WindowIds(windows)[0] == windows[0].id;
      assert forall k :: 0 <= k < |windows| - 1 ==> WindowIds(windows[1..])[k] == WindowIds(windows)[k + 1];
      if GoesBefore(w.id, windows[0].id) {
        forall k | 0 <= k < |windows|
          ensures WindowIds(windows)[k] != w.id && !GoesBefore(windows[k].id, w.id)
        {
          assert !GoesBefore(windows[k].id, windows[0].id) || k == 0;
        }
        assert WindowIds(r) == [w.id] + WindowIds(windows);
      } else {
        InsertedInOrder(windows[1..], w);
        var rest := Inserted(windows[1..], w);
        assert r == [windows[0]] + rest;
        forall k | 0 <= k < |rest|
          ensures rest[k].id != windows[0].id && !GoesBefore(rest[k].id, windows[0].id)
        {
          assert rest[k] in rest;
          if rest[k] != w {
            var m :| 0 <= m < |windows[1..]| && windows[1..][m] == rest[k];
            assert WindowIds(windows)[m + 1] == rest[k].id;
          }
        }
        assert WindowIds(r) == [windows[0].id] + WindowIds(rest);
      }
    }
  }

  lemma {:induction false} StoredInOrder(products: seq<CurrentProduct>)
    ensures PropertyOrder(StoredWindows(products)) && DistinctWindows(StoredWindows(products))
  {
    if products != [] {
      StoredInOrder(products[..|products| - 1]);
      PutKeepsPropertyOrder(StoredWindows(products[..|products| - 1]), StoredWindow(products[|products| - 1]));
    }
  }

  // ---- one rollover ----

  /** The allowance an entry grants to a product (0 for expiries and other products). */
  function Granted(id: string): Pending -> int {
    (e: Pending) => if e.productId == id && !e.Expiry() then e.credits else 0
  }

  /** The unused allowance an expiry reports for a product. */
  function Unused(id: string): Pending -> int {
    (e: Pending) => if e.productId == id && e.Expiry() then e.details.value.unused else 0
  }

  /** What an expiry charges beyond the unused part: the idle windows folded into it. */
  function Skipped(id: string): Pending -> int {
    (e: Pending) => if e.productId == id && e.Expiry() then -e.credits - e.details.value.unused else 0
  }

  function Credits(id: string): Pending -> int {
    (e: Pending) => if e.productId == id then e.credits else 0
  }

  function Open(state: Option<WindowState>, id: string): int {
    if WindowOf(state, id).Some? then WindowOf(state, id).value.allowance else 0
  }

  /** What was consumed of the window that closes now. */
  function ConsumedAtClose(previous: Option<WindowState>, current: Option<CurrentWindow>, counters: map<string, Counter>, id: string): int {
    if WindowOf(previous, id).Some? && !Kept(previous, current, id) then
      var w := WindowOf(previous, id).value;
      Min(w.allowance, Used(counters, id, w.start))
    else 0
  }

  predicate ValidState(state: Option<WindowState>) {
    state.Some? ==> DistinctWindows(state.value.products)
  }

  predicate ValidCurrent(current: Option<CurrentWindow>) {
    current.Some? ==> DistinctProducts(current.value.products)
  }

  /** What the allowance of a window that stays open is raised by: nothing as long as the plan is the same. */
  function Raised(previous: Option<WindowState>, current: Option<CurrentWindow>, id: string): int {
    if Kept(previous, current, id) then ProductOf(current, id).value.weeklyLimit - WindowOf(previous, id).value.allowance else 0
  }

  /** Only the window of the product itself can expire its allowance. */
  lemma {:induction false} ClosingsTotal(previous: WindowState, windows: seq<Window>, current: Option<CurrentWindow>, counters: map<string, Counter>, now: int, id: string, f: Pending -> int)
    requires DistinctWindows(windows)
    requires forall e: Pending :: e.productId != id ==> f(e) == 0
    ensures var w := WindowIn(windows, id);
            var e := if w.Some? then Close(previous.key, w.value, current, Continuing(Some(previous), current), counters, now) else None;
            Total(Closings(previous, windows, current, counters, now), f) == if e.Some? then f(e.value) else 0
  {
    hide ExpiryOf;
    if windows != [] {
      var front, last := windows[..|windows| - 1], windows[|windows| - 1];
      WindowInFront(windows, id);
      ClosingsTotal(previous, front, current, counters, now, id, f);
      var es := Closings(previous, front, current, counters, now);
      var e := Close(previous.key, last, current, Continuing(Some(previous), current), counters, now);
      ExpiryIsOf(previous.key, last, current, Continuing(Some(previous), current), counters, now);
      WindowInHasId(front, id);
      if e.Some? {
        TotalOfOne(e.value, f);
        TotalOfConcatenation(es, [e.value], f);
      } else {
        assert es + [] == es;
      }
    }
  }

  lemma ExpiryIsOf(key: WindowKey, w: Window, current: Option<CurrentWindow>, continuing: bool, counters: map<string, Counter>, now: int)
    requires continuing ==> current.Some?
    ensures var e := Close(key, w, current, continuing, counters, now);
            e.Some? ==> e.value.productId == w.id && e.value.Expiry()
  {
    hide Walk, Following;
  }

  lemma {:induction false} OpeningsTotal(previous: Option<WindowState>, current: CurrentWindow, products: seq<CurrentProduct>, now: int, id: string, f: Pending -> int)
    requires DistinctProducts(products)
    requires forall e: Pending :: e.productId != id ==> f(e) == 0
    ensures var p := CurrentIn(products, id);
            Total(Openings(previous, current, products, now), f) ==
            if p.Some? && !StillOpen(previous, current, p.value) then f(Opening(previous, current, p.value, now)) else 0
  {
    hide StillOpen, Continuing;
    if products != [] {
      var front, last := products[..|products| - 1], products[|products| - 1];
      CurrentInFront(products, id);
      CurrentInHasId(front, id);
      OpeningsTotal(previous, current, front, now, id, f);
      var es := Openings(previous, current, front, now);
      if StillOpen(previous, current, last) {
        assert es + [] == es;
      } else {
        TotalOfOne(Opening(previous, current, last, now), f);
        TotalOfConcatenation(es, [Opening(previous, current, last, now)], f);
      }
    }
  }

  function ClosingOf(previous: Option<WindowState>, current: Option<CurrentWindow>, counters: map<string, Counter>, now: int, id: string): Option<Pending> {
    if WindowOf(previous, id).Some? then
      Close(previous.value.key, WindowOf(previous, id).value, current, Continuing(previous, current), counters, now)
    else None
  }

  function OpeningOf(previous: Option<WindowState>, current: Option<CurrentWindow>, now: int, id: string): Option<Pending> {
    if ProductOf(current, id).Some? && !StillOpen(previous, current.value, ProductOf(current, id).value) then
      Some(Opening(previous, current.value, ProductOf(current, id).value, now))
    else None
  }

  /** Every total over the entries of a product comes from its one expiry and its one allowance. */
  lemma RolledTotal(previous: Option<WindowState>, current: Option<CurrentWindow>, counters: map<string, Counter>, now: int, id: string, f: Pending -> int)
    requires ValidState(previous) && ValidCurrent(current)
    requires forall e: Pending :: e.productId != id ==> f(e) == 0
    ensures var closing, opening := ClosingOf(previous, current, counters, now, id), OpeningOf(previous, current, now, id);
            Total(RolledOver(previous, current, counters, now).entries, f) ==
            (if closing.Some? then f(closing.value) else 0) + (if opening.Some? then f(opening.value) else 0)
  {
    hide Close, Opening, StillOpen, SortEntries;
    var closings := if previous.Some? then Closings(previous.value, previous.value.products, current, counters, now) else [];
    var openings := if current.Some? then Openings(previous, current.value, current.value.products, now) else [];
    SortingKeepsTotals(closings + openings, f);
    TotalOfConcatenation(closings, openings, f);
    if previous.Some? {
      ClosingsTotal(previous.value, previous.value.products, current, counters, now, id, f);
    }
    if current.Some? {
      OpeningsTotal(previous, current.value, current.value.products, now, id, f);
    }
  }

  /**
    One rollover: what was open, plus what is granted or raised, is what was consumed, plus what is
    reported unused, plus what is open afterwards. The credits of the expiries exceed the unused part by
    the allowance of every idle window, which no entry ever granted.
  */
  lemma RolloverConserves(previous: Option<WindowState>, current: Option<CurrentWindow>, counters: map<string, Counter>, now: int, id: string)
    requires ValidState(previous) && ValidCurrent(current)
    ensures var r := RolledOver(previous, current, counters, now);
            && Open(previous, id) + Total(r.entries, Granted(id)) + Raised(previous, current, id) ==
               ConsumedAtClose(previous, current, counters, id) + Total(r.entries, Unused(id)) + Open(r.state, id)
            && Total(r.entries, Credits(id)) ==
               Total(r.entries, Granted(id)) - Total(r.entries, Unused(id)) - Total(r.entries, Skipped(id))
            && ValidState(r.state)
  {
    hide Following, Walk, RolledOver;
    RolledTotal(previous, current, counters, now, id, Granted(id));
    RolledTotal(previous, current, counters, now, id, Unused(id));
    RolledTotal(previous, current, counters, now, id, Skipped(id));
    RolledTotal(previous, current, counters, now, id, Credits(id));
    StateAfter(previous, current, counters, now, id);
    WindowInHasId(if previous.Some? then previous.value.products else [], id);
    CurrentInHasId(if current.Some? then current.value.products else [], id);
    UnusedIsTheRest(previous, current, counters, now, id);
  }

  lemma StateAfter(previous: Option<WindowState>, current: Option<CurrentWindow>, counters: map<string, Counter>, now: int, id: string)
    requires ValidCurrent(current)
    ensures var state := RolledOver(previous, current, counters, now).state;
            && ValidState(state)
            && Open(state, id) == (if ProductOf(current, id).Some? then ProductOf(current, id).value.weeklyLimit else 0)
  {
    hide SortEntries;
    if current.Some? {
      StoredInOrder(current.value.products);
      StoredLookup(current.value.products, id);
    }
  }

  /** A window that closes was consumed or is reported unused, whether or not it leaves an entry. */
  lemma UnusedIsTheRest(previous: Option<WindowState>, current: Option<CurrentWindow>, counters: map<string, Counter>, now: int, id: string)
    ensures var e := ClosingOf(previous, current, counters, now, id);
            && (WindowOf(previous, id).Some? && !Kept(previous, current, id) ==>
                  WindowOf(previous, id).value.allowance ==
                  ConsumedAtClose(previous, current, counters, id) + if e.Some? then e.value.details.value.unused else 0)
            && (e.Some? ==> e.value.Expiry() && !Kept(previous, current, id) && e.value.productId == id)
  {
    hide Following, Walk;
    WindowInHasId(if previous.Some? then previous.value.products else [], id);
    if WindowOf(previous, id).Some? {
      var w := WindowOf(previous, id).value;
      var next := Next(current, Continuing(previous, current), id);
      if next.Some? {
        var l := Lattice(current.value.periodStart, current.value.periodMs, w.weekSeconds * 1000);
        var skipped := Walk(l, ClosedAt(w, l, next, now), next.value.start, MAX_SKIPPED);
        assert skipped * w.allowance >= 0;
      }
    }
  }

  lemma WindowInHasId(windows: seq<Window>, id: string)
    ensures WindowIn(windows, id).Some? ==> WindowIn(windows, id).value.id == id
  {}

  lemma CurrentInHasId(products: seq<CurrentProduct>, id: string)
    ensures CurrentIn(products, id).Some? ==> CurrentIn(products, id).value.id == id
  {}

  /** Rolling over again with the same windows emits nothing and keeps the state. */
  lemma RolloverSettles(previous: Option<WindowState>, current: Option<CurrentWindow>, counters: map<string, Counter>, now: int, counters': map<string, Counter>, now': int)
    requires ValidCurrent(current)
    ensures var r := RolledOver(previous, current, counters, now);
            RolledOver(r.state, current, counters', now') == Rolled([], r.state)
  {
    var state := RolledOver(previous, current, counters, now).state;
    if current.Some? {
      StoredInOrder(current.value.products);
      NothingCloses(state.value, state.value.products, current.value, counters', now');
      NothingOpens(state, current.value, current.value.products, now');
    }
    assert Unsorted(state, current, counters', now') == [];
  }

  lemma {:induction false} NothingCloses(state: WindowState, windows: seq<Window>, current: CurrentWindow, counters: map<string, Counter>, now: int)
    requires DistinctProducts(current.products) && state.key == current.key
    requires state.products == StoredWindows(current.products) && DistinctWindows(state.products)
    requires forall w :: w in windows ==> w in state.products
    ensures Closings(state, windows, Some(current), counters, now) == []
  {
    if windows != [] {
      var w := windows[|windows| - 1];
      NothingCloses(state, windows[..|windows| - 1], current, counters, now);
      assert w in windows;
      var i :| 0 <= i < |state.products| && state.products[i] == w;
      LookupOfElement(state.products, i);
      StoredLookup(current.products, w.id);
    }
  }

  lemma {:induction false} NothingOpens(state: Option<WindowState>, current: CurrentWindow, products: seq<CurrentProduct>, now: int)
    requires DistinctProducts(current.products)
    requires state == Some(WindowState(current.key, StoredWindows(current.products)))
    requires forall p :: p in products ==> p in current.products
    ensures Openings(state, current, products, now) == []
  {
    if products != [] {
      var p := products[|products| - 1];
      NothingOpens(state, current, products[..|products| - 1], now);
      assert p in products;
      var i :| 0 <= i < |current.products| && current.products[i] == p;
      CurrentOfElement(current.products, i);
      StoredLookup(current.products, p.id);
    }
  }

  lemma {:induction false} CurrentOfElement(products: seq<CurrentProduct>, i: nat)
    requires DistinctProducts(products) && i < |products|
    ensures CurrentIn(products, products[i].id) == Some(products[i])
  {
    if i > 0 {
      CurrentOfElement(products[1..], i - 1);
    }
  }

  // ---- any number of rollovers ----

  datatype Look = Look(current: Option<CurrentWindow>, counters: map<string, Counter>, now: int)

  function RunState(initial: Option<WindowState>, looks: seq<Look>): Option<WindowState> {
    if looks == [] then initial
    else
      var last := looks[|looks| - 1];
      RolledOver(RunState(initial, looks[..|looks| - 1]), last.current, last.counters, last.now).state
  }

  function RunEntries(initial: Option<WindowState>, looks: seq<Look>): seq<Pending> {
    if looks == [] then []
    else
      var last := looks[|looks| - 1];
      RunEntries(initial, looks[..|looks| - 1]) +
      RolledOver(RunState(initial, looks[..|looks| - 1]), last.current, last.counters, last.now).entries
  }

  function RunConsumed(initial: Option<WindowState>, looks: seq<Look>, id: string): int {
    if looks == [] then 0
    else
      var last := looks[|looks| - 1];
      RunConsumed(initial, looks[..|looks| - 1], id) +
      ConsumedAtClose(RunState(initial, looks[..|looks| - 1]), last.current, last.counters, id)
  }

  /** What the windows that stayed open were raised by. */
  function RunRaised(initial: Option<WindowState>, looks: seq<Look>, id: string): int {
    if looks == [] then 0
    else
      var last := looks[|looks| - 1];
      RunRaised(initial, looks[..|looks| - 1], id) + Raised(RunState(initial, looks[..|looks| - 1]), last.current, id)
  }

  /**
    Over any run, from no window at all: the allowances granted, and what windows that stayed open
    were raised by, are the allowance consumed, plus the sum of the reported unused parts, plus what
    is open at the end.
  */
  lemma {:induction false} AllowanceIsConserved(looks: seq<Look>, id: string)
    requires forall i :: 0 <= i < |looks| ==> ValidCurrent(looks[i].current)
    ensures Total(RunEntries(None, looks), Granted(id)) + RunRaised(None, looks, id) ==
            RunConsumed(None, looks, id) + Total(RunEntries(None, looks), Unused(id)) + Open(RunState(None, looks), id)
    ensures ValidState(RunState(None, looks))
  {
    hide Raised;
    if looks != [] {
      var front, last := looks[..|looks| - 1], looks[|looks| - 1];
      AllowanceIsConserved(front, id);
      var before := RunState(None, front);
      RolloverConserves(before, last.current, last.counters, last.now, id);
      var entries := RolledOver(before, last.current, last.counters, last.now).entries;
      TotalOfConcatenation(RunEntries(None, front), entries, Granted(id));
      TotalOfConcatenation(RunEntries(None, front), entries, Unused(id));
    }
  }

  // ---- the idle windows an expiry reports ----

  /** The lattice of a product's weekly windows under an entitlement. */
  function WeeksOf(current: CurrentWindow, w: Window): Lattice {
    Lattice(current.periodStart, current.periodMs, w.weekSeconds * 1000)
  }

  /** The whole windows strictly between two window starts, by division. */
  function IdleWindows(l: Lattice, start: int, next: int): int {
    WindowIndex(l, next) - WindowIndex(l, start) - 1
  }

  /**
    An entitlement that goes on: the expiry of a window closes it where the walk goes next and
    reports exactly the whole windows between it and the present one, up to the bound of the walk.
  */
  lemma ExpiryCountsIdleWindows(key: WindowKey, w: Window, current: CurrentWindow, next: CurrentProduct, counters: map<string, Counter>, now: int)
    requires CurrentIn(current.products, w.id) == Some(next)
    requires IsWindowStart(WeeksOf(current, w), w.start) && IsWindowStart(WeeksOf(current, w), next.start) && w.start < next.start
    ensures var e := Close(key, w, Some(current), true, counters, now);
            var idle := Min(520, IdleWindows(WeeksOf(current, w), w.start, next.start));
            var unused := Max(0, w.allowance - if w.id in counters && counters[w.id].weekStart == w.start then counters[w.id].week else 0);
            && idle >= 0
            && (e.Some? <==> unused > 0 || (idle > 0 && w.allowance > 0))
            && (e.Some? ==>
                  && e.value.at == Following(WeeksOf(current, w), w.start)
                  && e.value.details == Some(ExpiryDetails(unused, idle))
                  && e.value.credits == -(unused + idle * w.allowance))
  {
    hide WindowStart, WindowIndex, Following, Walk, IsWindowStart;
    var l := WeeksOf(current, w);
    WalkFindsIdleWindows(l, w.start, next.start);
    ProductSign(Walk(l, Following(l, w.start), next.start, MAX_SKIPPED), w.allowance);
  }

  lemma WalkFindsIdleWindows(l: Lattice, start: int, next: int)
    requires IsWindowStart(l, start) && IsWindowStart(l, next) && start < next
    ensures Min(Following(l, start), next) == Following(l, start)
    ensures Walk(l, Following(l, start), next, MAX_SKIPPED) == Min(MAX_SKIPPED, IdleWindows(l, start, next))
    ensures IdleWindows(l, start, next) >= 0
  {
    hide WindowIndex, Following, Walk;
    IndexIsStrict(l, start, next);
    FollowingIsNext(l, start);
    hide WindowStart;
    WalkCountsWindows(l, Following(l, start), next, MAX_SKIPPED);
  }

  lemma ProductSign(k: nat, a: nat)
    ensures k * a > 0 <==> k > 0 && a > 0
    ensures k * a >= 0
  {}
}
