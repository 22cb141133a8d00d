/**
  Allowance windows on the statement (`Rollover`, `closeWindow`, `sortEntries`, `putWindow` in
  rt-app/core-go/subscriptions/ledger.go): what the windows that closed since the last write
  expire, and what the new ones grant.
*/
module Rollover {
  import opened Prelude
  import opened Plans
  import opened IdleWalk
  import opened JsKeys

  /** The last settled allowance window of one product. */
  datatype Window = Window(id: string, start: int, allowance: nat, weekSeconds: Positive)

  /** Which entitlement the windows belong to: the account's own plan, or one assigned to it. */
  datatype WindowKey = WindowKey(admin: bool, planId: string)

  datatype WindowState = WindowState(key: WindowKey, products: seq<Window>)

  datatype CurrentProduct = CurrentProduct(id: string, weeklyLimit: nat, weekSeconds: Positive, start: int)

  datatype CurrentWindow = CurrentWindow(key: WindowKey, periodStart: int, periodMs: Positive, products: seq<CurrentProduct>)

  datatype ExpiryDetails = ExpiryDetails(unused: nat, skippedWeeks: nat)

  /** A statement entry owed by the windows: an expiry when it has details, else an allowance. */
  datatype Pending = Pending(at: int, credits: int, productId: string, details: Option<ExpiryDetails>, key: WindowKey, start: int, now: int) {
    predicate Expiry() { details.Some? }
  }

  datatype Rolled = Rolled(entries: seq<Pending>, state: Option<WindowState>)

  /** Allowance consumed in the window of a product that starts at `start`. */
  function Used(counters: map<string, Counter>, id: string, start: int): int {
    if id in counters && counters[id].weekStart == start then counters[id].week else 0
  }

  function WindowIn(windows: seq<Window>, id: string): Option<Window> {
    if windows == [] then None
    else if windows[0].id == id then Some(windows[0])
    else WindowIn(windows[1..], id)
  }

  function CurrentIn(products: seq<CurrentProduct>, id: string): Option<CurrentProduct> {
    if products == [] then None
    else if products[0].id == id then Some(products[0])
    else CurrentIn(products[1..], id)
  }

  function WindowOf(state: Option<WindowState>, id: string): Option<Window> {
    if state.Some? then WindowIn(state.value.products, id) else None
  }

  function ProductOf(current: Option<CurrentWindow>, id: string): Option<CurrentProduct> {
    if current.Some? then CurrentIn(current.value.products, id) else None
  }

  predicate Continuing(previous: Option<WindowState>, current: Option<CurrentWindow>) {
    previous.Some? && current.Some? && previous.value.key == current.value.key
  }

  /** The same window is still open: nothing closes and nothing opens. */
  predicate Kept(previous: Option<WindowState>, current: Option<CurrentWindow>, id: string) {
    && Continuing(previous, current)
    && WindowOf(previous, id).Some? && ProductOf(current, id).Some?
    && WindowOf(previous, id).value.start == ProductOf(current, id).value.start
  }

  // ---- closing ----

  function ClosedAt(w: Window, l: Lattice, next: Option<CurrentProduct>, now: int): int {
    match next
    case None => Min(w.start + w.weekSeconds * 1000, now)
    case Some(p) => Min(Following(l, w.start), p.start)
  }

  function ExpiryOf(key: WindowKey, w: Window, current: Option<CurrentWindow>, next: Option<CurrentProduct>, counters: map<string, Counter>, now: int): Option<Pending>
    requires next.Some? ==> current.Some?
  {
    var l := if current.Some? then Lattice(current.value.periodStart, current.value.periodMs, w.weekSeconds * 1000)
             else Lattice(0, 1, w.weekSeconds * 1000);
    var closedAt := ClosedAt(w, l, next, now);
    var skipped := if next.Some? then Walk(l, closedAt, next.value.start, MAX_SKIPPED) else 0;
    var unused := Max(0, w.allowance - Used(counters, w.id, w.start));
    var expired := unused + skipped * w.allowance;
    if expired > 0 then
      Some(Pending(closedAt, -expired, w.id, Some(ExpiryDetails(unused, skipped)), key, w.start, now))
    else None
  }

  /** The window of the same product that follows, when the entitlement goes on. */
  function Next(current: Option<CurrentWindow>, continuing: bool, id: string): Option<CurrentProduct> {
    if continuing then ProductOf(current, id) else None
  }

  function Close(key: WindowKey, w: Window, current: Option<CurrentWindow>, continuing: bool, counters: map<string, Counter>, now: int): Option<Pending>
    requires continuing ==> current.Some?
  {
    var next := Next(current, continuing, w.id);
    if next.Some? && next.value.start == w.start then None
    else ExpiryOf(key, w, current, next, counters, now)
  }

  /** `closeWindow`: an expiry for a window that closed with credits left. */
  method CloseWindow(key: WindowKey, w: Window, current: Option<CurrentWindow>, continuing: bool, counters: map<string, Counter>, now: int)
    returns (expiry: Option<Pending>)
    requires continuing ==> current.Some?
    ensures expiry == Close(key, w, current, continuing, counters, now)
  {
    var next := Next(current, continuing, w.id);
    if next.Some? && next.value.start == w.start {
      return None;
    }
    var step := w.weekSeconds * 1000;
    var l := if current.Some? then Lattice(current.value.periodStart, current.value.periodMs, step) else Lattice(0, 1, step);
    var closedAt := Min(w.start + step, now);
    var skipped := 0;
    if next.Some? {
      closedAt := Min(Following(l, w.start), next.value.start);
      skipped := CountSkipped(l, closedAt, next.value.start);
    }
    var consumed := Used(counters, w.id, w.start);
    var unused := Max(0, w.allowance - consumed);
    var expired := unused + skipped * w.allowance;
    if expired <= 0 {
      return None;
    }
    expiry := Some(Pending(closedAt, -expired, w.id, Some(ExpiryDetails(unused, skipped)), key, w.start, now));
  }

  function Closings(previous: WindowState, windows: seq<Window>, current: Option<CurrentWindow>, counters: map<string, Counter>, now: int): seq<Pending> {
    if windows == [] then []
    else
      var w := windows[|windows| - 1];
      var e := Close(previous.key, w, current, Continuing(Some(previous), current), counters, now);
      Closings(previous, windows[..|windows| - 1], current, counters, now) + if e.Some? then [e.value] else []
  }

  // ---- opening ----

  function Opening(previous: Option<WindowState>, current: CurrentWindow, p: CurrentProduct, now: int): Pending {
    var at := if previous.Some? && !Continuing(previous, Some(current)) then Max(p.start, now) else p.start;
    Pending(at, p.weeklyLimit, p.id, None, current.key, p.start, now)
  }

  predicate StillOpen(previous: Option<WindowState>, current: CurrentWindow, p: CurrentProduct) {
    && Continuing(previous, Some(current))
    && WindowOf(previous, p.id).Some? && WindowOf(previous, p.id).value.start == p.start
  }

  function Openings(previous: Option<WindowState>, current: CurrentWindow, products: seq<CurrentProduct>, now: int): seq<Pending> {
    if products == [] then []
    else
      var p := products[|products| - 1];
      Openings(previous, current, products[..|products| - 1], now) +
      if StillOpen(previous, current, p) then [] else [Opening(previous, current, p, now)]
  }

  // ---- property order of the stored windows ----

  function WindowIds(windows: seq<Window>): (ids: seq<string>)
    ensures |ids| == |windows| && forall i :: 0 <= i < |windows| ==> ids[i] == windows[i].id
  {
    seq(|windows|, i requires 0 <= i < |windows| => windows[i].id)
  }

  function Inserted(windows: seq<Window>, w: Window): seq<Window> {
    if windows == [] then [w]
    else if GoesBefore(w.id, windows[0].id) then [w] + windows
    else [windows[0]] + Inserted(windows[1..], w)
  }

  function Replaced(windows: seq<Window>, w: Window): seq<Window> {
    if windows == [] then []
    else if windows[0].id == w.id then [w] + windows[1..]
    else [windows[0]] + Replaced(windows[1..], w)
  }

  function WithWindow(windows: seq<Window>, w: Window): seq<Window> {
    if w.id in WindowIds(windows) then Replaced(windows, w) else Inserted(windows, w)
  }

  /** The place of a window, or the length when there is none. */
  method PlaceOf(windows: seq<Window>, id: string) returns (i: nat)
    ensures i <= |windows| && id !in WindowIds(windows[..i])
    ensures i < |windows| ==> windows[i].id == id
  {
    i := 0;
    while i < |windows| && windows[i].id != id
      invariant i <= |windows| && id !in WindowIds(windows[..i])
    {
      assert WindowIds(windows[..i + 1]) == WindowIds(windows[..i]) + [windows[i].id];
      i := i + 1;
    }
  }

  /** `putWindow`: a property assignment, at the position JavaScript gives it. */
  method PutWindow(windows: seq<Window>, w: Window) returns (r: seq<Window>)
    ensures r == WithWindow(windows, w)
  {
    var known := PlaceOf(windows, w.id);
    if known < |windows| {
      ReplacedAt(windows, w, known);
      assert WindowIds(windows)[known] == w.id;
      return windows[known := w];
    }
    assert windows[..|windows|] == windows;
    r := InsertWindow(windows, w);
  }

  method InsertWindow(windows: seq<Window>, w: Window) returns (r: seq<Window>)
    ensures r == Inserted(windows, w)
  {
    hide ArrayIndex, GoesBefore;
    var at := 0;
    while at < |windows| && !GoesBefore(w.id, windows[at].id)
      invariant 0 <= at <= |windows|
      invariant Inserted(windows, w) == windows[..at] + Inserted(windows[at..], w)
    {
      assert windows[at..][1..] == windows[at + 1..];
      assert windows[..at + 1] == windows[..at] + [windows[at]];
      at := at + 1;
    }
    r := windows[..at] + [w] + windows[at..];
    assert windows[at..] == [] || windows[at..][0] == windows[at];
  }

  lemma {:induction false} ReplacedAt(windows: seq<Window>, w: Window, i: nat)
    requires i < |windows| && windows[i].id == w.id && w.id !in WindowIds(windows[..i])
    ensures Replaced(windows, w) == windows[i := w]
  {
    if i > 0 {
      assert WindowIds(windows[..i])[0] == windows[0].id;
      var rest := windows[1..][..i - 1];
      forall k | 0 <= k < |rest|
        ensures WindowIds(rest)[k] != w.id
      {
        assert WindowIds(windows[..i])[k + 1] == windows[k + 1].id;
      }
      ReplacedAt(windows[1..], w, i - 1);
      assert windows[i := w] == [windows[0]] + windows[1..][i - 1 := w];
    }
  }

  function StoredWindow(p: CurrentProduct): Window {
    Window(p.id, p.start, p.weeklyLimit, p.weekSeconds)
  }

  function StoredWindows(products: seq<CurrentProduct>): seq<Window> {
    if products == [] then [] else WithWindow(StoredWindows(products[..|products| - 1]), StoredWindow(products[|products| - 1]))
  }

  // ---- the order of the entries ----

  datatype Ranked = Ranked(entry: Pending, index: nat)

  /** The comparator of `sortEntries`: by time; at one time expiries first and in reverse. */
  predicate Precedes(a: Ranked, b: Ranked) {
    if a.entry.at != b.entry.at then a.entry.at < b.entry.at
    else if a.entry.Expiry() && b.entry.Expiry() then b.index < a.index
    else if a.entry.Expiry() || b.entry.Expiry() then a.entry.Expiry()
    else a.index < b.index
  }

  function Rank(entries: seq<Pending>): (r: seq<Ranked>)
    ensures |r| == |entries| && forall i :: 0 <= i < |r| ==> r[i] == Ranked(entries[i], i)
  {
    seq(|entries|, i requires 0 <= i < |entries| => Ranked(entries[i], i))
  }

  function Placed(sorted: seq<Ranked>, x: Ranked): seq<Ranked> {
    if sorted == [] then [x]
    else if Precedes(x, sorted[0]) then [x] + sorted
    else [sorted[0]] + Placed(sorted[1..], x)
  }

  function SortRanked(ranked: seq<Ranked>): seq<Ranked> {
    if ranked == [] then [] else Placed(SortRanked(ranked[..|ranked| - 1]), ranked[|ranked| - 1])
  }

  function Entries(ranked: seq<Ranked>): (r: seq<Pending>)
    ensures |r| == |ranked| && forall i :: 0 <= i < |r| ==> r[i] == ranked[i].entry
  {
    seq(|ranked|, i requires 0 <= i < |ranked| => ranked[i].entry)
  }

  function SortEntries(entries: seq<Pending>): seq<Pending> {
    Entries(SortRanked(Rank(entries)))
  }

  // ---- the whole ----

  function Unsorted(previous: Option<WindowState>, current: Option<CurrentWindow>, counters: map<string, Counter>, now: int): seq<Pending> {
    (if previous.Some? then Closings(previous.value, previous.value.products, current, counters, now) else []) +
    (if current.Some? then Openings(previous, current.value, current.value.products, now) else [])
  }

  function NextState(current: Option<CurrentWindow>): Option<WindowState> {
    if current.Some? then Some(WindowState(current.value.key, StoredWindows(current.value.products))) else None
  }

  function RolledOver(previous: Option<WindowState>, current: Option<CurrentWindow>, counters: map<string, Counter>, now: int): Rolled {
    Rolled(SortEntries(Unsorted(previous, current, counters, now)), NextState(current))
  }

  /** `Rollover` as the source runs it. */
  method Roll(previous: Option<WindowState>, current: Option<CurrentWindow>, counters: map<string, Counter>, now: int) returns (rolled: Rolled)
    ensures rolled == RolledOver(previous, current, counters, now)
  {
    var entries: seq<Pending> := [];
    var continuing := previous.Some? && current.Some? && previous.value.key == current.value.key;
    if previous.Some? {
      var windows := previous.value.products;
      for i := 0 to |windows|
        invariant entries == Closings(previous.value, windows[..i], current, counters, now)
      {
        assert windows[..i + 1][..i] == windows[..i];
        var e := CloseWindow(previous.value.key, windows[i], current, continuing, counters, now);
        if e.Some? {
          entries := entries + [e.value];
        }
      }
      assert windows[..|windows|] == windows;
    }
    var state: Option<WindowState> := None;
    if current.Some? {
      var products := current.value.products;
      var stored: seq<Window> := [];
      for i := 0 to |products|
        invariant stored == StoredWindows(products[..i])
      {
        assert products[..i + 1][..i] == products[..i];
        stored := PutWindow(stored, Window(products[i].id, products[i].start, products[i].weeklyLimit, products[i].weekSeconds));
      }
      state := Some(WindowState(current.value.key, stored));
      ghost var closings := entries;
      for i := 0 to |products|
        invariant entries == closings + Openings(previous, current.value, products[..i], now)
      {
        assert products[..i + 1][..i] == products[..i];
        var p := products[i];
        var known := if continuing then WindowOf(previous, p.id) else None;
        if !(known.Some? && known.value.start == p.start) {
          var at := p.start;
          if previous.Some? && !continuing {
            at := Max(p.start, now);
          }
          entries := entries + [Pending(at, p.weeklyLimit, p.id, None, current.value.key, p.start, now)];
        }
      }
      assert products[..|products|] == products;
    }
    assert entries == Unsorted(previous, current, counters, now);
    rolled := Rolled(SortEntries(entries), state);
  }
}
