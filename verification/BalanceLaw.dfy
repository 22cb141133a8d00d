/**
  The balance law of the statement (the `ledgerCheck` contract of
  rt-app/docs/polyglot/subscriptions-reservations.md): the credits of the entries add up to the
  unused allowance of the open windows plus the additional credits. The law as documented holds for
  an entitlement that is never left idle for a whole window; the exact law, with what idle windows
  and changes of plan add to it, holds for every history.
*/
module BalanceLaw {
  import opened Prelude
  import opened Plans
  import opened Windows
  import opened Rollover
  import opened Conservation
  import opened Accounts
  import opened Operations
  import opened Books
  import opened Statement
  import opened Coverage
  import opened CoveredRuns
  import opened Solvency

  // ---- what the two sides of the law count ----

  function CreditsIn(e: Entry, id: string): int {
    if e.productId == Some(id) then e.credits else 0
  }

  /** What an expiry charges for idle windows, whose allowance no entry ever granted. */
  function IdleIn(e: Entry, id: string): int {
    if e.productId == Some(id) && e.details.Expired? then -e.credits - e.details.unused else 0
  }

  function CreditsOf(id: string): Posted -> int {
    (p: Posted) => CreditsIn(p.entry, id)
  }

  function IdleOf(id: string): Posted -> int {
    (p: Posted) => IdleIn(p.entry, id)
  }

  /** Credits and idle charges together: what the entries grant and take in earnest. */
  function Earned(posted: seq<Posted>, id: string): int {
    Total(posted, CreditsOf(id)) + Total(posted, IdleOf(id))
  }

  /** Use counted in the window of a product that the statement holds open. */
  function UsedIn(a: Account, id: string): int {
    var w := WindowOf(a.windows, id);
    if w.Some? then Used(SettledCounters(a), id, w.value.start) else 0
  }

  function OpenRest(a: Account, id: string): int {
    Open(a.windows, id) - UsedIn(a, id)
  }

  function Worth(a: Account, id: string): int {
    OpenRest(a, id) + Balance(a, id)
  }

  // ---- posting ----

  lemma PostEarns(d: Draft, e: Entry, seed: Seed, now: int, id: string)
    ensures Earned(Post(d, e, seed, now).posted, id) == Earned(d.posted, id) + CreditsIn(e, id) + IdleIn(e, id)
    ensures Total(Post(d, e, seed, now).posted, IdleOf(id)) == Total(d.posted, IdleOf(id)) + IdleIn(e, id)
    ensures Worth(Post(d, e, seed, now).account, id) == Worth(d.account, id)
  {
    hide Spendable, ApplyTotals;
    var p := Post(d, e, seed, now).posted[|d.posted|];
    TotalOfPosted(d.posted, p, CreditsOf(id));
    TotalOfPosted(d.posted, p, IdleOf(id));
  }

  lemma {:induction false} PostWindowsEarns(d: Draft, entries: seq<Pending>, now: int, id: string)
    ensures Earned(PostWindows(d, entries, now).posted, id) ==
            Earned(d.posted, id) + Total(entries, Credits(id)) + Total(entries, Skipped(id))
    ensures Total(PostWindows(d, entries, now).posted, IdleOf(id)) == Total(d.posted, IdleOf(id)) + Total(entries, Skipped(id))
    ensures Worth(PostWindows(d, entries, now).account, id) == Worth(d.account, id)
  {
    hide Post, Earned, Worth;
    if entries != [] {
      var n := |entries| - 1;
      PostWindowsEarns(d, entries[..n], now, id);
      PostEarns(PostWindows(d, entries[..n], now), WindowEntry(entries[n]), WindowSeedOf(entries[n]), now, id);
    }
  }

  lemma {:induction false} PostExpiredEarns(d: Draft, expired: seq<Hold>, now: int, id: string)
    ensures Earned(PostExpired(d, expired, now).posted, id) == Earned(d.posted, id)
    ensures Total(PostExpired(d, expired, now).posted, IdleOf(id)) == Total(d.posted, IdleOf(id))
    ensures Worth(PostExpired(d, expired, now).account, id) == Worth(d.account, id)
  {
    hide Post, Earned, Worth;
    if expired != [] {
      var n := |expired| - 1;
      PostExpiredEarns(d, expired[..n], now, id);
      PostEarns(PostExpired(d, expired[..n], now), ExpireEntry(expired[n]), ExpireSeed(expired[n].key), now, id);
    }
  }

  lemma SameWorth(a: Account, b: Account, id: string)
    requires a.own == b.own && a.grant == b.grant && a.windows == b.windows && a.balances == b.balances
    ensures Worth(a, id) == Worth(b, id)
  {}

  // ---- settling the windows ----

  ghost predicate PlansValid(a: Account) {
    ValidEntitlement(a.own) && (a.grant.Some? ==> ValidEntitlement(a.grant.value))
  }

  /** Windows are named once each, on the statement and in the plans. */
  ghost predicate Sound(a: Account) {
    PlansValid(a) && ValidState(a.windows)
  }

  /** The account as `settle` leaves it, before anything else changes. */
  function WithWindowsOf(data: Account, now: int): Account {
    data.(windows := NextState(CurrentWindows(data, now)))
  }

  /**
    What settling adds to the books without an entry for it: use already counted in a window that
    opens (it is granted in full again), less use beyond the allowance of a window that closes; and
    for a window that stays open, any change of its rest.
  */
  function Drift(raw: Account, data: Account, now: int, id: string): int {
    if Kept(raw.windows, CurrentWindows(data, now), id) then OpenRest(raw, id) - OpenRest(WithWindowsOf(data, now), id)
    else UsedIn(WithWindowsOf(data, now), id) - Max(0, -OpenRest(raw, id))
  }

  /** What settling charges for whole windows that passed unused. */
  function IdleCharge(raw: Account, data: Account, now: int, id: string): int {
    Total(RolledOver(raw.windows, CurrentWindows(data, now), SettledCounters(raw), now).entries, Skipped(id))
  }

  lemma CurrentIsValid(a: Account, now: int)
    requires PlansValid(a)
    ensures ValidCurrent(CurrentWindows(a, now))
  {
    var e := Effective(a, now);
    if Active(e, now) {
      var products := e.plan.value.products;
      assert forall i :: 0 <= i < |products| ==> ProductIds(products)[i] == CurrentProducts(products, e)[i].id;
    }
  }

  /** A window that stays open owes no entry. */
  lemma KeptEarnsNothing(previous: Option<WindowState>, current: Option<CurrentWindow>, counters: map<string, Counter>, now: int, id: string)
    requires ValidState(previous) && ValidCurrent(current) && Kept(previous, current, id)
    ensures var es := RolledOver(previous, current, counters, now).entries; Total(es, Credits(id)) + Total(es, Skipped(id)) == 0
  {
    hide ExpiryOf, Opening, RolledOver;
    RolledTotal(previous, current, counters, now, id, Credits(id));
    RolledTotal(previous, current, counters, now, id, Skipped(id));
    WindowInHasId(previous.value.products, id);
    CurrentInHasId(current.value.products, id);
  }

  lemma SettlingEarns(raw: Account, data: Account, now: int, id: string)
    requires Sound(raw) && PlansValid(data) && data.balances == raw.balances
    ensures var d := SettleWindows(raw, data, now);
            && Earned(d.posted, id) == Worth(d.account, id) - Worth(raw, id) + Drift(raw, data, now, id)
            && Total(d.posted, IdleOf(id)) == IdleCharge(raw, data, now, id)
            && Sound(d.account)
  {
    hide RolledOver, CurrentWindows, StoredWindows, Closings, Openings;
    var current, counters := CurrentWindows(data, now), SettledCounters(raw);
    CurrentIsValid(data, now);
    var rolled := RolledOver(raw.windows, current, counters, now);
    RolledStateIs(raw.windows, current, counters, now);
    RolloverConserves(raw.windows, current, counters, now, id);
    PostWindowsEarns(Draft(data.(windows := rolled.state), []), rolled.entries, now, id);
    PostWindowsService(Draft(data.(windows := rolled.state), []), rolled.entries, now);
    PostWindowsKeepsWindows(Draft(data.(windows := rolled.state), []), rolled.entries, now);
    if Kept(raw.windows, current, id) {
      KeptEarnsNothing(raw.windows, current, counters, now, id);
    }
  }

  lemma RolledStateIs(previous: Option<WindowState>, current: Option<CurrentWindow>, counters: map<string, Counter>, now: int)
    ensures RolledOver(previous, current, counters, now).state == NextState(current)
  {}

  lemma {:induction false} PostWindowsKeepsWindows(d: Draft, entries: seq<Pending>, now: int)
    ensures PostWindows(d, entries, now).account.windows == d.account.windows
  {
    hide Spendable, ApplyTotals;
    if entries != [] {
      PostWindowsKeepsWindows(d, entries[..|entries| - 1], now);
    }
  }

  lemma SettledWindows(raw: Account, data: Account, now: int)
    ensures SettleWindows(raw, data, now).account.windows == NextState(CurrentWindows(data, now))
  {
    hide RolledOver, CurrentWindows, NextState;
    var rolled := RolledOver(raw.windows, CurrentWindows(data, now), SettledCounters(raw), now);
    RolledStateIs(raw.windows, CurrentWindows(data, now), SettledCounters(raw), now);
    PostWindowsKeepsWindows(Draft(data.(windows := rolled.state), []), rolled.entries, now);
  }

  // ---- charging ----

  /** The statement holds open exactly the windows of the serving entitlement. */
  predicate Tracked(a: Account, now: int) {
    a.windows == NextState(CurrentWindows(a, now))
  }

  lemma {:induction false} CurrentProductFound(products: seq<Product>, e: Entitlement, id: string)
    ensures var p, c := FindProduct(products, id), CurrentIn(CurrentProducts(products, e), id);
            && (p.Some? <==> c.Some?)
            && (c.Some? ==> c.value == CurrentProduct(id, p.value.weeklyLimit, p.value.weekSeconds, if id in e.counters then e.counters[id].weekStart else e.periodStart))
  {
    if products != [] {
      CurrentProductFound(products[1..], e, id);
      assert CurrentProducts(products, e)[1..] == CurrentProducts(products[1..], e);
    }
  }

  /** The open window of a product that may be charged counts the use of its week. */
  lemma TrackedUse(a: Account, id: string, now: int)
    requires PlansValid(a) && Tracked(a, now) && Active(Effective(a, now), now)
    requires FindProduct(Products(Effective(a, now)), id).Some? && id in Effective(a, now).counters
    ensures WindowOf(a.windows, id).Some? && SettledCounters(a) == Effective(a, now).counters
    ensures WindowOf(a.windows, id).value.start == Effective(a, now).counters[id].weekStart
    ensures UsedIn(a, id) == Effective(a, now).counters[id].week
  {
    hide StoredWindows, FindProduct, CurrentIn, WindowIn;
    CurrentIsValid(a, now);
    var e := Effective(a, now);
    CurrentProductFound(e.plan.value.products, e, id);
    StoredLookup(CurrentProducts(e.plan.value.products, e), id);
  }

  /** A counter of the serving entitlement whose week counts `more` credits more. */
  lemma WithCounterCounts(a: Account, id: string, c: Counter, more: int, now: int, other: string)
    requires PlansValid(a) && Tracked(a, now) && Active(Effective(a, now), now)
    requires FindProduct(Products(Effective(a, now)), id).Some? && id in Effective(a, now).counters
    requires c.weekStart == Effective(a, now).counters[id].weekStart && c.week == Effective(a, now).counters[id].week + more
    ensures var b := WithCounter(a, now, id, c);
            && OpenRest(b, other) == OpenRest(a, other) - (if other == id then more else 0)
            && b.windows == a.windows && b.balances == a.balances && PlansValid(b)
            && CurrentWindows(b, now) == CurrentWindows(a, now)
            && Active(Effective(b, now), now) && Products(Effective(b, now)) == Products(Effective(a, now))
  {
    hide FindProduct, WindowIn;
    TrackedUse(a, id, now);
    var e := Effective(a, now);
    var b := WithCounter(a, now, id, c);
    var f := Effective(b, now);
    assert CurrentProducts(f.plan.value.products, f) == CurrentProducts(e.plan.value.products, e);
    WindowInHasId(if a.windows.Some? then a.windows.value.products else [], other);
  }

  lemma TakenCounts(a: Account, id: string, fromAllowance: nat, fromBalance: int, cap: Option<RateCap>, counted: int, now: int, other: string)
    requires PlansValid(a) && Tracked(a, now) && fromAllowance <= AllowanceLeft(a, id, now)
    ensures var b := Taken(a, id, fromAllowance, fromBalance, cap, counted, now);
            && Worth(b, other) == Worth(a, other) - (if other == id then fromAllowance + fromBalance else 0)
            && b.windows == a.windows && PlansValid(b) && Tracked(b, now)
  {
    hide Tracked, CurrentWindows, PlansValid, FindProduct, OpenRest, WithCounter;
    var e := Effective(a, now);
    var mid := TakeAllowance(a, id, fromAllowance, now);
    if fromAllowance > 0 {
      WithCounterCounts(a, id, Charged(FindProduct(Products(e), id).value, e.counters[id], fromAllowance), fromAllowance, now, other);
      SameTracked(a, mid, now);
    }
    var f := Effective(mid, now);
    var q := FindProduct(Products(f), id);
    var last := CountRate(mid, id, cap, counted, now);
    if cap.Some? && counted > 0 && Active(f, now) && q.Some? && id in f.counters {
      WithCounterCounts(mid, id, Counted(q.value, f.counters[id], cap.value.rateId, counted), 0, now, other);
      SameTracked(mid, last, now);
    }
    var b := Taken(a, id, fromAllowance, fromBalance, cap, counted, now);
    BalancesApart(last, b, now, other);
  }

  lemma SameTracked(a: Account, b: Account, now: int)
    requires Tracked(a, now) && a.windows == b.windows && CurrentWindows(a, now) == CurrentWindows(b, now)
    ensures Tracked(b, now)
  {}

  lemma BalancesApart(a: Account, b: Account, now: int, id: string)
    requires a.own == b.own && a.grant == b.grant && a.windows == b.windows
    ensures OpenRest(a, id) == OpenRest(b, id) && Tracked(a, now) == Tracked(b, now) && PlansValid(a) == PlansValid(b)
    ensures CurrentWindows(a, now) == CurrentWindows(b, now)
  {}

  // ---- one operation ----

  /** The account an operation settles the windows of: as of now, with the plan it is about to have. */
  function Settling(s: Settings, op: Operation, raw: Account, now: int): Account {
    match op
    case Maintain => NormalizedAccount(raw.(own := MaintenanceSource(raw.own, now)), now)
    case GrantPlan(_, planId, _, _) =>
      if FindPlan(s.plans, planId).None? then raw
      else NormalizedAccount(raw, now).(grant := Some(Normalized(AssignedPlan(FindPlan(s.plans, planId).value, now), now)))
    case ChangePlan(_, planId) =>
      if FindPlan(s.plans, planId).None? then raw
      else NormalizedAccount(raw.(own := Chosen(raw.own, FindPlan(s.plans, planId).value, now)), now)
    case _ => NormalizedAccount(raw, now)
  }

  /**
    A stage of an operation that settled the windows of `data`: it earned what it changed of the
    account's worth, and the drift.
  */
  ghost predicate Earns(raw: Account, d: Draft, data: Account, now: int, id: string) {
    && Earned(d.posted, id) == Worth(d.account, id) - Worth(raw, id) + Drift(raw, data, now, id)
    && Sound(d.account) && Tracked(d.account, now)
    && d.account.windows == WithWindowsOf(data, now).windows
    && Total(d.posted, IdleOf(id)) == IdleCharge(raw, data, now, id)
  }

  lemma NormalizedPlans(raw: Account, now: int)
    ensures PlansValid(raw) ==> PlansValid(NormalizedAccount(raw, now))
    ensures NormalizedAccount(raw, now).balances == raw.balances
  {}

  lemma SettledEarns(raw: Account, data: Account, now: int, id: string)
    requires Sound(raw) && PlansValid(data) && data.balances == raw.balances
    ensures var d := SettleWindows(raw, data, now);
            && Earns(raw, d, data, now, id)
  {
    hide Drift, IdleCharge, SettleWindows, Earned, Worth, CurrentWindows, PlansValid;
    SettlingEarns(raw, data, now, id);
    SettledWindows(raw, data, now);
    SettledService(raw, data, now);
    BalancesApart(data.(windows := SettleWindows(raw, data, now).account.windows), SettleWindows(raw, data, now).account, now, id);
    BalancesApartFromWindows(data, SettleWindows(raw, data, now).account, now);
  }

  lemma BalancesApartFromWindows(a: Account, b: Account, now: int)
    requires a.own == b.own && a.grant == b.grant
    ensures CurrentWindows(a, now) == CurrentWindows(b, now)
  {}

  lemma SweptEarns(raw: Account, d: Draft, now: int, data: Account, id: string)
    requires Earns(raw, d, data, now, id)
    ensures Earns(raw, Swept(d, now), data, now, id)
  {
    hide Earned, Worth, PostExpired, LiveHolds, ExpiredHolds, PlansValid, Tracked, CurrentWindows;
    var a := d.account.(holds := LiveHolds(d.account.holds, now));
    var expired := ExpiredHolds(d.account.holds, now);
    SameWorth(a, d.account, id);
    BalancesApart(d.account, a, now, id);
    PostExpiredEarns(d.(account := a), expired, now, id);
    PostExpiredService(d.(account := a), expired, now);
    PostExpiredKeepsWindows(d.(account := a), expired, now);
    BalancesApart(a, Swept(d, now).account, now, id);
  }

  lemma {:induction false} PostExpiredKeepsWindows(d: Draft, expired: seq<Hold>, now: int)
    ensures PostExpired(d, expired, now).account.windows == d.account.windows
  {
    hide Spendable, ApplyTotals;
    if expired != [] {
      PostExpiredKeepsWindows(d, expired[..|expired| - 1], now);
    }
  }

  lemma OpenedEarns(raw: Account, now: int, id: string)
    requires Sound(raw)
    ensures var data := NormalizedAccount(raw, now);
            && Earns(raw, Opened(raw, now), data, now, id)
            && Earns(raw, Swept(Opened(raw, now), now), data, now, id)
  {
    hide Earns, Drift, Tracked, NormalizedAccount, PlansValid, SettleWindows;
    NormalizedPlans(raw, now);
    SettledEarns(raw, NormalizedAccount(raw, now), now, id);
    SweptEarns(raw, Opened(raw, now), now, NormalizedAccount(raw, now), id);
  }

  /** The operation's own entry says what the operation did to the worth of the account. */
  lemma OwnEntryEarns(raw: Account, d: Draft, b: Account, e: Entry, seed: Seed, now: int, data: Account, id: string)
    requires Earns(raw, d, data, now, id) && Sound(b) && Tracked(b, now) && b.windows == d.account.windows
    requires Worth(b, id) == Worth(d.account, id) + CreditsIn(e, id) && !e.details.Expired?
    ensures Earns(raw, Post(d.(account := b), e, seed, now), data, now, id)
  {
    hide Earned, Worth, Post, PlansValid, ValidState, CreditsIn, IdleIn, IdleCharge, Drift, WithWindowsOf, CurrentWindows, NextState, Total;
    OnlyExpiriesIdle(e, id);
    PostEarns(d.(account := b), e, seed, now, id);
    PostSame(d.(account := b), e, seed, now);
    PostKeepsWindows(d.(account := b), e, seed, now);
    BalancesApart(b, Post(d.(account := b), e, seed, now).account, now, id);
  }

  lemma OnlyExpiriesIdle(e: Entry, id: string)
    requires !e.details.Expired?
    ensures IdleIn(e, id) == 0
  {}

  lemma PostKeepsWindows(d: Draft, e: Entry, seed: Seed, now: int)
    ensures Post(d, e, seed, now).account.windows == d.account.windows
  {}

  lemma ConsumeEarns(s: Settings, requestId: string, product: string, credits: int, kind: Kind, source: Source, rateId: Option<string>,
                     first: Option<Data>, account: Option<Account>, now: int, id: string)
    requires Sound(account.GetOr(NO_ACCOUNT))
    requires DecideConsume(s, requestId, product, credits, kind, source, rateId, first, account, now).Commit?
    ensures var raw := account.GetOr(NO_ACCOUNT);
            Earns(raw, DecideConsume(s, requestId, product, credits, kind, source, rateId, first, account, now).draft,
                  NormalizedAccount(raw, now), now, id)
  {
    hide Drift, IdleCharge, Opened, NormalizedAccount, Taken, CapOf, Exceeded, Blocked, ValidId, FreeAllowance, FreeBalance, Spendable, Post, Tracked, Worth, Earned, PlansValid;
    var raw := account.GetOr(NO_ACCOUNT);
    OpenedEarns(raw, now, id);
    var d := Opened(raw, now);
    var fromAllowance := Min(credits, FreeAllowance(d.account, product, now));
    FreeAllowanceIsLeft(d.account, product, now);
    var cap := CapOf(d.account, s.plans, product, rateId, now);
    TakenCounts(d.account, product, fromAllowance, credits - fromAllowance, cap, credits, now, id);
    var b := Taken(d.account, product, fromAllowance, credits - fromAllowance, cap, credits, now);
    var e := PlainEntry(now, kind, source, -credits, Some(product), Some(requestId)).(fromAllowance := fromAllowance, fromBalance := credits - fromAllowance);
    OwnEntryEarns(raw, d, b, e, UsageSeed(requestId), now, NormalizedAccount(raw, now), id);
  }

  lemma FreeAllowanceIsLeft(a: Account, id: string, now: int)
    ensures FreeAllowance(a, id, now) <= AllowanceLeft(a, id, now)
  {}

  lemma AddEarns(raw: Account, product: string, e: Entry, seed: Seed, now: int, id: string)
    requires Sound(raw) && e.productId == Some(product) && e.details == NoDetails
    ensures var d := Opened(raw, now);
            Earns(raw, Post(d.(account := WithBalance(d.account, product, Balance(d.account, product) + e.credits)), e, seed, now),
                  NormalizedAccount(raw, now), now, id)
  {
    hide Drift, IdleCharge, Opened, NormalizedAccount, Post, Tracked, OpenRest, Earned, PlansValid;
    OpenedEarns(raw, now, id);
    var d := Opened(raw, now);
    var b := WithBalance(d.account, product, Balance(d.account, product) + e.credits);
    BalancesApart(d.account, b, now, id);
    OwnEntryEarns(raw, d, b, e, seed, now, NormalizedAccount(raw, now), id);
  }

  lemma ReserveEarns(s: Settings, op: Operation, first: Option<Data>, account: Option<Account>, receipts: seq<Option<Data>>, now: int, id: string)
    requires op.Reserve? && |receipts| == |ToSweep(op, account, now)| && Sound(account.GetOr(NO_ACCOUNT))
    requires DecideReserve(s, op, first, account, receipts, now).Commit?
    ensures var raw := account.GetOr(NO_ACCOUNT);
            Earns(raw, DecideReserve(s, op, first, account, receipts, now).draft, NormalizedAccount(raw, now), now, id)
  {
    hide Drift, IdleCharge, Opened, Swept, NormalizedAccount, CapOf, Exceeded, Blocked, ValidId, ValidReservationKey, Spendable, Post, Tracked, Worth, Earned, PlansValid,
         ExpiredReceipts, ToSweep, AmountOf;
    var raw := account.GetOr(NO_ACCOUNT);
    OpenedEarns(raw, now, id);
    var d := Swept(Opened(raw, now), now);
    var credits := AmountOf(s, op.amount).credits;
    var rateId := if op.amount.Priced? then Some(op.amount.estimate.rateId) else None;
    var cap := CapOf(d.account, s.plans, op.productId, rateId, now);
    var hold := Hold(op.key, op.productId, credits, now, now + op.ttl.GetOr(DEFAULT_TTL), if cap.Some? then Some(cap.value.rateId) else None);
    var b := d.account.(holds := d.account.holds + [hold]);
    SameWorth(b, d.account, id);
    BalancesApart(d.account, b, now, id);
    var e := PlainEntry(now, KindReservation, op.source, 0, Some(op.productId), Some(op.key)).(held := credits);
    OwnEntryEarns(raw, d, b, e, ReserveSeed(op.key), now, NormalizedAccount(raw, now), id);
  }

  lemma SettleEarns(s: Settings, op: Operation, first: Option<Data>, account: Option<Account>, receipts: seq<Option<Data>>, now: int, id: string)
    requires op.Settle? && |receipts| == |ToSweep(op, account, now)| && Sound(account.GetOr(NO_ACCOUNT))
    requires DecideSettle(s, op, first, account, receipts, now).Commit?
    ensures var raw := account.GetOr(NO_ACCOUNT);
            Earns(raw, DecideSettle(s, op, first, account, receipts, now).draft, NormalizedAccount(raw, now), now, id)
  {
    hide Drift, IdleCharge, Opened, Swept, NormalizedAccount, Taken, CapOf, ValidReservationKey, Spendable, FreeAllowance, FreeBalance, Post, Tracked, Worth, Earned, PlansValid,
         ExpiredReceipts, ToSweep, UsedOf, WithoutHold, FindHold, WithWindowsOf, ValidState, LiveHolds, ApplyTotals;
    var raw := account.GetOr(NO_ACCOUNT);
    OpenedEarns(raw, now, id);
    var d := Swept(Opened(raw, now), now);
    var r := ReceiptOf(first, op.source).value;
    var used := UsedOf(s, r, op.usage).credits;
    var hold := FindHold(d.account.holds, op.key);
    var a := Dropped(d.account, op.key);
    SameWorth(a, d.account, id);
    BalancesApart(d.account, a, now, id);
    FreeAllowanceIsLeft(a, r.productId, now);
    var fromAllowance := Min(used, FreeAllowance(a, r.productId, now));
    var fromBalance := Min(used - fromAllowance, FreeBalance(a, r.productId, now));
    var cap := CapOf(a, s.plans, r.productId, if r.estimate.Some? then Some(r.estimate.value.rateId) else None, now);
    TakenCounts(a, r.productId, fromAllowance, fromBalance, cap, used, now, id);
    var b := Taken(a, r.productId, fromAllowance, fromBalance, cap, used, now);
    var charged := fromAllowance + fromBalance;
    var e := PlainEntry(now, KindSettlement, op.source, -charged, Some(r.productId), Some(op.key))
               .(fromAllowance := fromAllowance, fromBalance := fromBalance, held := if hold.Some? then -(hold.value.credits as int) else 0,
                 details := Details.Settled(r.credits, used, used - charged));
    OwnEntryEarns(raw, d, b, e, SettleSeed(op.key), now, NormalizedAccount(raw, now), id);
  }

  lemma ReleaseEarns(s: Settings, op: Operation, first: Option<Data>, account: Option<Account>, receipts: seq<Option<Data>>, now: int, id: string)
    requires op.ReleaseHold? && |receipts| == |ToSweep(op, account, now)| && Sound(account.GetOr(NO_ACCOUNT))
    requires DecideRelease(s, op, first, account, receipts, now).Commit?
    ensures var raw := account.GetOr(NO_ACCOUNT);
            Earns(raw, DecideRelease(s, op, first, account, receipts, now).draft, NormalizedAccount(raw, now), now, id)
  {
    hide Drift, IdleCharge, Opened, Swept, NormalizedAccount, ValidReservationKey, Post, Tracked, Worth, Earned, PlansValid, ExpiredReceipts, ToSweep, WithoutHold, FindHold;
    var raw := account.GetOr(NO_ACCOUNT);
    OpenedEarns(raw, now, id);
    var d := Swept(Opened(raw, now), now);
    var r := ReceiptOf(first, op.source).value;
    var hold := FindHold(d.account.holds, op.key);
    if hold.Some? {
      var b := Dropped(d.account, op.key);
      SameWorth(b, d.account, id);
      BalancesApart(d.account, b, now, id);
      var e := PlainEntry(now, KindRelease, op.source, 0, Some(r.productId), Some(op.key)).(held := -(hold.value.credits as int));
      OwnEntryEarns(raw, d, b, e, ReleaseSeed(op.key), now, NormalizedAccount(raw, now), id);
    }
  }

  lemma MaintainEarns(s: Settings, account: Option<Account>, receipts: seq<Option<Data>>, now: int, id: string)
    requires |receipts| == |ToSweep(Maintain, account, now)| && Sound(account.GetOr(NO_ACCOUNT))
    requires DecideMaintain(account, receipts, now).Commit?
    ensures var raw := account.GetOr(NO_ACCOUNT);
            Earns(raw, DecideMaintain(account, receipts, now).draft, Settling(s, Maintain, raw, now), now, id)
  {
    hide Drift, IdleCharge, Swept, SettleWindows, NormalizedAccount, Tracked, Earns, ExpiredReceipts, ToSweep;
    var raw := account.value;
    var source := raw.(own := MaintenanceSource(raw.own, now));
    NormalizedPlans(source, now);
    var data := NormalizedAccount(source, now);
    SettledEarns(raw, data, now, id);
    SweptEarns(raw, SettleWindows(raw, data, now), now, data, id);
  }

  /** A change of plan posts an entry of no credits. */
  lemma PlanEarns(raw: Account, data: Account, e: Entry, seed: Seed, now: int, id: string)
    requires Sound(raw) && PlansValid(data) && data.balances == raw.balances && e.productId == None && e.details == NoDetails
    ensures Earns(raw, Post(SettleWindows(raw, data, now), e, seed, now), data, now, id)
  {
    hide Drift, IdleCharge, SettleWindows, Post, Tracked, Worth, Earned, PlansValid;
    SettledEarns(raw, data, now, id);
    var d := SettleWindows(raw, data, now);
    assert d.(account := d.account) == d;
    OwnEntryEarns(raw, d, d.account, e, seed, now, data, id);
  }

  lemma GrantPlanEarns(s: Settings, op: Operation, first: Option<Data>, account: Option<Account>, now: int, id: string)
    requires op.GrantPlan? && ValidSettings(s) && Sound(account.GetOr(NO_ACCOUNT)) && DecideGrantPlan(s, op, first, account, now).Commit?
    ensures var raw := account.GetOr(NO_ACCOUNT);
            Earns(raw, DecideGrantPlan(s, op, first, account, now).draft, Settling(s, op, raw, now), now, id)
  {
    hide Drift, IdleCharge, SettleWindows, Post, Earns, FindPlan, ValidId, ValidSettings, MoveCounters;
    var raw := account.GetOr(NO_ACCOUNT);
    PlansAreValid(s, op.planId);
    NormalizedPlans(raw, now);
    var e := PlainEntry(now, KindPlan, ByAdmin, 0, None, Some(op.requestId)).(amountMinor := op.amountMinor, currency := op.currency);
    PlanEarns(raw, Settling(s, op, raw, now), e, GrantSeed(op.requestId), now, id);
  }

  lemma ChangePlanEarns(s: Settings, op: Operation, first: Option<Data>, account: Option<Account>, now: int, id: string)
    requires op.ChangePlan? && ValidSettings(s) && Sound(account.GetOr(NO_ACCOUNT)) && DecideChange(s, op, first, account, now).Commit?
    ensures var raw := account.GetOr(NO_ACCOUNT);
            Earns(raw, DecideChange(s, op, first, account, now).draft, Settling(s, op, raw, now), now, id)
  {
    hide Drift, IdleCharge, SettleWindows, Post, Earns, FindPlan, ValidId, ValidSettings, MoveCounters;
    var raw := account.GetOr(NO_ACCOUNT);
    PlansAreValid(s, op.planId);
    NormalizedPlans(raw.(own := Chosen(raw.own, FindPlan(s.plans, op.planId).value, now)), now);
    PlanEarns(raw, Settling(s, op, raw, now), PlainEntry(now, KindPlan, ByUser, 0, None, Some(op.requestId)), PlanSeed(op.requestId), now, id);
  }

  lemma DecisionEarns(s: Settings, op: Operation, first: Option<Data>, account: Option<Account>, receipts: seq<Option<Data>>, now: int, id: string)
    requires ValidSettings(s) && |receipts| == |ToSweep(op, account, now)| && Sound(account.GetOr(NO_ACCOUNT))
    requires Decide(s, op, first, account, receipts, now).Commit?
    ensures var raw := account.GetOr(NO_ACCOUNT);
            Earns(raw, Decide(s, op, first, account, receipts, now).draft, Settling(s, op, raw, now), now, id)
  {
    hide Earns, Sound, DecideConsume, DecideReserve, DecideSettle, DecideRelease, DecideMaintain, DecideGrantPlan, DecideChange,
         Opened, NormalizedAccount, Balance, ToSweep, AnyPlanHas, ValidId, Drift, ValidSettings;
    var raw := account.GetOr(NO_ACCOUNT);
    match op
    case Consume(requestId, product, credits, kind, source, rateId) =>
      ConsumeEarns(s, requestId, product, credits, kind, source, rateId, first, account, now, id);
    case Record(requestId, product, credits, kind, source, amountMinor, currency) =>
      if credits < 0 {
        ConsumeEarns(s, requestId, product, -credits, kind, source, None, first, account, now, id);
      } else {
        var e := PlainEntry(now, kind, source, credits, Some(product), Some(requestId)).(amountMinor := amountMinor, currency := currency);
        AddEarns(raw, product, e, RecordSeed(requestId), now, id);
      }
    case Reserve(_, _, _, _, _) => ReserveEarns(s, op, first, account, receipts, now, id);
    case Settle(_, _, _) => SettleEarns(s, op, first, account, receipts, now, id);
    case ReleaseHold(_, _) => ReleaseEarns(s, op, first, account, receipts, now, id);
    case Maintain => MaintainEarns(s, account, receipts, now, id);
    case GrantCredits(requestId, product, credits, amountMinor, currency) =>
      var e := PlainEntry(now, KindGrant, ByAdmin, credits, Some(product), Some(requestId)).(amountMinor := amountMinor, currency := currency);
      AddEarns(raw, product, e, GrantSeed(requestId), now, id);
    case GrantPlan(_, _, _, _) => GrantPlanEarns(s, op, first, account, now, id);
    case ChangePlan(_, _) => ChangePlanEarns(s, op, first, account, now, id);
  }

  // ---- every history ----

  function DriftOf(s: Settings, book: Book, call: Call, id: string): int {
    if DecideOn(s, book, call.op, call.now).Commit? then Drift(AccountOf(book), Settling(s, call.op, AccountOf(book), call.now), call.now, id) else 0
  }

  function RunDrift(s: Settings, calls: seq<Call>, id: string): int {
    if calls == [] then 0
    else RunDrift(s, calls[..|calls| - 1], id) + DriftOf(s, Run(s, calls[..|calls| - 1]), calls[|calls| - 1], id)
  }

  lemma EarnedTogether(st: seq<Posted>, posted: seq<Posted>, id: string)
    ensures Earned(st + posted, id) == Earned(st, id) + Earned(posted, id)
  {
    TotalOfConcatenation(st, posted, CreditsOf(id));
    TotalOfConcatenation(st, posted, IdleOf(id));
  }

  lemma OperationEarns(s: Settings, book: Book, call: Call, id: string)
    requires ValidSettings(s) && Sound(AccountOf(book))
    ensures var after := Apply(s, book, call.op, call.now);
            && Sound(AccountOf(after))
            && Earned(after.statement, id) - Worth(AccountOf(after), id) ==
               Earned(book.statement, id) - Worth(AccountOf(book), id) + DriftOf(s, book, call, id)
  {
    hide Earned, Worth, Sound, Decide, ToSweep, Drift, Settling, WithExpired, WithTarget, ValidSettings;
    var c := DecideOn(s, book, call.op, call.now);
    if c.Commit? {
      DecisionEarns(s, call.op, RowOf(book, FirstRow(call.op)), book.account, ReceiptsOf(book.rows, ToSweep(call.op, book.account, call.now)), call.now, id);
      EarnedTogether(book.statement, c.draft.posted, id);
    }
  }

  /**
    The exact law, for every history and every product: credits plus what expiries charged for idle
    windows equal the rest of the open window plus the additional credits plus the drift that
    changes of entitlement brought in.
  */
  lemma {:induction false} StatementBalances(s: Settings, calls: seq<Call>, id: string)
    requires ValidSettings(s)
    ensures var book := Run(s, calls);
            && Sound(AccountOf(book))
            && Total(book.statement, CreditsOf(id)) + Total(book.statement, IdleOf(id)) ==
               OpenRest(AccountOf(book), id) + Balance(AccountOf(book), id) + RunDrift(s, calls, id)
  {
    hide Apply, DriftOf, ValidSettings;
    if calls == [] {
    } else {
      var n := |calls| - 1;
      StatementBalances(s, calls[..n], id);
      OperationEarns(s, Run(s, calls[..n]), calls[n], id);
    }
  }
}
