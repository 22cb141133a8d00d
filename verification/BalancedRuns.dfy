/**
  The documented balance law, where it holds: as long as one entitlement serves, nothing drifts, so
  the statement is balanced exactly when no expiry charged for idle windows.
*/
module BalancedRuns {
  import opened Prelude
  import opened Plans
  import opened Windows
  import opened IdleWalk
  import opened Rollover
  import opened Conservation
  import opened Accounts
  import opened Operations
  import opened Books
  import opened Retries
  import opened Coverage
  import opened CoveredRuns
  import opened Solvency
  import opened BalanceLaw

  /** Periods of an unpaid plan have its length, and nothing starts in the future. */
  ghost predicate Anchored(a: Account, t: int) {
    var e := Effective(a, t);
    && (e.mode == Unpaid && e.plan.Some? ==> e.periodEnd == e.periodStart + Step(e))
    && e.periodStart <= t
    && (forall id: string :: WindowOf(a.windows, id).Some? ==> WindowOf(a.windows, id).value.start <= t)
  }

  /** An account in use: its entitlement is active and the statement holds its windows open. */
  ghost predicate InUse(a: Account, t: int) {
    && AccountInLimits(a) && Solvent(a) && Sound(a)
    && Active(Effective(a, t), t) && Tracked(a, t) && Anchored(a, t)
    && (a.grant.Some? ==> !Renews(a.grant.value, t))
  }

  // ---- one step of time ----

  lemma MovedFar(start: int, width: Positive, now: int)
    requires now >= start + width
    ensures start < Moved(start, width, now) <= now
  {
    MovedBrackets(start, width, now);
    var q := (now - start) / width;
    assert now - start == q * width + (now - start) % width;
    assert q <= 0 ==> q * width <= 0;
    assert q >= 1;
    assert q * width >= width by { ProductAtLeast(q, width); }
  }

  lemma ProductAtLeast(q: int, width: Positive)
    requires q >= 1
    ensures q * width >= width
  {}

  lemma RenewedFar(e: Entitlement, now: int)
    requires Renews(e, now) && e.periodEnd == e.periodStart + Step(e)
    ensures e.periodEnd <= Renewed(e, now).periodStart <= now
  {
    var step := Step(e);
    var k := (now - e.periodStart) / step;
    assert now - e.periodStart == k * step + (now - e.periodStart) % step;
    assert k <= 0 ==> k * step <= 0;
    ProductAtLeast(k, step);
  }

  /** A weekly window moves and forgets its use, or stays and keeps it. */
  lemma WeekMovesOrStays(p: Product, c: Counter, now: int)
    ensures var m := MoveCounter(p, c, now);
            || (m.weekStart == c.weekStart && m.week == c.week)
            || (c.weekStart < m.weekStart <= now && m.week == 0)
  {
    if now >= c.weekStart + p.weekSeconds * 1000 {
      MovedFar(c.weekStart, p.weekSeconds * 1000, now);
    }
  }

  /** The weekly window of a product, between two looks at an entitlement that was active at the first. */
  lemma WeekBetweenLooks(e: Entitlement, id: string, t1: int, t2: int)
    requires ValidEntitlement(e) && FindProduct(Products(e), id).Some?
    requires e.mode == Unpaid ==> e.periodEnd == e.periodStart + Step(e)
    requires t1 <= t2 && e.periodStart <= t1 < e.periodEnd && CounterOf(e.counters, id, e.periodStart).weekStart <= t1
    ensures var n, c := Normalized(e, t2), CounterOf(e.counters, id, e.periodStart);
            && id in n.counters
            && n.counters[id].weekStart <= t2
            && (n.counters[id].weekStart == c.weekStart ==> n.counters[id].week == c.week)
            && (n.counters[id].weekStart != c.weekStart ==> n.counters[id].week == 0)
            && n.periodStart <= t2
            && (n.mode == Unpaid && n.plan.Some? ==> n.periodEnd == n.periodStart + Step(n))
  {
    hide MoveCounter, MoveCounters;
    NormalizedCounter(e, t2, id);
    var p := FindProduct(Products(e), id).value;
    WeekMovesOrStays(p, CounterOf(Renewed(e, t2).counters, id, Renewed(e, t2).periodStart), t2);
    if Renews(e, t2) {
      RenewedFar(e, t2);
    }
  }

  /** The statement's window of a product starts with the week its counter counts. */
  lemma OpenWindow(a: Account, id: string, now: int)
    requires PlansValid(a) && Active(Effective(a, now), now)
    ensures var b, e := WithWindowsOf(a, now), Effective(a, now);
            var p, w := FindProduct(Products(e), id), WindowOf(b.windows, id);
            && (w.Some? <==> p.Some?)
            && (w.Some? ==> w.value.start == (if id in e.counters then e.counters[id].weekStart else e.periodStart) && w.value.allowance == p.value.weeklyLimit)
            && b.windows.Some? && b.windows.value.key == WindowKey(OnGrant(a, now), e.plan.value.id)
            && SettledCounters(b) == e.counters
            && UsedIn(b, id) == (if p.Some? && id in e.counters then e.counters[id].week else 0)
            && ProductOf(CurrentWindows(a, now), id).Some? == p.Some?
            && (p.Some? ==> ProductOf(CurrentWindows(a, now), id).value.start == w.value.start)
  {
    hide StoredWindows, FindProduct, CurrentIn, WindowIn;
    CurrentIsValid(a, now);
    var e := Effective(a, now);
    CurrentProductFound(e.plan.value.products, e, id);
    StoredLookup(CurrentProducts(e.plan.value.products, e), id);
  }

  lemma NormalizedSide(raw: Account, t1: int, t2: int)
    requires Steady(raw, t1, t2) && !Renews(Effective(raw, t1), t1) && Active(Effective(raw, t1), t1)
    requires OnGrant(NormalizedAccount(raw, t1), t1) == OnGrant(raw, t1)
    ensures Effective(NormalizedAccount(raw, t2), t2) == Normalized(Effective(raw, t1), t2)
    ensures OnGrant(NormalizedAccount(raw, t2), t2) == OnGrant(raw, t1)
  {
    hide Normalized;
  }

  /** A grant in use is not renewed, so looking at it does not end or prolong it. */
  lemma SameSideNow(raw: Account, t: int)
    requires Active(Effective(raw, t), t)
    requires raw.grant.Some? ==> !Renews(raw.grant.value, t)
    ensures OnGrant(NormalizedAccount(raw, t), t) == OnGrant(raw, t)
  {
    hide MoveCounters;
  }

  lemma TrackedWindows(a: Account, now: int)
    requires Tracked(a, now)
    ensures WithWindowsOf(a, now) == a
  {}

  /** Data that shows the serving entitlement as looking at the account would. */
  ghost predicate Shows(data: Account, raw: Account, now: int) {
    var b := NormalizedAccount(raw, now);
    PlansValid(data) && OnGrant(data, now) == OnGrant(b, now) && Effective(data, now) == Effective(b, now)
  }

  lemma InUseFacts(raw: Account, data: Account, t1: int, t2: int, id: string)
    requires InUse(raw, t1) && Steady(raw, t1, t2) && Shows(data, raw, t2)
    ensures var e := Effective(raw, t1);
            && t1 <= t2
            && PlansValid(raw) && PlansValid(data)
            && Tracked(raw, t1) && Active(e, t1) && ValidEntitlement(e)
            && Effective(data, t2) == Normalized(e, t2) && Products(Normalized(e, t2)) == Products(e) && Active(Effective(data, t2), t2)
            && CurrentWindows(data, t2).Some? && CurrentWindows(data, t2).value.key == WindowKey(OnGrant(raw, t1), e.plan.value.id)
            && (e.mode == Unpaid ==> e.periodEnd == e.periodStart + Step(e))
            && e.periodStart <= t1 < e.periodEnd
            && (WindowOf(raw.windows, id).Some? ==> WindowOf(raw.windows, id).value.start <= t1)
            && (FindProduct(Products(e), id).Some? && id in e.counters ==>
                  0 <= e.counters[id].week <= FindProduct(Products(e), id).value.weeklyLimit)
  {
    hide MoveCounters, Normalized, CurrentProducts;
    var e := Effective(raw, t1);
    SameSideNow(raw, t1);
    NormalizedSide(raw, t1, t2);
    NormalizedCounter(e, t2, id);
  }

  /** Between two looks at one entitlement nothing drifts, and the windows held open have started. */
  lemma NothingDrifts(raw: Account, data: Account, t1: int, t2: int, id: string)
    requires InUse(raw, t1) && Steady(raw, t1, t2) && Shows(data, raw, t2)
    ensures Drift(raw, data, t2, id) == 0 && Active(Effective(data, t2), t2)
    ensures var w := WindowOf(WithWindowsOf(data, t2).windows, id); w.Some? ==> w.value.start <= t2
    ensures var f := Effective(data, t2); f.periodStart <= t2 && (f.mode == Unpaid && f.plan.Some? ==> f.periodEnd == f.periodStart + Step(f))
  {
    hide Normalized, MoveCounters, Active, AccountInLimits, WithWindowsOf, CurrentWindows, Effective, OnGrant, FindProduct, Tracked, NormalizedAccount, Steady;
    InUseFacts(raw, data, t1, t2, id);
    var e := Effective(raw, t1);
    TrackedWindows(raw, t1);
    OpenWindow(raw, id, t1);
    OpenWindow(data, id, t2);
    DriftOfWindows(raw, data, t2, id);
    PeriodsBetweenLooks(e, t1, t2);
    if FindProduct(Products(e), id).Some? {
      WeekBetweenLooks(e, id, t1, t2);
      var w := WindowOf(raw.windows, id).value;
      assert UsedIn(raw, id) <= w.allowance;
    }
  }

  lemma PeriodsBetweenLooks(e: Entitlement, t1: int, t2: int)
    requires t1 <= t2 && e.periodStart <= t1 && (e.mode == Unpaid && e.plan.Some? ==> e.periodEnd == e.periodStart + Step(e))
    ensures var n := Normalized(e, t2); n.periodStart <= t2 && (n.mode == Unpaid && n.plan.Some? ==> n.periodEnd == n.periodStart + Step(n))
  {
    if Renews(e, t2) {
      RenewedFar(e, t2);
    }
  }

  lemma DriftOfWindows(raw: Account, data: Account, now: int, id: string)
    ensures var after := WithWindowsOf(data, now);
            Drift(raw, data, now, id) ==
            if Continuing(raw.windows, CurrentWindows(data, now)) && WindowOf(raw.windows, id).Some? && ProductOf(CurrentWindows(data, now), id).Some?
               && WindowOf(raw.windows, id).value.start == ProductOf(CurrentWindows(data, now), id).value.start
            then Open(raw.windows, id) - UsedIn(raw, id) - Open(after.windows, id) + UsedIn(after, id)
            else UsedIn(after, id) - Max(0, UsedIn(raw, id) - Open(raw.windows, id))
  {}

  // ---- one operation ----

  /** Every serving operation settles the windows of the entitlement that looking would show. */
  lemma SettlingShows(s: Settings, op: Operation, raw: Account, now: int)
    requires Serving(op) && PlansValid(raw)
    requires var b := NormalizedAccount(raw, now); Active(Effective(b, now), now)
    ensures Shows(Settling(s, op, raw, now), raw, now)
  {
    hide Normalized, MaintenanceSource, MaintenanceRenews;
    NormalizedPlans(raw, now);
    if op.Maintain? {
      MaintenanceRenewsAsLooking(raw.own, now);
      StoppedStaysStopped(raw.own, now);
      SourcePlan(raw.own, now);
      NormalizedPlans(raw.(own := MaintenanceSource(raw.own, now)), now);
    }
  }

  lemma SourcePlan(e: Entitlement, now: int)
    ensures MaintenanceSource(e, now).plan == e.plan
  {}

  /** A serving operation leaves the account in use and drifts nothing. */
  lemma ServingStaysInUse(s: Settings, book: Book, since: int, call: Call, id: string)
    requires ValidSettings(s) && InUse(AccountOf(book), since)
    requires DecideOn(s, book, call.op, call.now).Commit? && Serving(call.op) && Steady(AccountOf(book), since, call.now)
    ensures DriftOf(s, book, call, id) == 0
    ensures InUse(AccountOf(Apply(s, book, call.op, call.now)), call.now)
  {
    hide Decide, ToSweep, Drift, IdleCharge, Settling, AccountInLimits, Solvent, DirectCover, Worth, Earned, CurrentWindows, Normalized, WithExpired, WithTarget, ValidSettings, Shows, PlansValid, Tracked;
    var raw, now := AccountOf(book), call.now;
    var receipts := ReceiptsOf(book.rows, ToSweep(call.op, book.account, now));
    var c := DecideOn(s, book, call.op, now);
    var data := Settling(s, call.op, raw, now);
    SettlingShows(s, call.op, raw, now);
    ServingKeepsCover(s, call.op, RowOf(book, FirstRow(call.op)), book.account, receipts, now);
    DecisionEarns(s, call.op, RowOf(book, FirstRow(call.op)), book.account, receipts, now, id);
    NothingDrifts(raw, data, since, now, id);
    forall other: string | WindowOf(c.draft.account.windows, other).Some?
      ensures WindowOf(c.draft.account.windows, other).value.start <= now
    {
      NothingDrifts(raw, data, since, now, other);
    }
    ShownPeriods(data, raw, c.draft.account, now);
  }

  // ---- whole windows that nobody looked at ----

  /** A window with an allowance ended, and a whole further one with it, before anyone looked. */
  predicate SleptThrough(raw: Account, data: Account, now: int, id: string) {
    var current := CurrentWindows(data, now);
    var w, x := WindowOf(raw.windows, id), ProductOf(current, id);
    && Continuing(raw.windows, current) && w.Some? && x.Some?
    && w.value.allowance > 0 && w.value.start != x.value.start
    && Following(WeeksOf(current.value, w.value), w.value.start) < x.value.start
  }

  function SleptCredits(previous: Option<WindowState>, current: Option<CurrentWindow>, id: string): nat {
    var w, x := WindowOf(previous, id), ProductOf(current, id);
    if Continuing(previous, current) && w.Some? && x.Some? && w.value.start != x.value.start then
      var l := WeeksOf(current.value, w.value);
      SleptProduct(Walk(l, Min(Following(l, w.value.start), x.value.start), x.value.start, MAX_SKIPPED), w.value.allowance)
    else 0
  }

  function SleptProduct(skipped: nat, allowance: nat): nat {
    ProductSign(skipped, allowance);
    skipped * allowance
  }

  lemma ClosingSleeps(previous: Option<WindowState>, current: Option<CurrentWindow>, counters: map<string, Counter>, now: int, id: string)
    ensures var e := ClosingOf(previous, current, counters, now, id);
            (if e.Some? then Skipped(id)(e.value) else 0) == SleptCredits(previous, current, id)
  {
    hide Following, IdleWalk.Walk;
    WindowInHasId(if previous.Some? then previous.value.products else [], id);
  }

  lemma IdleChargeIsSleep(raw: Account, data: Account, now: int, id: string)
    requires Sound(raw) && PlansValid(data)
    ensures IdleCharge(raw, data, now, id) >= 0
    ensures IdleCharge(raw, data, now, id) > 0 <==> SleptThrough(raw, data, now, id)
  {
    hide RolledOver, CurrentWindows, Following, ClosingOf, OpeningOf, IdleWalk.Walk, WindowIn, CurrentIn;
    var current, counters := CurrentWindows(data, now), SettledCounters(raw);
    CurrentIsValid(data, now);
    RolledTotal(raw.windows, current, counters, now, id, Skipped(id));
    ClosingSleeps(raw.windows, current, counters, now, id);
    OpeningIsAwake(raw.windows, current, now, id);
    if Continuing(raw.windows, current) && WindowOf(raw.windows, id).Some? && ProductOf(current, id).Some? {
      var w, x := WindowOf(raw.windows, id).value, ProductOf(current, id).value;
      var l := WeeksOf(current.value, w);
      WalkIsPositive(l, Min(Following(l, w.start), x.start), x.start);
      ProductSign(Walk(l, Min(Following(l, w.start), x.start), x.start, MAX_SKIPPED), w.allowance);
    }
  }

  lemma OpeningIsAwake(previous: Option<WindowState>, current: Option<CurrentWindow>, now: int, id: string)
    ensures var e := OpeningOf(previous, current, now, id); e.Some? ==> Skipped(id)(e.value) == 0
  {}

  lemma WalkIsPositive(l: Lattice, from: int, to: int)
    ensures Walk(l, from, to, MAX_SKIPPED) > 0 <==> from < to
  {}

  lemma ShownPeriods(data: Account, raw: Account, b: Account, now: int)
    requires Shows(data, raw, now) && Active(Effective(data, now), now)
    requires SameServing(NormalizedAccount(raw, now), b, now)
    ensures var e, f := Effective(b, now), Effective(data, now);
            Active(e, now) && e.mode == f.mode && e.plan == f.plan && e.periodStart == f.periodStart && e.periodEnd == f.periodEnd
  {
    hide Normalized;
  }

  // ---- whole runs ----

  /** One entitlement serves every call that commits, and it is active whenever it does. */
  predicate OneEntitlement(s: Settings, book: Book, since: int, calls: seq<Call>)
    decreases |calls|
  {
    calls == [] ||
    var call := calls[0];
    var next := Apply(s, book, call.op, call.now);
    if DecideOn(s, book, call.op, call.now).Commit?
    then Serving(call.op) && Steady(AccountOf(book), since, call.now) && OneEntitlement(s, next, call.now, calls[1..])
    else OneEntitlement(s, book, since, calls[1..])
  }

  /** Some call that commits finds that a whole window with an allowance passed unused. */
  predicate Slept(s: Settings, book: Book, calls: seq<Call>, id: string)
    decreases |calls|
  {
    calls != [] &&
    var call := calls[0];
    (DecideOn(s, book, call.op, call.now).Commit? &&
     SleptThrough(AccountOf(book), Settling(s, call.op, AccountOf(book), call.now), call.now, id))
    || Slept(s, Apply(s, book, call.op, call.now), calls[1..], id)
  }

  /** The documented law for one product, as `ledgerCheck` evaluates it on the stored rows. */
  predicate Balanced(book: Book, id: string) {
    Total(book.statement, CreditsOf(id)) == OpenRest(AccountOf(book), id) + Balance(AccountOf(book), id)
  }

  /** How far the credits of the statement stay behind what the account holds. */
  function Behind(book: Book, id: string): int {
    Worth(AccountOf(book), id) - Total(book.statement, CreditsOf(id))
  }

  lemma StepFallsBehind(s: Settings, book: Book, since: int, call: Call, id: string)
    requires ValidSettings(s) && InUse(AccountOf(book), since)
    requires DecideOn(s, book, call.op, call.now).Commit? && Serving(call.op) && Steady(AccountOf(book), since, call.now)
    ensures var data := Settling(s, call.op, AccountOf(book), call.now);
            && Behind(Apply(s, book, call.op, call.now), id) == Behind(book, id) + IdleCharge(AccountOf(book), data, call.now, id)
            && PlansValid(data)
  {
    hide Decide, ToSweep, Drift, IdleCharge, Settling, Worth, WithExpired, WithTarget, ValidSettings, AccountInLimits, Solvent, Tracked, Anchored, Active, Steady, WithWindowsOf, Normalized;
    var raw, now := AccountOf(book), call.now;
    ServingStaysInUse(s, book, since, call, id);
    SteadyIsActive(raw, since, now);
    SettlingShows(s, call.op, raw, now);
    var posted := DecideOn(s, book, call.op, now).draft.posted;
    DecisionEarns(s, call.op, RowOf(book, FirstRow(call.op)), book.account, ReceiptsOf(book.rows, ToSweep(call.op, book.account, now)), now, id);
    TotalOfConcatenation(book.statement, posted, CreditsOf(id));
  }

  lemma SteadyIsActive(raw: Account, t1: int, t2: int)
    requires Steady(raw, t1, t2)
    ensures Active(Effective(NormalizedAccount(raw, t2), t2), t2)
  {}

  lemma {:induction false} RunFallsBehind(s: Settings, book: Book, since: int, calls: seq<Call>, id: string)
    requires ValidSettings(s) && InUse(AccountOf(book), since) && OneEntitlement(s, book, since, calls)
    ensures Behind(RunFrom(s, book, calls), id) >= Behind(book, id)
    ensures Behind(RunFrom(s, book, calls), id) > Behind(book, id) <==> Slept(s, book, calls, id)
    decreases |calls|
  {
    hide Apply, DecideOn, InUse, Steady, Behind, IdleCharge, SleptThrough, Settling, ValidSettings;
    if calls != [] {
      var call := calls[0];
      if DecideOn(s, book, call.op, call.now).Commit? {
        ServingStaysInUse(s, book, since, call, id);
        StepFallsBehind(s, book, since, call, id);
        InUseIsSound(AccountOf(book), since);
        IdleChargeIsSleep(AccountOf(book), Settling(s, call.op, AccountOf(book), call.now), call.now, id);
        RunFallsBehind(s, Apply(s, book, call.op, call.now), call.now, calls[1..], id);
      } else {
        NothingApplied(s, book, call.op, call.now);
        RunFallsBehind(s, book, since, calls[1..], id);
      }
    }
  }

  lemma InUseIsSound(a: Account, t: int)
    requires InUse(a, t)
    ensures Sound(a)
  {}

  /**
    The documented balance law, exactly: from a balanced statement, any run of charges, reservations,
    settlements, releases, sweeps and additions under one entitlement ends balanced if and only if
    no commit found that a whole window with an allowance had passed unused. Otherwise the credits
    stay behind.
  */
  lemma BalancedUnlessSlept(s: Settings, book: Book, since: int, calls: seq<Call>, id: string)
    requires ValidSettings(s) && InUse(AccountOf(book), since) && OneEntitlement(s, book, since, calls)
    requires Balanced(book, id)
    ensures Balanced(RunFrom(s, book, calls), id) <==> !Slept(s, book, calls, id)
  {
    hide InUse, OneEntitlement, Slept, RunFrom, OpenRest, Balance, ValidSettings;
    RunFallsBehind(s, book, since, calls, id);
  }

  // ---- where such runs begin ----

  lemma FreshPlanIsAnchored(e: Entitlement, now: int, id: string)
    requires e.plan.Some? && ValidPlan(e.plan.value) && e.counters == map[] && e.active
    requires e.periodStart == now && e.periodEnd == now + Step(e)
    ensures var n := Normalized(e, now);
            && Active(n, now) && n.plan == e.plan && n.mode == e.mode && n.periodStart == now && n.periodEnd == now + Step(e)
            && (id in n.counters ==> n.counters[id].weekStart == now)
            && InLimits(n) && !Renews(n, now)
  {
    FreshEntitlement(e);
    NormalizedKeepsLimits(e, now);
    NormalizedCounter(e, now, id);
    CountersMoveOnce(Products(e), map[], now, now, id);
  }

  /** An account whose serving entitlement has just begun. */
  lemma FreshIsInUse(raw: Account, data: Account, e: Entitlement, entry: Entry, seed: Seed, now: int)
    requires Sound(raw) && PlansValid(data) && data.balances == raw.balances && Solvent(raw) && AccountInLimits(data)
    requires e.plan.Some? && ValidPlan(e.plan.value) && e.counters == map[] && e.active
    requires e.periodStart == now && e.periodEnd == now + Step(e)
    requires Effective(data, now) == Normalized(e, now) && (data.grant.Some? ==> !Renews(data.grant.value, now))
    requires entry.productId == None && entry.details == NoDetails
    ensures InUse(Post(SettleWindows(raw, data, now), entry, seed, now).account, now)
  {
    hide Normalized, SettleWindows, CurrentWindows, PlansValid, InLimits, Post, Worth, Earned, Drift, IdleCharge, OnGrant;
    var d := SettleWindows(raw, data, now);
    var b := Post(d, entry, seed, now).account;
    PlanEarns(raw, data, entry, seed, now, "");
    SettledService(raw, data, now);
    PostSame(d, entry, seed, now);
    SameLeft(b, data, now);
    SameBalancesAreSolvent(raw, b);
    FreshPlanIsAnchored(e, now, "");
    SameEffective(b, data, now);
    forall id: string
      ensures WindowOf(b.windows, id).Some? ==> WindowOf(b.windows, id).value.start <= now
    {
      FreshPlanIsAnchored(e, now, id);
      OpenWindow(data, id, now);
    }
  }

  lemma SameEffective(a: Account, b: Account, now: int)
    requires a.own == b.own && a.grant == b.grant
    ensures Effective(a, now) == Effective(b, now) && AccountInLimits(a) == AccountInLimits(b)
  {}

  /** An assigned plan is in use from the moment it is assigned. */
  lemma AssignedPlanIsInUse(s: Settings, op: Operation, first: Option<Data>, account: Option<Account>, now: int)
    requires op.GrantPlan? && ValidSettings(s) && DecideGrantPlan(s, op, first, account, now).Commit?
    requires var raw := account.GetOr(NO_ACCOUNT); AccountInLimits(raw) && Solvent(raw) && Sound(raw)
    ensures InUse(DecideGrantPlan(s, op, first, account, now).draft.account, now)
  {
    hide Normalized, SettleWindows, Post, FindPlan, ValidId, ValidSettings, InLimits, InUse, Solvent, ValidState, ValidPlan;
    var raw := account.GetOr(NO_ACCOUNT);
    PlansAreValid(s, op.planId);
    var e := AssignedPlan(FindPlan(s.plans, op.planId).value, now);
    var data := NormalizedAccount(raw, now).(grant := Some(Normalized(e, now)));
    NormalizedPlans(raw, now);
    FreshPlanIsAnchored(e, now, "");
    NormalizedKeepsLimits(raw.own, now);
    ValidWithin(Normalized(e, now));
    var entry := PlainEntry(now, KindPlan, ByAdmin, 0, None, Some(op.requestId)).(amountMinor := op.amountMinor, currency := op.currency);
    FreshIsInUse(raw, data, e, entry, GrantSeed(op.requestId), now);
  }

  lemma ValidWithin(e: Entitlement)
    requires InLimits(e)
    ensures ValidEntitlement(e)
  {}

  /** A plan chosen anew is in use at once, unless an assigned plan serves instead. */
  lemma ChosenPlanIsInUse(s: Settings, op: Operation, first: Option<Data>, account: Option<Account>, now: int)
    requires op.ChangePlan? && ValidSettings(s) && !CarriesOver(account, op, now) && DecideChange(s, op, first, account, now).Commit?
    requires var raw := account.GetOr(NO_ACCOUNT); AccountInLimits(raw) && Solvent(raw) && Sound(raw) && raw.grant == None
    ensures InUse(DecideChange(s, op, first, account, now).draft.account, now)
  {
    hide Normalized, SettleWindows, Post, FindPlan, ValidId, ValidSettings, InLimits, InUse, Solvent, ValidState, ValidPlan;
    var raw := account.GetOr(NO_ACCOUNT);
    PlansAreValid(s, op.planId);
    var e := Chosen(raw.own, FindPlan(s.plans, op.planId).value, now);
    var data := NormalizedAccount(raw.(own := e), now);
    NormalizedPlans(raw.(own := e), now);
    FreshPlanIsAnchored(e, now, "");
    ValidWithin(Normalized(e, now));
    FreshIsInUse(raw, data, e, PlainEntry(now, KindPlan, ByUser, 0, None, Some(op.requestId)), PlanSeed(op.requestId), now);
  }
}
