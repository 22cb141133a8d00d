/**
  What holds of every history, plan changes included: balances are never negative, receipts cost
  what their estimate costs, and counters stay within the limits of their plan until a change of
  plan carries them over to smaller limits.
*/
module Solvency {
  import opened Prelude
  import opened Plans
  import opened Windows
  import opened Accounts
  import opened Pricing
  import opened Operations
  import opened Books
  import opened Statement
  import opened Lifecycle
  import opened Histories
  import opened Charges
  import opened Retries
  import opened Coverage
  import opened CoveredRuns

  // ---- balances ----

  lemma OpenedKeepsBalances(raw: Account, now: int)
    ensures Opened(raw, now).account.balances == raw.balances
    ensures Swept(Opened(raw, now), now).account.balances == raw.balances
  {
    hide SettleWindows, Normalized, PostExpired, LiveHolds, ExpiredHolds;
    SettledService(raw, NormalizedAccount(raw, now), now);
    var d := Opened(raw, now);
    PostExpiredService(d.(account := d.account.(holds := LiveHolds(d.account.holds, now))), ExpiredHolds(d.account.holds, now), now);
  }

  lemma SameBalancesAreSolvent(a: Account, b: Account)
    requires Solvent(a) && a.balances == b.balances
    ensures Solvent(b)
  {
    forall id: string
      ensures Balance(b, id) >= 0
    {
      assert Balance(a, id) >= 0;
    }
  }

  lemma TakenIsSolvent(a: Account, id: string, fromAllowance: nat, fromBalance: nat, cap: Option<RateCap>, counted: int, now: int)
    requires Solvent(a) && fromBalance <= FreeBalance(a, id, now)
    ensures Solvent(Taken(a, id, fromAllowance, fromBalance, cap, counted, now))
  {
    hide Taken, FreeBalance, Balance;
    assert Balance(a, id) >= 0;
    FreeBalanceIsThere(a, id, now);
    TakenBooks(a, id, fromAllowance, fromBalance, cap, counted, now);
    var b := Taken(a, id, fromAllowance, fromBalance, cap, counted, now);
    forall other: string
      ensures Balance(b, other) >= 0
    {
      assert Balance(a, other) >= 0;
    }
  }

  lemma AddedIsSolvent(a: Account, id: string, credits: nat)
    requires Solvent(a)
    ensures Solvent(WithBalance(a, id, Balance(a, id) + credits))
  {
    var b := WithBalance(a, id, Balance(a, id) + credits);
    forall other: string
      ensures Balance(b, other) >= 0
    {
      assert Balance(a, other) >= 0;
    }
  }

  lemma DecisionIsSolvent(s: Settings, op: Operation, first: Option<Data>, account: Option<Account>, receipts: seq<Option<Data>>, now: int)
    requires Solvent(account.GetOr(NO_ACCOUNT)) && |receipts| == |ToSweep(op, account, now)|
    requires Decide(s, op, first, account, receipts, now).Commit?
    ensures Solvent(Decide(s, op, first, account, receipts, now).draft.account)
  {
    hide Solvent, SettleWindows, Normalized, Opened, Swept, Taken, CapOf, Exceeded, FreeAllowance, FreeBalance, Blocked, ValidId, ValidReservationKey,
         Spendable, ApplyTotals, AnyPlanHas, FindPlan, ExpiredReceipts, FindHold, WithoutHold, UsedOf, AmountOf, ToSweep, MaintenanceSource, WithBalance;
    var raw := account.GetOr(NO_ACCOUNT);
    var b := Decide(s, op, first, account, receipts, now).draft.account;
    OpenedKeepsBalances(raw, now);
    var start := Opened(raw, now).account;
    var swept := Swept(Opened(raw, now), now).account;
    SameBalancesAreSolvent(raw, start);
    SameBalancesAreSolvent(raw, swept);
    if op.Consume? || (op.Record? && op.credits < 0) {
      var credits := if op.Consume? then op.credits else -op.credits;
      var id := op.productId;
      var fromAllowance := Min(credits, FreeAllowance(start, id, now));
      var cap := CapOf(start, s.plans, id, if op.Consume? then op.rateId else None, now);
      TakenIsSolvent(start, id, fromAllowance, credits - fromAllowance, cap, credits, now);
      SameBalancesAreSolvent(Taken(start, id, fromAllowance, credits - fromAllowance, cap, credits, now), b);
    } else if op.Record? || op.GrantCredits? {
      AddedIsSolvent(start, op.productId, op.credits);
      SameBalancesAreSolvent(WithBalance(start, op.productId, Balance(start, op.productId) + op.credits), b);
    } else if op.Settle? {
      var r := ReceiptOf(first, op.source).value;
      var used := UsedOf(s, r, op.usage).credits;
      var a := Dropped(swept, op.key);
      SameBalancesAreSolvent(swept, a);
      var fromAllowance := Min(used, FreeAllowance(a, r.productId, now));
      var fromBalance := Min(used - fromAllowance, FreeBalance(a, r.productId, now));
      var cap := CapOf(a, s.plans, r.productId, if r.estimate.Some? then Some(r.estimate.value.rateId) else None, now);
      TakenIsSolvent(a, r.productId, fromAllowance, fromBalance, cap, used, now);
      SameBalancesAreSolvent(Taken(a, r.productId, fromAllowance, fromBalance, cap, used, now), b);
    } else if op.Reserve? || op.ReleaseHold? {
      SameBalancesAreSolvent(raw, b);
    } else if op.Maintain? {
      var data := NormalizedAccount(raw.(own := MaintenanceSource(raw.own, now)), now);
      SettledService(raw, data, now);
      SweptKeepsBalances(SettleWindows(raw, data, now), now);
      SameBalancesAreSolvent(raw, b);
    } else if op.GrantPlan? {
      SettledService(raw, NormalizedAccount(raw, now).(grant := Some(Normalized(AssignedPlan(FindPlan(s.plans, op.planId).value, now), now))), now);
      SameBalancesAreSolvent(raw, b);
    } else {
      SettledService(raw, NormalizedAccount(raw.(own := Chosen(raw.own, FindPlan(s.plans, op.planId).value, now)), now), now);
      SameBalancesAreSolvent(raw, b);
    }
  }

  lemma SweptKeepsBalances(d: Draft, now: int)
    ensures Swept(d, now).account.balances == d.account.balances
  {
    PostExpiredService(d.(account := d.account.(holds := LiveHolds(d.account.holds, now))), ExpiredHolds(d.account.holds, now), now);
  }

  // ---- limits ----

  /** The change of a running plan: the new plan goes on with the counters of the old one. */
  predicate CarriesOver(account: Option<Account>, op: Operation, now: int) {
    op.ChangePlan? && account.Some? && account.value.own.active && now < account.value.own.periodEnd
  }

  lemma PlansAreValid(s: Settings, id: string)
    requires ValidSettings(s) && FindPlan(s.plans, id).Some?
    ensures ValidPlan(FindPlan(s.plans, id).value)
  {}

  lemma GrantedPlanKeepsLimits(s: Settings, op: Operation, first: Option<Data>, account: Option<Account>, now: int)
    requires op.GrantPlan? && ValidSettings(s) && AccountInLimits(account.GetOr(NO_ACCOUNT))
    requires DecideGrantPlan(s, op, first, account, now).Commit?
    ensures AccountInLimits(DecideGrantPlan(s, op, first, account, now).draft.account)
  {
    hide Normalized, SettleWindows, InLimits, FindPlan, ValidSettings, ApplyTotals, Spendable, ValidId;
    var raw := account.GetOr(NO_ACCOUNT);
    PlansAreValid(s, op.planId);
    var chosen := AssignedPlan(FindPlan(s.plans, op.planId).value, now);
    FreshEntitlement(chosen);
    NormalizedKeepsLimits(chosen, now);
    NormalizedKeepsLimits(raw.own, now);
    SettledService(raw, NormalizedAccount(raw, now).(grant := Some(Normalized(chosen, now))), now);
  }

  /** Every counter that a new plan goes on with is within the plan's limits, its ended windows begun anew. */
  predicate CarriedFits(plan: Plan, counters: map<string, Counter>, now: int) {
    forall id :: id in counters && FindProduct(plan.products, id).Some? ==>
      Within(FindProduct(plan.products, id).value, MoveCounter(FindProduct(plan.products, id).value, counters[id], now))
  }

  /** What a change of plan must not carry over, if it carries over anything. */
  predicate KeepsLimits(s: Settings, account: Option<Account>, op: Operation, now: int) {
    CarriesOver(account, op, now) && FindPlan(s.plans, op.planId).Some? ==>
      CarriedFits(FindPlan(s.plans, op.planId).value, account.value.own.counters, now)
  }

  /** A change of plan leaves the counters within their limits exactly when those it carries over fit. */
  lemma ChosenPlanKeepsLimits(s: Settings, op: Operation, first: Option<Data>, account: Option<Account>, now: int)
    requires op.ChangePlan? && ValidSettings(s) && AccountInLimits(account.GetOr(NO_ACCOUNT))
    requires DecideChange(s, op, first, account, now).Commit?
    ensures AccountInLimits(DecideChange(s, op, first, account, now).draft.account) <==> KeepsLimits(s, account, op, now)
  {
    hide Normalized, SettleWindows, InLimits, FindPlan, ValidSettings, ApplyTotals, Spendable, ValidId, CarriedFits;
    var raw := account.GetOr(NO_ACCOUNT);
    var plan := FindPlan(s.plans, op.planId).value;
    PlansAreValid(s, op.planId);
    var chosen := Chosen(raw.own, plan, now);
    if CarriesOver(account, op, now) {
      CarriedLimits(chosen, now);
    } else {
      FreshEntitlement(chosen);
      NormalizedKeepsLimits(chosen, now);
    }
    if raw.grant.Some? {
      NormalizedKeepsLimits(raw.grant.value, now);
    }
    SettledService(raw, NormalizedAccount(raw.(own := chosen), now), now);
  }

  /** Looking at an entitlement that does not renew only begins its ended windows anew. */
  lemma CarriedLimits(e: Entitlement, now: int)
    requires ValidEntitlement(e) && e.plan.Some? && !Renews(e, now)
    ensures InLimits(Normalized(e, now)) <==> CarriedFits(e.plan.value, e.counters, now)
  {
    hide MoveCounter, MoveCounters, Within, FindProduct;
    var n := Normalized(e, now);
    forall id: string
      ensures FindProduct(Products(e), id).Some? ==>
                (id in n.counters && n.counters[id] == MoveCounter(FindProduct(Products(e), id).value, CounterOf(e.counters, id, e.periodStart), now))
      ensures FindProduct(Products(e), id).Some? && id !in e.counters ==> Within(FindProduct(Products(e), id).value, n.counters[id])
      ensures n.plan == e.plan
    {
      NormalizedCounter(e, now, id);
      if FindProduct(Products(e), id).Some? {
        FreshIsWithin(FindProduct(Products(e), id).value, e.periodStart);
        if id !in e.counters {
          MovingKeepsLimits(FindProduct(Products(e), id).value, FreshCounter(e.periodStart), now);
        }
      }
    }
    if InLimits(n) {
      forall id | id in e.counters && FindProduct(Products(e), id).Some?
        ensures Within(FindProduct(Products(e), id).value, MoveCounter(FindProduct(Products(e), id).value, e.counters[id], now))
      {
        assert id in n.counters;
      }
    }
  }

  lemma DecisionKeepsLimits(s: Settings, op: Operation, first: Option<Data>, account: Option<Account>, receipts: seq<Option<Data>>, now: int)
    requires ValidSettings(s) && |receipts| == |ToSweep(op, account, now)|
    requires var raw := account.GetOr(NO_ACCOUNT); AccountInLimits(raw) && Solvent(raw)
    requires Decide(s, op, first, account, receipts, now).Commit?
    ensures AccountInLimits(Decide(s, op, first, account, receipts, now).draft.account) <==> KeepsLimits(s, account, op, now)
  {
    hide AccountInLimits, Solvent, DecideConsume, DecideRecord, DecideReserve, DecideSettle, DecideRelease, DecideMaintain, DecideGrantPlan, DecideChange,
         DecideGrantCredits, ToSweep, DirectCover, SameServing, ValidSettings, CarriedFits;
    if Serving(op) {
      ServingKeepsCover(s, op, first, account, receipts, now);
    } else if op.GrantPlan? {
      GrantedPlanKeepsLimits(s, op, first, account, now);
    } else {
      ChosenPlanKeepsLimits(s, op, first, account, now);
    }
  }

  lemma FreshEntitlement(e: Entitlement)
    requires e.plan.Some? && ValidPlan(e.plan.value) && e.counters == map[]
    ensures InLimits(e)
  {}

  /** No call that commits carries counters over to a plan that has no room for them. */
  predicate CarryOversFit(s: Settings, calls: seq<Call>) {
    calls == [] ||
    var book, call := Run(s, calls[..|calls| - 1]), calls[|calls| - 1];
    CarryOversFit(s, calls[..|calls| - 1]) && (DecideOn(s, book, call.op, call.now).Commit? ==> KeepsLimits(s, book.account, call.op, call.now))
  }

  /** The counters were within their limits after every call. */
  ghost predicate AlwaysInLimits(s: Settings, calls: seq<Call>) {
    AccountInLimits(AccountOf(Run(s, calls))) && (calls == [] || AlwaysInLimits(s, calls[..|calls| - 1]))
  }

  // ---- prices ----

  lemma TargetIsPriced(s: Settings, book: Book, op: Operation, now: int)
    requires ReceiptsPriced(s, book) && DecideOn(s, book, op, now).Commit?
    requires FirstRow(op).Some? && FirstRow(op).value.ReservationRow?
    ensures var t := DecideOn(s, book, op, now).target;
            t.Some? && t.value.ReceiptData? && PricedReceipt(s, t.value.receipt)
  {
    hide SettleWindows, Normalized, Opened, Swept, Taken, CapOf, Exceeded, FreeAllowance, FreeBalance, Blocked, ValidId, ValidReservationKey,
         Spendable, ApplyTotals, ExpiredReceipts, FindHold, WithoutHold, UsedOf, Estimated, ToSweep, ReceiptsOf;
    if !op.Reserve? {
      assert RowOf(book, FirstRow(op)) == ReceiptRowOf(book.rows, op.key);
    }
  }

  lemma ReceiptIsPriced(s: Settings, book: Book, key: string)
    requires ReceiptsPriced(s, book)
    ensures var row := ReceiptRowOf(book.rows, key); row.Some? && row.value.ReceiptData? ==> PricedReceipt(s, row.value.receipt)
  {}

  lemma LapsedIsPriced(s: Settings, before: Option<Data>, after: Option<Data>)
    requires Lapsed(before, after) && PricedReceipt(s, before.value.receipt)
    ensures PricedReceipt(s, after.value.receipt)
  {}

  lemma OperationKeepsPrices(s: Settings, book: Book, op: Operation, now: int)
    requires InLifecycle(book) && ReceiptsPriced(s, book)
    ensures ReceiptsPriced(s, Apply(s, book, op, now))
  {
    hide Decide, ToSweep, Alive, PricedReceipt, Apply;
    var after := Apply(s, book, op, now);
    if DecideOn(s, book, op, now).Commit? {
      forall key: string
        ensures var row := ReceiptRowOf(after.rows, key); row.Some? && row.value.ReceiptData? ==> PricedReceipt(s, row.value.receipt)
      {
        RowAfterCommit(s, book, op, now, ReservationRow(key));
        ReceiptIsPriced(s, book, key);
        if FirstRow(op) == Some(ReservationRow(key)) {
          TargetIsPriced(s, book, op, now);
        } else if Lapsed(ReceiptRowOf(book.rows, key), ReceiptRowOf(after.rows, key)) {
          LapsedIsPriced(s, ReceiptRowOf(book.rows, key), ReceiptRowOf(after.rows, key));
        }
      }
    } else {
      NothingApplied(s, book, op, now);
    }
  }

  lemma EmptyBookIsSound(s: Settings)
    ensures Solvent(NO_ACCOUNT) && ReceiptsPriced(s, EMPTY_BOOK) && AccountInLimits(NO_ACCOUNT)
  {}

  // ---- every history ----

  /** In every history balances are never negative and receipts cost what their estimate costs. */
  lemma {:induction false} HistoryIsSolvent(s: Settings, calls: seq<Call>)
    ensures Solvent(AccountOf(Run(s, calls))) && ReceiptsPriced(s, Run(s, calls))
  {
    hide Solvent, ReceiptsPriced, Decide, ToSweep;
    if calls == [] {
      EmptyBookIsSound(s);
    } else {
      var n := |calls| - 1;
      var book := Run(s, calls[..n]);
      HistoryIsSolvent(s, calls[..n]);
      StatementDeterminesTheAccount(s, calls[..n]);
      OperationKeepsPrices(s, book, calls[n].op, calls[n].now);
      if DecideOn(s, book, calls[n].op, calls[n].now).Commit? {
        DecisionIsSolvent(s, calls[n].op, RowOf(book, FirstRow(calls[n].op)), book.account,
                          ReceiptsOf(book.rows, ToSweep(calls[n].op, book.account, calls[n].now)), calls[n].now);
      }
    }
  }

  /**
    In every history the counters stay within the limits of their plans, after every call, exactly as
    long as each change of a running plan finds room for the counters that it carries over.
  */
  lemma {:induction false} CountersStayWithinLimits(s: Settings, calls: seq<Call>)
    requires ValidSettings(s)
    ensures AlwaysInLimits(s, calls) <==> CarryOversFit(s, calls)
  {
    hide AccountInLimits, Solvent, Decide, ToSweep, ValidSettings, KeepsLimits;
    if calls == [] {
      EmptyBookIsSound(s);
    } else {
      var n := |calls| - 1;
      var book := Run(s, calls[..n]);
      CountersStayWithinLimits(s, calls[..n]);
      HistoryIsSolvent(s, calls[..n]);
      if DecideOn(s, book, calls[n].op, calls[n].now).Commit? && AlwaysInLimits(s, calls[..n]) {
        DecisionKeepsLimits(s, calls[n].op, RowOf(book, FirstRow(calls[n].op)), book.account,
                            ReceiptsOf(book.rows, ToSweep(calls[n].op, book.account, calls[n].now)), calls[n].now);
      }
    }
  }

  /**
    From a point of any history where nothing is held and the limits are kept, the holds that are
    taken afterwards stay covered: through any run on one entitlement, and at any later instant.
  */
  lemma HistoriesStayCovered(s: Settings, calls: seq<Call>, since: int, more: seq<Call>, later: int)
    requires ValidSettings(s) && CarryOversFit(s, calls) && AccountOf(Run(s, calls)).holds == []
    requires SteadyRun(s, Run(s, calls), since, more)
    requires Steady(AccountOf(RunFrom(s, Run(s, calls), more)), LastClock(since, more), later)
    ensures InOrder(RunFrom(s, Run(s, calls), more), later)
  {
    hide Run, RunFrom, AccountInLimits, Solvent, Covered, Steady, SteadyRun, CarryOversFit;
    CountersStayWithinLimits(s, calls);
    LimitsNow(s, calls);
    HistoryIsSolvent(s, calls);
    NoHoldsAreCovered(Run(s, calls), since);
    HoldsStayCovered(s, Run(s, calls), since, more, later);
  }

  lemma LimitsNow(s: Settings, calls: seq<Call>)
    requires AlwaysInLimits(s, calls)
    ensures AccountInLimits(AccountOf(Run(s, calls)))
  {}

  // ---- where the guarantees end ----

  /** Once no plan is active, exactly the additional credits cover the holds. */
  lemma CoverWithoutAPlan(raw: Account, now: int)
    requires var a := NormalizedAccount(raw, now); !Active(Effective(a, now), now)
    ensures Covered(raw, now) <==> forall id: string :: Held(raw.holds, id, now) <= Balance(raw, id)
  {
    hide Normalized, Held;
    var a := NormalizedAccount(raw, now);
    forall id: string
      ensures Balance(a, id) == Balance(raw, id)
    {}
    forall id: string
      ensures AllowanceLeft(a, id, now) == 0
    {
      AllowanceIsLeft(a, id, now);
    }
    if Covered(raw, now) {
      forall id: string
        ensures Held(raw.holds, id, now) <= Balance(raw, id)
      {
        assert Held(a.holds, id, now) <= AllowanceLeft(a, id, now) + Balance(a, id);
      }
    }
  }
}
