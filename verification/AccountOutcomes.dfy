/**
  What additional credits, plans and maintenance answer and commit
  (rt-app/core-go/subscriptions/usage.go, overview.go, accounts.go), and what the entries say that
  every operation appends first, in the plain terms of module Present.
*/
module AccountOutcomes {
  import opened Prelude
  import opened Plans
  import opened Windows
  import opened Rollover
  import opened Accounts
  import opened Operations
  import opened Books
  import opened Coverage
  import opened Present
  import opened Outcomes
  import opened ReservationOutcomes

  // ---- entries that an operation appends before its own ----

  /** The entry of a window: an allowance granted, or what was left of it (and skipped) when it closed. */
  function ReportOf(p: Pending, available: int): Entry {
    match p.details
    case None => Entry(p.at, KindAllowance, System, p.credits, Some(p.productId), None, 0, "", 0, 0, 0, Some(available), NoDetails)
    case Some(x) => Entry(p.at, KindExpiry, System, p.credits, Some(p.productId), None, 0, "", 0, 0, 0, Some(available), Expired(x.unused, x.skippedWeeks))
  }

  /** One entry for each of the given ones was appended, in order and numbered on; only records differ. */
  ghost predicate Appends(d: Draft, after: Draft, entries: seq<Entry>) {
    && SameButRecords(d.account, after.account) && after.account.sequence == d.account.sequence + |entries|
    && |after.posted| == |d.posted| + |entries| && after.posted[..|d.posted|] == d.posted
    && forall i :: 0 <= i < |entries| ==> IsPosted(after.posted[|d.posted| + i], d.account.sequence + i + 1, entries[i])
  }

  predicate IsPosted(p: Posted, sequence: nat, e: Entry) {
    p.sequence == sequence && p.entry == e
  }

  lemma OneMore(d: Draft, before: Draft, entries: seq<Entry>, e: Entry, seed: Seed, now: int)
    requires Appends(d, before, entries)
    ensures var available := if e.productId.Some? then Some(Spendable(d.account, e.productId.value, now)) else e.available;
            Appends(d, Post(before, e, seed, now), entries + [e.(available := available)])
  {
    hide ApplyTotals, Spendable;
    if e.productId.Some? {
      SameSpendable(d.account, before.account, e.productId.value, now);
    }
    var after := Post(before, e, seed, now);
    assert after.posted[..|d.posted|] == before.posted[..|d.posted|];
  }

  lemma SameSpendable(a: Account, b: Account, id: string, now: int)
    requires SameButRecords(a, b)
    ensures Spendable(a, id, now) == Spendable(b, id, now)
  {}

  /** The entries of windows that closed or opened on an account. */
  function WindowReports(a: Account, pending: seq<Pending>, now: int): seq<Entry> {
    seq(|pending|, i requires 0 <= i < |pending| => ReportOf(pending[i], Spendable(a, pending[i].productId, now)))
  }

  lemma {:induction false} PostedWindows(d: Draft, entries: seq<Pending>, now: int)
    ensures Appends(d, PostWindows(d, entries, now), WindowReports(d.account, entries, now))
  {
    hide Appends, Spendable, Post;
    if entries != [] {
      var n := |entries| - 1;
      PostedWindows(d, entries[..n], now);
      OneMore(d, PostWindows(d, entries[..n], now), WindowReports(d.account, entries[..n], now), WindowEntry(entries[n]), WindowSeedOf(entries[n]), now);
      assert WindowReports(d.account, entries, now) ==
             WindowReports(d.account, entries[..n], now) + [ReportOf(entries[n], Spendable(d.account, entries[n].productId, now))];
    } else {
      NothingIsAppended(d);
      assert WindowReports(d.account, entries, now) == [];
    }
  }

  lemma NothingIsAppended(d: Draft)
    ensures Appends(d, d, [])
  {}

  /** Settling windows appends one entry for each window that closed or opened, in order. */
  lemma WindowsAreReported(raw: Account, data: Account, now: int)
    ensures var pending, d := RolledOver(raw.windows, CurrentWindows(data, now), SettledCounters(raw), now).entries, SettleWindows(raw, data, now);
            Appends(Draft(data.(windows := d.account.windows), []), d, WindowReports(data, pending, now))
  {
    hide RolledOver, CurrentWindows, SettledCounters, Spendable, PostWindows, ReportOf;
    var rolled := RolledOver(raw.windows, CurrentWindows(data, now), SettledCounters(raw), now);
    var d := Draft(data.(windows := rolled.state), []);
    WindowsAreKept(d, rolled.entries, now);
    PostedWindows(d, rolled.entries, now);
    forall id: string
      ensures Spendable(d.account, id, now) == Spendable(data, id, now)
    {
      SameSpendable(data, d.account, id, now);
    }
    assert WindowReports(d.account, rolled.entries, now) == WindowReports(data, rolled.entries, now);
  }

  lemma {:induction false} WindowsAreKept(d: Draft, entries: seq<Pending>, now: int)
    ensures PostWindows(d, entries, now).account.windows == d.account.windows
  {
    hide ApplyTotals, Spendable, WindowEntry;
    if entries != [] {
      WindowsAreKept(d, entries[..|entries| - 1], now);
    }
  }

  /** The entries of expired holds: what each held is given back when its time was up. */
  function ExpiryReports(a: Account, expired: seq<Hold>, now: int): seq<Entry> {
    seq(|expired|, i requires 0 <= i < |expired| => GivenBack(expired[i], Spendable(a, expired[i].productId, now)))
  }

  function GivenBack(h: Hold, available: int): Entry {
    Entry(h.expiresAt, KindRelease, System, 0, Some(h.productId), Some(h.key), 0, "", 0, 0, 0 - h.credits, Some(available), NoDetails)
  }

  lemma {:induction false} PostedExpiries(d: Draft, expired: seq<Hold>, now: int)
    ensures Appends(d, PostExpired(d, expired, now), ExpiryReports(d.account, expired, now))
  {
    hide Appends, Spendable, Post;
    if expired != [] {
      var n := |expired| - 1;
      PostedExpiries(d, expired[..n], now);
      OneMore(d, PostExpired(d, expired[..n], now), ExpiryReports(d.account, expired[..n], now), ExpireEntry(expired[n]), ExpireSeed(expired[n].key), now);
      assert ExpiryReports(d.account, expired, now) ==
             ExpiryReports(d.account, expired[..n], now) + [GivenBack(expired[n], Spendable(d.account, expired[n].productId, now))];
    } else {
      NothingIsAppended(d);
      assert ExpiryReports(d.account, expired, now) == [];
    }
  }

  /** Sweeping appends one entry for each expired hold, in order; expired holds were in nobody's way any more. */
  lemma ExpiriesAreReported(d: Draft, now: int)
    ensures Appends(d.(account := d.account.(holds := LiveHolds(d.account.holds, now))), Swept(d, now),
                    ExpiryReports(d.account, ExpiredHolds(d.account.holds, now), now))
  {
    hide ExpiredHolds, LiveHolds, PostExpired, Spendable, GivenBack;
    var live := d.account.(holds := LiveHolds(d.account.holds, now));
    var expired := ExpiredHolds(d.account.holds, now);
    PostedExpiries(d.(account := live), expired, now);
    forall id: string
      ensures Spendable(live, id, now) == Spendable(d.account, id, now)
    {
      LiveHoldsSpendTheSame(d.account, id, now);
    }
    assert ExpiryReports(live, expired, now) == ExpiryReports(d.account, expired, now);
  }

  lemma LiveHoldsSpendTheSame(a: Account, id: string, now: int)
    ensures Spendable(a.(holds := LiveHolds(a.holds, now)), id, now) == Spendable(a, id, now)
  {
    hide Held, LiveHolds, Left;
    LiveHoldsAreHeld(a.holds, id, now);
  }

  // ---- additional credits ----

  /** A plan of the settings has the product. */
  predicate SomePlanHas(plans: seq<Plan>, id: string) {
    exists i :: 0 <= i < |plans| && id in ProductIds(plans[i].products)
  }

  lemma SomePlanIsAnyPlan(plans: seq<Plan>, id: string)
    ensures SomePlanHas(plans, id) == AnyPlanHas(plans, id)
  {
    if SomePlanHas(plans, id) {
      var i :| 0 <= i < |plans| && id in ProductIds(plans[i].products);
      assert FindProduct(plans[i].products, id).Some?;
    }
    if AnyPlanHas(plans, id) {
      var i :| 0 <= i < |plans| && FindProduct(plans[i].products, id).Some?;
      assert id in ProductIds(plans[i].products);
    }
  }

  predicate Adds(op: Operation) {
    op.Record? || op.GrantCredits?
  }

  predicate ValidAddition(op: Operation)
    requires Adds(op)
  {
    && ValidId(op.requestId) && ValidId(op.productId) && 1 <= op.credits <= 1_000_000_000 && op.amountMinor >= 0
    && (op.Record? ==> op.kind == KindPurchase || op.kind == KindAdjustment || op.kind == KindGrant || op.kind == KindUsage)
  }

  function NewBalance(book: Book, op: Operation): int
    requires Adds(op)
  {
    Lookup(AccountOf(book).balances, op.productId).GetOr(0) + op.credits
  }

  /**
    Credits are added once for each request, to a product that some plan has, up to a thousand million
    in all; the same request again is repeated and another one under its key refused.
  */
  lemma AdditionIsAnswered(s: Settings, book: Book, op: Operation, now: int)
    requires Adds(op) && op.credits >= 0
    ensures var c := DecideOn(s, book, op, now);
            var key := if op.Record? then RecordRow(op.requestId) else GrantRow(op.requestId);
            if !ValidAddition(op) then c == Refused(BadRequest)
            else if key in book.rows then c == if book.rows[key] == RequestData(op) then Replayed else Refused(KeyConflict)
            else if !SomePlanHas(s.plans, op.productId) then c == Refused(NotFound)
            else if !(0 <= NewBalance(book, op) <= 1_000_000_000) then c == Refused(BadRequest)
            else c.Commit?
  {
    hide NormalizedAccount, SettleWindows, ValidId, Post, AnyPlanHas, SomePlanHas;
    SomePlanIsAnyPlan(s.plans, op.productId);
    SettlingOnlyRecords(AccountOf(book), NormalizedAccount(AccountOf(book), now), now);
    BalancesAreKept(AccountOf(book), now);
  }

  /** What is added becomes available at once, after the allowance; the entry says so with the money that was paid for it. */
  lemma AdditionAdds(s: Settings, book: Book, op: Operation, now: int)
    requires Adds(op) && op.credits >= 0 && DecideOn(s, book, op, now).Commit?
    ensures var raw, c := AccountOf(book), DecideOn(s, book, op, now);
            var a, id := NormalizedAccount(raw, now), op.productId;
            && SameButRecords(a.(balances := a.balances[id := NewBalance(book, op)]), c.draft.account)
            && c.target == Some(RequestData(op)) && c.expired == []
            && Ends(c.draft, Entry(now, if op.Record? then op.kind else KindGrant, if op.Record? then op.source else ByAdmin, op.credits,
                                   Some(id), Some(op.requestId), op.amountMinor, op.currency, 0, 0, 0,
                                   Some(Available(raw, id, HeldNow(raw, id, now) - op.credits, now)), NoDetails),
                    if op.Record? then RecordSeed(op.requestId) else GrantSeed(op.requestId))
  {
    hide NormalizedAccount, SettleWindows, ValidId, AnyPlanHas, ApplyTotals, Spendable, Available;
    var raw := AccountOf(book);
    SettlingOnlyRecords(raw, NormalizedAccount(raw, now), now);
    BalancesAreKept(raw, now);
    AddedIsAvailable(raw, op.productId, op.credits, now);
  }

  lemma AddedIsAvailable(raw: Account, id: string, credits: int, now: int)
    ensures Spendable(WithBalance(Opened(raw, now).account, id, Lookup(raw.balances, id).GetOr(0) + credits), id, now) ==
            Available(raw, id, HeldNow(raw, id, now) - credits, now)
  {
    hide NormalizedAccount, SettleWindows, AllowanceLeft, Held;
    var a := NormalizedAccount(raw, now);
    var b := WithBalance(Opened(raw, now).account, id, Lookup(raw.balances, id).GetOr(0) + credits);
    SettlingOnlyRecords(raw, a, now);
    NormalizedHoldsSame(raw, now);
    HeldIsTheSum(raw.holds, id, now);
    SameLeft(a, b, now);
  }

  lemma NormalizedHoldsSame(raw: Account, now: int)
    ensures NormalizedAccount(raw, now).holds == raw.holds
  {}

  /** A debit that is recorded is a charge of as many credits. */
  lemma RecordedDebitIsACharge(s: Settings, book: Book, op: Operation, now: int)
    requires op.Record? && op.credits < 0
    ensures DecideOn(s, book, op, now) ==
            if ValidId(op.productId) && (op.kind == KindPurchase || op.kind == KindAdjustment || op.kind == KindGrant || op.kind == KindUsage)
            then DecideOn(s, book, Consume(op.requestId, op.productId, -op.credits, op.kind, op.source, None), now)
            else Refused(BadRequest)
  {
    hide DecideConsume, ValidId;
  }

  // ---- plans ----

  predicate NoSuchPlan(plans: seq<Plan>, id: string) {
    forall i :: 0 <= i < |plans| ==> plans[i].id != id
  }

  lemma {:induction false} PlanIsFound(plans: seq<Plan>, id: string)
    ensures FindPlan(plans, id).None? <==> NoSuchPlan(plans, id)
  {
    if plans != [] && plans[0].id != id {
      PlanIsFound(plans[1..], id);
      assert plans == [plans[0]] + plans[1..];
    }
  }

  /** A plan is assigned once for each request. */
  lemma AssignmentIsAnswered(s: Settings, book: Book, op: Operation, now: int)
    requires op.GrantPlan?
    ensures var c, key := DecideOn(s, book, op, now), GrantRow(op.requestId);
            if !ValidId(op.requestId) || !ValidId(op.planId) || op.amountMinor < 0 then c == Refused(BadRequest)
            else if key in book.rows then c == if book.rows[key] == RequestData(op) then Replayed else Refused(KeyConflict)
            else if NoSuchPlan(s.plans, op.planId) then c == Refused(NotFound)
            else c.Commit?
  {
    hide NormalizedAccount, Normalized, SettleWindows, ValidId, Post, FindPlan;
    PlanIsFound(s.plans, op.planId);
  }

  /** An assigned plan begins now, unused, for one period of its own; the account's own plan stays beside it. */
  lemma AssignmentBeginsNow(s: Settings, book: Book, op: Operation, now: int) returns (plan: Plan)
    requires op.GrantPlan? && DecideOn(s, book, op, now).Commit?
    ensures var raw, c := AccountOf(book), DecideOn(s, book, op, now);
            var begun := Entitlement(Admin, true, Some(plan), false, now, now + plan.periodDays * 86_400_000, map[]);
            && plan in s.plans && plan.id == op.planId
            && SameButRecords(NormalizedAccount(raw, now).(grant := Some(Normalized(begun, now))), c.draft.account)
            && c.target == Some(RequestData(op)) && c.expired == []
            && Ends(c.draft, Entry(now, KindPlan, ByAdmin, 0, None, Some(op.requestId), op.amountMinor, op.currency, 0, 0, 0, None, NoDetails), GrantSeed(op.requestId))
  {
    hide NormalizedAccount, Normalized, SettleWindows, ValidId, ApplyTotals;
    var raw := AccountOf(book);
    plan := FindPlan(s.plans, op.planId).value;
    SettlingOnlyRecords(raw, NormalizedAccount(raw, now).(grant := Some(Normalized(AssignedPlan(plan, now), now))), now);
  }

  /** An unpaid plan is chosen once for each request, and not again while it runs. */
  lemma ChoiceIsAnswered(s: Settings, book: Book, op: Operation, now: int)
    requires op.ChangePlan?
    ensures var c, key, own := DecideOn(s, book, op, now), PlanRow(op.requestId), AccountOf(book).own;
            if !ValidId(op.requestId) then c == Refused(BadRequest)
            else if NoSuchPlan(s.plans, op.planId) then c == Refused(NotFound)
            else if key in book.rows then c == if book.rows[key] == RequestData(op) then Replayed else Refused(KeyConflict)
            else if Running(own, now) && own.plan.value.id == op.planId then c == Refused(AlreadySubscribed)
            else c.Commit?
  {
    hide NormalizedAccount, SettleWindows, ValidId, Post, FindPlan, Chosen;
    PlanIsFound(s.plans, op.planId);
  }

  /** A chosen plan takes over the running period with its counters, else it begins now for one period of its own. */
  lemma ChoiceGoesOnOrBeginsNow(s: Settings, book: Book, op: Operation, now: int) returns (plan: Plan)
    requires op.ChangePlan? && DecideOn(s, book, op, now).Commit?
    ensures var raw, c := AccountOf(book), DecideOn(s, book, op, now);
            var chosen := if raw.own.active && now < raw.own.periodEnd
                          then raw.own.(mode := Unpaid, plan := Some(plan), cancelAtPeriodEnd := false)
                          else Entitlement(Unpaid, true, Some(plan), false, now, now + plan.periodDays * 86_400_000, map[]);
            && plan in s.plans && plan.id == op.planId
            && SameButRecords(NormalizedAccount(raw.(own := chosen), now), c.draft.account)
            && c.target == Some(RequestData(op)) && c.expired == []
            && Ends(c.draft, Entry(now, KindPlan, ByUser, 0, None, Some(op.requestId), 0, "", 0, 0, 0, None, NoDetails), PlanSeed(op.requestId))
  {
    hide NormalizedAccount, SettleWindows, ValidId, ApplyTotals;
    var raw := AccountOf(book);
    plan := FindPlan(s.plans, op.planId).value;
    SettlingOnlyRecords(raw, NormalizedAccount(raw.(own := Chosen(raw.own, plan, now)), now), now);
  }

  // ---- maintenance ----

  /** An unpaid plan that goes on, at the end of its period. */
  predicate Due(e: Entitlement, now: int) {
    e.plan.Some? && e.mode == Unpaid && !e.cancelAtPeriodEnd && now >= e.periodEnd
  }

  /** The period that holds the present, with nothing used in it. */
  ghost predicate BeginsAnew(e: Entitlement, f: Entitlement, now: int)
    requires e.plan.Some?
  {
    var step := e.plan.value.periodDays * 86_400_000;
    && f == e.(periodStart := f.periodStart, periodEnd := f.periodStart + step, counters := map[])
    && f.periodStart <= now < f.periodEnd && (f.periodStart - e.periodStart) % step == 0
  }

  lemma DuePlansBeginAnew(e: Entitlement, now: int)
    ensures if Due(e, now) then BeginsAnew(e, MaintenanceSource(e, now), now) else MaintenanceSource(e, now) == e
  {
    if Due(e, now) {
      var step := Step(e);
      var k := (now - e.periodStart) / step;
      assert now - e.periodStart == k * step + (now - e.periodStart) % step;
      QuotientIs(k * step, step, k, 0);
    }
  }

  /**
    The sweep commits exactly when the plan is due, a window closed or opened, or a hold expired; it
    then renews the plan that is due, settles the windows, drops the expired holds, and does nothing else.
  */
  lemma MaintenanceSweeps(s: Settings, book: Book, now: int) returns (own: Entitlement)
    ensures var raw, c := AccountOf(book), DecideOn(s, book, Maintain, now);
            var data := NormalizedAccount(raw.(own := own), now);
            var pending, expired := RolledOver(raw.windows, CurrentWindows(data, now), SettledCounters(raw), now).entries, ExpiredHolds(raw.holds, now);
            && (if Due(raw.own, now) then BeginsAnew(raw.own, own, now) else own == raw.own)
            && (c == Replayed || c.Commit?)
            && (c.Commit? <==> book.account.Some? && (raw.own.plan.Some? || expired != []) && (Due(raw.own, now) || pending != [] || expired != []))
            && (c.Commit? ==>
                  && SameButRecords(data.(holds := LiveHolds(raw.holds, now)), c.draft.account)
                  && |c.draft.posted| == |pending| + |expired| && c.target == None)
  {
    hide NormalizedAccount, RolledOver, CurrentWindows, SettledCounters, ExpiredHolds, LiveHolds, SettleWindows, Swept, ExpiredReceipts, MaintenanceSource, BeginsAnew, ReportOf, GivenBack;
    var raw := AccountOf(book);
    own := MaintenanceSource(raw.own, now);
    DuePlansBeginAnew(raw.own, now);
    var source := raw.(own := own);
    var data := NormalizedAccount(source, now);
    SettlingOnlyRecords(raw, data, now);
    WindowsAreReported(raw, data, now);
    var d := SettleWindows(raw, data, now);
    NormalizedHoldsSame(source, now);
    SweepingOnlyDropsExpired(d, now);
    ExpiriesAreReported(d, now);
  }
}
