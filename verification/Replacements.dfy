/**
  What replaces an entitlement: the terms that every history gives its plans, what remains covered
  when another plan takes over, and why sweeping an account renews it as looking at it does.
*/
module Replacements {
  import opened Prelude
  import opened Plans
  import opened Windows
  import opened Accounts
  import opened Operations
  import opened Books
  import opened Coverage
  import opened CoveredRuns
  import opened Solvency
  import opened BalanceLaw

  // ---- terms ----

  /** The same entitlement but for its counters. */
  predicate SameTerms(e: Entitlement, f: Entitlement) {
    e == f.(counters := e.counters)
  }

  predicate SameTermsOf(a: Account, b: Account) {
    SameTerms(a.own, b.own) && a.grant.Some? == b.grant.Some? && (a.grant.Some? ==> SameTerms(a.grant.value, b.grant.value))
  }

  lemma TakenKeepsTerms(a: Account, id: string, fromAllowance: int, fromBalance: int, cap: Option<RateCap>, counted: int, now: int)
    ensures SameTermsOf(Taken(a, id, fromAllowance, fromBalance, cap, counted, now), a)
  {
    hide Charged, Counted, FindProduct;
  }

  /** Whatever an operation commits, its entitlements are those it settled the windows of, with new counters. */
  lemma CommitKeepsTerms(s: Settings, op: Operation, first: Option<Data>, account: Option<Account>, receipts: seq<Option<Data>>, now: int)
    requires |receipts| == |ToSweep(op, account, now)|
    requires Decide(s, op, first, account, receipts, now).Commit?
    ensures SameTermsOf(Decide(s, op, first, account, receipts, now).draft.account, Settling(s, op, account.GetOr(NO_ACCOUNT), now))
  {
    hide SettleWindows, NormalizedAccount, Opened, Swept, Taken, CapOf, Exceeded, FreeAllowance, FreeBalance, Blocked, ValidId, ValidReservationKey,
         Spendable, ApplyTotals, AnyPlanHas, FindPlan, ExpiredReceipts, FindHold, WithoutHold, UsedOf, AmountOf, ToSweep, MaintenanceSource;
    var raw := account.GetOr(NO_ACCOUNT);
    var data := Settling(s, op, raw, now);
    SettledService(raw, data, now);
    SweptTerms(SettleWindows(raw, data, now), now);
    OpenedIsSettled(raw, now);
    var start, swept := Opened(raw, now).account, Swept(Opened(raw, now), now).account;
    if op.Consume? || (op.Record? && op.credits < 0) {
      var credits := if op.Consume? then op.credits else -op.credits;
      var fromAllowance := Min(credits, FreeAllowance(start, op.productId, now));
      TakenKeepsTerms(start, op.productId, fromAllowance, credits - fromAllowance,
                      CapOf(start, s.plans, op.productId, if op.Consume? then op.rateId else None, now), credits, now);
    } else if op.Settle? {
      var r := ReceiptOf(first, op.source).value;
      var a, used := Dropped(swept, op.key), UsedOf(s, r, op.usage).credits;
      var fromAllowance := Min(used, FreeAllowance(a, r.productId, now));
      TakenKeepsTerms(a, r.productId, fromAllowance, Min(used - fromAllowance, FreeBalance(a, r.productId, now)),
                      CapOf(a, s.plans, r.productId, if r.estimate.Some? then Some(r.estimate.value.rateId) else None, now), used, now);
    }
  }

  lemma OpenedIsSettled(raw: Account, now: int)
    ensures Opened(raw, now) == SettleWindows(raw, NormalizedAccount(raw, now), now)
  {}

  lemma SweptTerms(d: Draft, now: int)
    ensures Swept(d, now).account.own == d.account.own && Swept(d, now).account.grant == d.account.grant
  {
    PostExpiredService(d.(account := d.account.(holds := LiveHolds(d.account.holds, now))), ExpiredHolds(d.account.holds, now), now);
  }

  /** A plan as it is configured under its id. */
  predicate Configured(s: Settings, plan: Option<Plan>) {
    plan.Some? ==> FindPlan(s.plans, plan.value.id) == plan
  }

  /** The terms of an account that only these operations made: unpaid plans run, assigned ones are the administrator's. */
  predicate Ordinary(s: Settings, a: Account) {
    && (a.own.mode == Unpaid ==> a.own.active) && Configured(s, a.own.plan)
    && (a.grant.Some? ==> a.grant.value.mode == Admin && Configured(s, a.grant.value.plan))
  }

  lemma SettlingIsOrdinary(s: Settings, op: Operation, raw: Account, now: int)
    requires Ordinary(s, raw)
    ensures Ordinary(s, Settling(s, op, raw, now))
  {
    hide MoveCounters, FindPlan;
    if op.GrantPlan? || op.ChangePlan? {
      FoundPlan(s.plans, op.planId);
    }
  }

  lemma {:induction false} FoundPlan(plans: seq<Plan>, id: string)
    ensures FindPlan(plans, id).Some? ==> FindPlan(plans, FindPlan(plans, id).value.id) == FindPlan(plans, id)
  {
    if plans != [] {
      FoundPlan(plans[1..], id);
    }
  }

  lemma OrdinaryTerms(s: Settings, a: Account, b: Account)
    requires Ordinary(s, a) && SameTermsOf(b, a)
    ensures Ordinary(s, b)
  {}

  lemma {:induction false} HistoryIsOrdinary(s: Settings, calls: seq<Call>)
    ensures Ordinary(s, AccountOf(Run(s, calls)))
  {
    hide Decide, ToSweep, Settling, Ordinary, SameTermsOf;
    if calls == [] {
      NoAccountIsOrdinary(s);
    } else {
      var n := |calls| - 1;
      var book, call := Run(s, calls[..n]), calls[n];
      HistoryIsOrdinary(s, calls[..n]);
      if DecideOn(s, book, call.op, call.now).Commit? {
        CommitKeepsTerms(s, call.op, RowOf(book, FirstRow(call.op)), book.account, ReceiptsOf(book.rows, ToSweep(call.op, book.account, call.now)), call.now);
        SettlingIsOrdinary(s, call.op, AccountOf(book), call.now);
        OrdinaryTerms(s, Settling(s, call.op, AccountOf(book), call.now), AccountOf(Run(s, calls)));
      }
    }
  }

  lemma NoAccountIsOrdinary(s: Settings)
    ensures Ordinary(s, NO_ACCOUNT)
  {}

  /**
    In every history sweeping an account renews it exactly as looking at it does: the sweep does not
    ask whether the plan is active, but an unpaid plan always is.
  */
  lemma SweepingRenewsAsLooking(s: Settings, calls: seq<Call>, now: int)
    ensures var raw := AccountOf(Run(s, calls));
            NormalizedAccount(raw.(own := MaintenanceSource(raw.own, now)), now) == NormalizedAccount(raw, now)
  {
    hide Normalized, MaintenanceSource;
    HistoryIsOrdinary(s, calls);
    MaintenanceRenewsAsLooking(AccountOf(Run(s, calls)).own, now);
  }

  // ---- what another plan leaves covered ----

  /** What a plan offers of a product, given the counters it goes on with. */
  function Offered(plan: Plan, counters: map<string, Counter>, id: string, now: int): nat {
    var p := FindProduct(plan.products, id);
    if p.None? then 0 else Left(p.value, if id in counters then MoveCounter(p.value, counters[id], now) else FreshCounter(now))
  }

  lemma OfferedIsLeft(e: Entitlement, id: string, now: int)
    requires ValidEntitlement(e) && e.plan.Some? && !Renews(e, now)
    ensures LeftIn(Normalized(e, now), id) == Offered(e.plan.value, e.counters, id, now)
    ensures Normalized(e, now).plan == e.plan
  {
    hide Left, MoveCounters;
    NormalizedCounter(e, now, id);
    if FindProduct(Products(e), id).Some? && id !in e.counters {
      FreshIsFull(FindProduct(Products(e), id).value, e.periodStart, now);
    }
  }

  lemma FreshIsFull(p: Product, start: int, now: int)
    ensures Left(p, MoveCounter(p, FreshCounter(start), now)) == Left(p, FreshCounter(now))
  {}

  /** Looking again at the same moment changes nothing. */
  lemma SecondLook(e: Entitlement, id: string, now: int)
    requires ValidEntitlement(e)
    ensures LeftIn(Normalized(Normalized(e, now), now), id) == LeftIn(Normalized(e, now), id)
  {
    hide MoveCounter, MoveCounters, Left, Straddles;
    var n := Normalized(e, now);
    NormalizedIsPresent(e, now);
    NormalizedCounter(e, now, id);
    NormalizedCounter(n, now, id);
    var p := FindProduct(Products(e), id);
    if p.Some? {
      var c := CounterOf(Renewed(e, now).counters, id, Renewed(e, now).periodStart);
      CounterMovesOnce(p.value, c, now, now);
      NothingStraddles(p.value, c, now);
    }
  }

  lemma NothingStraddles(p: Product, c: Counter, now: int)
    ensures !Straddles(p, c, now, now)
  {}

  /** The cover of an account that was brought to the present is that of the moment. */
  lemma CoverOfPresent(a: Account, raw: Account, now: int)
    requires PlansValid(raw) && a.own == NormalizedAccount(raw, now).own && a.grant == NormalizedAccount(raw, now).grant
    ensures var data := NormalizedAccount(raw, now);
            Covered(a, now) <==> forall id: string ::
              Held(a.holds, id, now) <= (if Active(Effective(data, now), now) then LeftIn(Effective(data, now), id) else 0) + Balance(a, id)
  {
    hide Normalized, LeftIn, Held;
    var data := NormalizedAccount(raw, now);
    var b := NormalizedAccount(a, now);
    StillPresent(raw.own, now);
    if raw.grant.Some? {
      StillPresent(raw.grant.value, now);
    }
    forall id: string
      ensures AllowanceLeft(b, id, now) == if Active(Effective(data, now), now) then LeftIn(Effective(data, now), id) else 0
      ensures Balance(b, id) == Balance(a, id)
    {
      AllowanceIsLeft(b, id, now);
      SecondLook(raw.own, id, now);
      if raw.grant.Some? {
        SecondLook(raw.grant.value, id, now);
      }
    }
  }

  lemma StillPresent(e: Entitlement, now: int)
    ensures var n, m := Normalized(e, now), Normalized(Normalized(e, now), now);
            m == n.(counters := m.counters)
  {
    NormalizedIsPresent(e, now);
  }

  /** What the plan of a GrantPlan or ChangePlan offers at once; an assigned plan goes before a chosen one. */
  function AllowanceOffered(s: Settings, op: Operation, raw: Account, now: int, id: string): nat
    requires (op.GrantPlan? || op.ChangePlan?) && FindPlan(s.plans, op.planId).Some?
  {
    var looked := NormalizedAccount(raw, now);
    if op.ChangePlan? && OnGrant(looked, now) then AllowanceLeft(looked, id, now)
    else Offered(FindPlan(s.plans, op.planId).value, if CarriesOver(Some(raw), op, now) then raw.own.counters else map[], id, now)
  }

  /** The account as it is looked at, with the plan that replaces the present one. */
  function WithPlan(s: Settings, op: Operation, raw: Account, now: int): Account
    requires (op.GrantPlan? || op.ChangePlan?) && FindPlan(s.plans, op.planId).Some?
  {
    var plan := FindPlan(s.plans, op.planId).value;
    if op.GrantPlan? then raw.(grant := Some(AssignedPlan(plan, now))) else raw.(own := Chosen(raw.own, plan, now))
  }

  /** The new plan serves at once and offers what it should. */
  lemma ReplacementServes(s: Settings, op: Operation, raw: Account, now: int, id: string)
    requires (op.GrantPlan? || op.ChangePlan?) && FindPlan(s.plans, op.planId).Some? && ValidSettings(s) && PlansValid(raw)
    ensures var data := NormalizedAccount(WithPlan(s, op, raw, now), now);
            && data == Settling(s, op, raw, now) && PlansValid(WithPlan(s, op, raw, now)) && PlansValid(data)
            && (if Active(Effective(data, now), now) then LeftIn(Effective(data, now), id) else 0) == AllowanceOffered(s, op, raw, now, id)
  {
    hide Normalized, Offered, LeftIn, FindPlan, ValidSettings;
    PlansAreValid(s, op.planId);
    var plan := FindPlan(s.plans, op.planId).value;
    var e := if op.GrantPlan? then AssignedPlan(plan, now) else Chosen(raw.own, plan, now);
    OfferedIsLeft(e, id, now);
    NormalizedPlans(WithPlan(s, op, raw, now), now);
    UnrenewedTerms(e, now);
    AllowanceIsLeft(NormalizedAccount(raw, now), id, now);
  }

  lemma UnrenewedTerms(e: Entitlement, now: int)
    requires !Renews(e, now)
    ensures SameTerms(Normalized(e, now), e)
  {}

  /**
    Once another plan has taken over, the holds are covered if and only if what it offers at once and
    the additional credits suffice for them, product by product.
  */
  lemma CoverAfterReplacement(s: Settings, op: Operation, first: Option<Data>, account: Option<Account>, receipts: seq<Option<Data>>, now: int)
    requires (op.GrantPlan? || op.ChangePlan?) && ValidSettings(s) && |receipts| == |ToSweep(op, account, now)|
    requires PlansValid(account.GetOr(NO_ACCOUNT)) && Decide(s, op, first, account, receipts, now).Commit?
    ensures FindPlan(s.plans, op.planId).Some?
    ensures var raw, after := account.GetOr(NO_ACCOUNT), Decide(s, op, first, account, receipts, now).draft.account;
            Covered(after, now) <==>
            forall id: string :: Held(raw.holds, id, now) <= AllowanceOffered(s, op, raw, now, id) + Balance(raw, id)
  {
    hide SettleWindows, NormalizedAccount, Covered, Held, AllowanceOffered, FindPlan, ValidSettings, ValidId, ApplyTotals, Spendable, LeftIn, Active, Effective,
         WithPlan, PlansValid;
    var raw := account.GetOr(NO_ACCOUNT);
    var data := NormalizedAccount(WithPlan(s, op, raw, now), now);
    ReplacementServes(s, op, raw, now, "");
    SettledService(raw, data, now);
    var after := Decide(s, op, first, account, receipts, now).draft.account;
    KeptByLooking(s, op, raw, now);
    assert after.own == data.own && after.grant == data.grant && after.balances == raw.balances && after.holds == raw.holds;
    CoverOfPresent(after, WithPlan(s, op, raw, now), now);
    forall id: string
      ensures Balance(after, id) == Balance(raw, id)
      ensures (if Active(Effective(data, now), now) then LeftIn(Effective(data, now), id) else 0) == AllowanceOffered(s, op, raw, now, id)
    {
      ReplacementServes(s, op, raw, now, id);
    }
  }

  lemma KeptByLooking(s: Settings, op: Operation, raw: Account, now: int)
    requires (op.GrantPlan? || op.ChangePlan?) && FindPlan(s.plans, op.planId).Some?
    ensures var data := NormalizedAccount(WithPlan(s, op, raw, now), now); data.balances == raw.balances && data.holds == raw.holds
  {
    hide Normalized;
  }
}
