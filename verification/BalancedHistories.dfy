/**
  The documented balance law over every history, changes of plan included: a statement that was
  balanced stays so exactly when the call that commits neither finds a whole window slept through nor
  goes on with use that the statement does not count.
*/
module BalancedHistories {
  import opened Prelude
  import opened Plans
  import opened Windows
  import opened Rollover
  import opened Conservation
  import opened Accounts
  import opened Operations
  import opened Books
  import opened Retries
  import opened Coverage
  import opened CoveredRuns
  import opened Solvency
  import opened BalanceLaw
  import opened BalancedRuns
  import opened Replacements

  // ---- what a commit settles ----

  /** The use of the week that an entitlement goes on counting. */
  function CountedUse(e: Entitlement, id: string, now: int): int {
    if Active(e, now) && FindProduct(Products(e), id).Some? && id in e.counters then e.counters[id].week else 0
  }

  /** The use that the statement has not charged for: all of a window that stays open, else what exceeds the allowance. */
  function OpenUse(raw: Account, data: Account, now: int, id: string): int {
    if Kept(raw.windows, CurrentWindows(data, now), id) then UsedIn(raw, id)
    else Max(0, UsedIn(raw, id) - Open(raw.windows, id))
  }

  /** The counters go on with other use than the statement holds open. */
  predicate Unsettled(raw: Account, data: Account, now: int, id: string) {
    CountedUse(Effective(data, now), id, now) != OpenUse(raw, data, now, id)
  }

  /** What unbalances a statement: idle windows charged, or use granted again or forgotten. */
  predicate Disturbs(raw: Account, data: Account, now: int, id: string) {
    SleptThrough(raw, data, now, id) || Unsettled(raw, data, now, id)
  }

  /** An account as some call left it at `since`. */
  ghost predicate LeftAt(s: Settings, a: Account, since: int) {
    Sound(a) && Ordinary(s, a) && Tracked(a, since)
  }

  /** The open window, in terms of the counter of its week. */
  lemma OpenUseAfter(data: Account, now: int, id: string)
    requires PlansValid(data)
    ensures UsedIn(WithWindowsOf(data, now), id) == CountedUse(Effective(data, now), id, now)
    ensures Active(Effective(data, now), now) ==> CurrentWindows(data, now).Some?
    ensures !Active(Effective(data, now), now) ==> CurrentWindows(data, now).None?
  {
    hide FindProduct, StoredWindows, CurrentProducts;
    if Active(Effective(data, now), now) {
      OpenWindow(data, id, now);
    }
  }

  /** A look at an entitlement: a week goes on as it was, or a week without use begins. */
  lemma WeekGoesOn(e: Entitlement, id: string, now: int)
    requires ValidEntitlement(e) && FindProduct(Products(e), id).Some?
    ensures var n, c := Normalized(e, now), CounterOf(e.counters, id, e.periodStart);
            id in n.counters && (n.counters[id].weekStart != c.weekStart ==> n.counters[id].week == 0)
  {
    hide MoveCounter, MoveCounters;
    NormalizedCounter(e, now, id);
    var r := Renewed(e, now);
    WeekMovesOrStays(FindProduct(Products(e), id).value, CounterOf(r.counters, id, r.periodStart), now);
  }

  /** A look that goes on with the statement's key: the entitlement that was left there, or its plan begun anew. */
  ghost predicate GoesOn(raw: Account, data: Account, since: int, now: int) {
    var e, f := Effective(raw, since), Effective(data, now);
    && Active(e, since) && Active(f, now) && ValidEntitlement(e) && f.plan == e.plan
    && (f == Normalized(e, now) || exists g: Entitlement :: g.counters == map[] && g.plan == e.plan && !Renews(g, now) && f == Normalized(g, now))
  }

  lemma SettlingGoesOn(s: Settings, op: Operation, first: Option<Data>, account: Option<Account>, receipts: seq<Option<Data>>, since: int, now: int)
    requires |receipts| == |ToSweep(op, account, now)| && Decide(s, op, first, account, receipts, now).Commit?
    requires LeftAt(s, account.GetOr(NO_ACCOUNT), since)
    requires Continuing(account.GetOr(NO_ACCOUNT).windows, CurrentWindows(Settling(s, op, account.GetOr(NO_ACCOUNT), now), now))
    ensures GoesOn(account.GetOr(NO_ACCOUNT), Settling(s, op, account.GetOr(NO_ACCOUNT), now), since, now)
  {
    hide Normalized, MaintenanceSource, FindPlan, ToSweep, CurrentProducts, StoredWindows, ValidId, DecideConsume, DecideRecord, DecideGrantCredits, DecideReserve,
         DecideSettle, DecideRelease, DecideMaintain;
    var raw := account.GetOr(NO_ACCOUNT);
    var data := Settling(s, op, raw, now);
    var e, f := Effective(raw, since), Effective(data, now);
    KeyOf(raw, data, since, now);
    if op.GrantPlan? {
      var g := AssignedPlan(FindPlan(s.plans, op.planId).value, now);
      assert !Renews(g, now) && g.counters == map[];
      UnrenewedTerms(g, now);
      assert OnGrant(data, now);
      assert f == Normalized(g, now);
      SamePlanUnderId(s, e, g);
    } else if op.ChangePlan? && !OnGrant(data, now) {
      var g := Chosen(raw.own, FindPlan(s.plans, op.planId).value, now);
      UnrenewedTerms(g, now);
      SamePlanUnderId(s, e, g);
      assert f == Normalized(g, now) && g.counters == map[] && !Renews(g, now);
    } else if op.Maintain? {
      MaintenanceRenewsAsLooking(raw.own, now);
      SamePlan(e, now);
    } else {
      SamePlan(e, now);
    }
  }

  lemma SamePlan(e: Entitlement, now: int)
    ensures Normalized(e, now).plan == e.plan
  {}

  lemma SamePlanUnderId(s: Settings, e: Entitlement, g: Entitlement)
    requires Configured(s, e.plan) && e.plan.Some? && g.plan.Some?
    requires g.plan == FindPlan(s.plans, g.plan.value.id) && e.plan.value.id == g.plan.value.id
    ensures e.plan == g.plan
  {}

  /** The statement goes on under a key: the same side serves, and the plan has the same id. */
  lemma KeyOf(raw: Account, data: Account, since: int, now: int)
    requires Tracked(raw, since) && Continuing(raw.windows, CurrentWindows(data, now))
    ensures Active(Effective(raw, since), since) && Active(Effective(data, now), now)
    ensures OnGrant(raw, since) == OnGrant(data, now)
    ensures Effective(raw, since).plan.value.id == Effective(data, now).plan.value.id
  {
    hide CurrentProducts, StoredWindows;
  }

  /** A window that the statement opens under the same key has no use yet; one it keeps open has the same allowance. */
  lemma NewWindowsAreUnused(raw: Account, data: Account, since: int, now: int, id: string)
    requires PlansValid(raw) && PlansValid(data) && Tracked(raw, since) && GoesOn(raw, data, since, now)
    requires Continuing(raw.windows, CurrentWindows(data, now))
    ensures !Kept(raw.windows, CurrentWindows(data, now), id) ==> CountedUse(Effective(data, now), id, now) == 0
    ensures Kept(raw.windows, CurrentWindows(data, now), id) ==> Open(raw.windows, id) == Open(WithWindowsOf(data, now).windows, id)
  {
    hide Normalized, MoveCounters, FindProduct, StoredWindows, CurrentProducts, Active, OnGrant, Effective;
    var e, f := Effective(raw, since), Effective(data, now);
    TrackedWindows(raw, since);
    OpenWindow(raw, id, since);
    OpenWindow(data, id, now);
    if FindProduct(Products(e), id).Some? {
      if f == Normalized(e, now) {
        WeekGoesOn(e, id, now);
      } else {
        var g: Entitlement :| g.counters == map[] && g.plan == e.plan && !Renews(g, now) && f == Normalized(g, now);
        NothingCounted(g, id, now);
      }
    }
  }

  lemma NothingCounted(g: Entitlement, id: string, now: int)
    requires ValidEntitlement(g) && g.counters == map[] && !Renews(g, now) && FindProduct(Products(g), id).Some?
    ensures id in Normalized(g, now).counters && Normalized(g, now).counters[id].week == 0
  {
    hide MoveCounters;
    NormalizedCounter(g, now, id);
  }

  /** What a commit adds to the distance between statement and account. */
  lemma CommitFallsBehind(s: Settings, book: Book, call: Call, id: string)
    requires ValidSettings(s) && Sound(AccountOf(book)) && DecideOn(s, book, call.op, call.now).Commit?
    ensures var raw, data := AccountOf(book), Settling(s, call.op, AccountOf(book), call.now);
            && Behind(Apply(s, book, call.op, call.now), id) == Behind(book, id) + IdleCharge(raw, data, call.now, id) - Drift(raw, data, call.now, id)
  {
    hide Decide, ToSweep, Drift, IdleCharge, Settling, Worth, WithExpired, WithTarget, ValidSettings, Tracked, WithWindowsOf, Normalized;
    var posted := DecideOn(s, book, call.op, call.now).draft.posted;
    DecisionEarns(s, call.op, RowOf(book, FirstRow(call.op)), book.account,
                  ReceiptsOf(book.rows, ToSweep(call.op, book.account, call.now)), call.now, id);
    TotalOfConcatenation(book.statement, posted, CreditsOf(id));
  }

  /** The drift of a commit, in terms of the use that goes on. */
  lemma DriftIsUse(s: Settings, op: Operation, first: Option<Data>, account: Option<Account>, receipts: seq<Option<Data>>, since: int, now: int, id: string)
    requires |receipts| == |ToSweep(op, account, now)| && Decide(s, op, first, account, receipts, now).Commit?
    requires ValidSettings(s) && LeftAt(s, account.GetOr(NO_ACCOUNT), since)
    ensures var raw, data := account.GetOr(NO_ACCOUNT), Settling(s, op, account.GetOr(NO_ACCOUNT), now);
            && PlansValid(data)
            && Drift(raw, data, now, id) == CountedUse(Effective(data, now), id, now) - OpenUse(raw, data, now, id)
            && (Continuing(raw.windows, CurrentWindows(data, now)) && !Kept(raw.windows, CurrentWindows(data, now), id) ==> CountedUse(Effective(data, now), id, now) == 0)
  {
    hide Decide, ToSweep, Settling, Ordinary, CountedUse, UsedIn, Effective, CurrentWindows, WithWindowsOf, GoesOn, Tracked, ValidSettings, NormalizedAccount;
    var raw := account.GetOr(NO_ACCOUNT);
    var data := Settling(s, op, raw, now);
    SettlingIsValid(s, op, raw, now);
    OpenUseAfter(data, now, id);
    if Continuing(raw.windows, CurrentWindows(data, now)) {
      SettlingGoesOn(s, op, first, account, receipts, since, now);
      NewWindowsAreUnused(raw, data, since, now, id);
    }
  }

  lemma SettlingIsValid(s: Settings, op: Operation, raw: Account, now: int)
    requires ValidSettings(s) && PlansValid(raw)
    ensures PlansValid(Settling(s, op, raw, now))
  {
    hide Normalized, MaintenanceSource, FindPlan, ValidSettings;
    NormalizedPlans(raw, now);
    if op.Maintain? {
      SourcePlan(raw.own, now);
      NormalizedPlans(raw.(own := MaintenanceSource(raw.own, now)), now);
    } else if (op.GrantPlan? || op.ChangePlan?) && FindPlan(s.plans, op.planId).Some? {
      PlansAreValid(s, op.planId);
      SamePlan(AssignedPlan(FindPlan(s.plans, op.planId).value, now), now);
      NormalizedPlans(raw.(own := Chosen(raw.own, FindPlan(s.plans, op.planId).value, now)), now);
    }
  }

  /**
    One commit, whatever the operation: a balanced statement stays balanced if and only if no whole
    window was slept through and the counters go on with the use that the statement holds open.
  */
  lemma BalancedUnlessDisturbed(s: Settings, book: Book, since: int, call: Call, id: string)
    requires ValidSettings(s) && LeftAt(s, AccountOf(book), since) && Balanced(book, id) && DecideOn(s, book, call.op, call.now).Commit?
    ensures Balanced(Apply(s, book, call.op, call.now), id) <==>
            !Disturbs(AccountOf(book), Settling(s, call.op, AccountOf(book), call.now), call.now, id)
  {
    hide Decide, ToSweep, Drift, IdleCharge, Settling, Ordinary, Tracked, Apply, CountedUse, OpenUse, Effective, PlansValid, CurrentWindows;
    var raw := AccountOf(book);
    CommitFallsBehind(s, book, call, id);
    DriftIsUse(s, call.op, RowOf(book, FirstRow(call.op)), book.account, ReceiptsOf(book.rows, ToSweep(call.op, book.account, call.now)), since, call.now, id);
    IdleChargeIsSleep(raw, Settling(s, call.op, raw, call.now), call.now, id);
    OpenUseOfMoved(raw, Settling(s, call.op, raw, call.now), call.now, id);
  }

  lemma OpenUseOfMoved(raw: Account, data: Account, now: int, id: string)
    ensures !Kept(raw.windows, CurrentWindows(data, now), id) ==> OpenUse(raw, data, now, id) >= 0
    ensures SleptThrough(raw, data, now, id) ==>
              Continuing(raw.windows, CurrentWindows(data, now)) && !Kept(raw.windows, CurrentWindows(data, now), id)
  {}

  // ---- every history ----

  /** When a history last committed something. */
  function LastCommit(s: Settings, calls: seq<Call>): int {
    if calls == [] then 0
    else
      var front, last := calls[..|calls| - 1], calls[|calls| - 1];
      if DecideOn(s, Run(s, front), last.op, last.now).Commit? then last.now else LastCommit(s, front)
  }

  lemma CommitIsTracked(s: Settings, book: Book, call: Call)
    requires ValidSettings(s) && Sound(AccountOf(book)) && DecideOn(s, book, call.op, call.now).Commit?
    ensures Tracked(AccountOf(Apply(s, book, call.op, call.now)), call.now)
  {
    hide Decide, ToSweep, Settling, Tracked, Sound, ValidSettings, Drift, Worth, Earned, IdleCharge, WithExpired, WithTarget, WithWindowsOf;
    DecisionEarns(s, call.op, RowOf(book, FirstRow(call.op)), book.account,
                  ReceiptsOf(book.rows, ToSweep(call.op, book.account, call.now)), call.now, "");
  }

  lemma {:induction false} HistoryIsLeft(s: Settings, calls: seq<Call>)
    requires ValidSettings(s)
    ensures LeftAt(s, AccountOf(Run(s, calls)), LastCommit(s, calls))
  {
    hide DecideOn, Apply, Ordinary, Tracked, Sound, ValidSettings, OpenRest, Balance, RunDrift;
    HistoryIsOrdinary(s, calls);
    StatementBalances(s, calls, "");
    if calls == [] {
      NothingIsTracked();
    } else {
      var n := |calls| - 1;
      var book, call := Run(s, calls[..n]), calls[n];
      HistoryIsLeft(s, calls[..n]);
      if DecideOn(s, book, call.op, call.now).Commit? {
        CommitIsTracked(s, book, call);
      } else {
        NothingApplied(s, book, call.op, call.now);
      }
    }
  }

  lemma NothingIsTracked()
    ensures Tracked(NO_ACCOUNT, 0) && Sound(NO_ACCOUNT)
  {}

  /** Some call that commits disturbs the balance of a product. */
  predicate Disturbed(s: Settings, calls: seq<Call>, id: string) {
    calls != [] &&
    var front, last := calls[..|calls| - 1], calls[|calls| - 1];
    (Disturbed(s, front, id) ||
     (DecideOn(s, Run(s, front), last.op, last.now).Commit? &&
      Disturbs(AccountOf(Run(s, front)), Settling(s, last.op, AccountOf(Run(s, front)), last.now), last.now, id)))
  }

  /** The statement was balanced after every call. */
  predicate AlwaysBalanced(s: Settings, calls: seq<Call>, id: string) {
    Balanced(Run(s, calls), id) && (calls == [] || AlwaysBalanced(s, calls[..|calls| - 1], id))
  }

  /**
    The documented law, over every history and for every product, plans assigned, chosen, changed,
    ended and taken up again included: the statement is balanced after every call if and only if no
    call that committed disturbed it.
  */
  lemma {:induction false} BalancedHistory(s: Settings, calls: seq<Call>, id: string)
    requires ValidSettings(s)
    ensures AlwaysBalanced(s, calls, id) <==> !Disturbed(s, calls, id)
  {
    hide Decide, ToSweep, Settling, Balanced, Disturbs, LeftAt, ValidSettings, Apply;
    if calls == [] {
      NothingIsBalanced(id);
    } else {
      var n := |calls| - 1;
      var book, call := Run(s, calls[..n]), calls[n];
      BalancedHistory(s, calls[..n], id);
      HistoryIsLeft(s, calls[..n]);
      if DecideOn(s, book, call.op, call.now).Commit? {
        if Balanced(book, id) {
          BalancedUnlessDisturbed(s, book, LastCommit(s, calls[..n]), call, id);
        } else {
          NotAlways(s, calls[..n], id);
        }
      } else {
        NothingApplied(s, book, call.op, call.now);
        Now(s, calls[..n], id);
      }
    }
  }

  lemma NothingIsBalanced(id: string)
    ensures Balanced(EMPTY_BOOK, id)
  {}

  lemma NotAlways(s: Settings, calls: seq<Call>, id: string)
    requires !Balanced(Run(s, calls), id)
    ensures !AlwaysBalanced(s, calls, id)
  {}

  lemma Now(s: Settings, calls: seq<Call>, id: string)
    ensures AlwaysBalanced(s, calls, id) ==> Balanced(Run(s, calls), id)
  {}

  // ---- changes of plan ----

  /** The use of the week that a new plan goes on counting for a product. */
  function CarriedWeek(plan: Plan, counters: map<string, Counter>, id: string, now: int): int {
    var p := FindProduct(plan.products, id);
    if p.None? || id !in counters then 0 else MoveCounter(p.value, counters[id], now).week
  }

  /**
    The change of a running plan: the statement stays balanced if and only if the use that the
    counters carry over, with the weeks of the new plan, is the use beyond the old allowance. Within
    the old limits that is none at all.
  */
  lemma ChangedPlanUnbalances(s: Settings, book: Book, since: int, call: Call, id: string)
    requires ValidSettings(s) && LeftAt(s, AccountOf(book), since) && Balanced(book, id)
    requires DecideOn(s, book, call.op, call.now).Commit? && CarriesOver(book.account, call.op, call.now)
    requires AccountOf(book).grant.None?
    ensures FindPlan(s.plans, call.op.planId).Some?
    ensures var raw, plan := AccountOf(book), FindPlan(s.plans, call.op.planId).value;
            && (Balanced(Apply(s, book, call.op, call.now), id) <==>
                CarriedWeek(plan, raw.own.counters, id, call.now) == Max(0, UsedIn(raw, id) - Open(raw.windows, id)))
            && (OpenRest(raw, id) >= 0 ==>
                  (Balanced(Apply(s, book, call.op, call.now), id) <==> CarriedWeek(plan, raw.own.counters, id, call.now) == 0))
  {
    hide ToSweep, Ordinary, Balanced, Normalized, FindPlan, UsedIn, ValidId, SettleWindows, ApplyTotals, Spendable, Disturbs, Apply, CurrentWindows, PlansValid, Kept;
    var raw, plan := AccountOf(book), FindPlan(s.plans, call.op.planId).value;
    var data := Settling(s, call.op, raw, call.now);
    BalancedUnlessDisturbed(s, book, since, call, id);
    NewKey(s, call.op, raw, since, call.now);
    NothingKept(raw, data, call.now, id);
    CarriedWeekCounts(s, raw, plan, call.now, id);
  }

  /** A plan of another id is on another key of the statement. */
  lemma NewKey(s: Settings, op: Operation, raw: Account, since: int, now: int)
    requires op.ChangePlan? && FindPlan(s.plans, op.planId).Some? && Tracked(raw, since) && raw.grant.None?
    requires raw.own.plan.Some? ==> raw.own.plan.value.id != op.planId
    ensures !Continuing(raw.windows, CurrentWindows(Settling(s, op, raw, now), now))
  {
    hide Normalized, FindPlan, CurrentProducts, StoredWindows;
    var g := Chosen(raw.own, FindPlan(s.plans, op.planId).value, now);
    SamePlan(g, now);
    assert FindPlan(s.plans, op.planId).value.id == op.planId;
  }

  lemma NothingKept(raw: Account, data: Account, now: int, id: string)
    requires !Continuing(raw.windows, CurrentWindows(data, now))
    ensures Disturbs(raw, data, now, id) <==> CountedUse(Effective(data, now), id, now) != Max(0, UsedIn(raw, id) - Open(raw.windows, id))
    ensures OpenRest(raw, id) == Open(raw.windows, id) - UsedIn(raw, id)
  {
    hide Continuing, CurrentWindows, UsedIn;
  }

  lemma CarriedWeekCounts(s: Settings, raw: Account, plan: Plan, now: int, id: string)
    requires ValidPlan(plan) && raw.grant.None? && raw.own.active && now < raw.own.periodEnd
    ensures var data := NormalizedAccount(raw.(own := Chosen(raw.own, plan, now)), now);
            CountedUse(Effective(data, now), id, now) == CarriedWeek(plan, raw.own.counters, id, now)
  {
    hide MoveCounter, MoveCounters;
    var g := Chosen(raw.own, plan, now);
    NormalizedCounter(g, now, id);
    if FindProduct(plan.products, id).Some? && id !in raw.own.counters {
      NothingCountedYet(FindProduct(plan.products, id).value, raw.own.periodStart, now);
    }
  }

  lemma NothingCountedYet(p: Product, start: int, now: int)
    ensures MoveCounter(p, FreshCounter(start), now).week == 0
  {}

  /** A plan that begins anew: assigned, or chosen when none was running. */
  predicate BeginsAnew(account: Option<Account>, op: Operation, now: int) {
    op.GrantPlan? || (op.ChangePlan? && account.GetOr(NO_ACCOUNT).grant.None? && !CarriesOver(account, op, now))
  }

  /**
    A plan that begins anew: the statement stays balanced if and only if no window was overdrawn,
    none was slept through, and no use is forgotten, as it is when a plan is assigned again at the
    very moment its window began. Neither can happen under another key.
  */
  lemma NewPlanUnbalances(s: Settings, book: Book, since: int, call: Call, id: string)
    requires ValidSettings(s) && LeftAt(s, AccountOf(book), since) && Balanced(book, id)
    requires DecideOn(s, book, call.op, call.now).Commit? && BeginsAnew(book.account, call.op, call.now)
    ensures var raw, data := AccountOf(book), Settling(s, call.op, AccountOf(book), call.now);
            var kept := Kept(raw.windows, CurrentWindows(data, call.now), id);
            && (Balanced(Apply(s, book, call.op, call.now), id) <==>
                !SleptThrough(raw, data, call.now, id) && if kept then UsedIn(raw, id) == 0 else OpenRest(raw, id) >= 0)
            && (raw.windows.Some? && raw.windows.value.key != WindowKey(call.op.GrantPlan?, call.op.planId) ==>
                  !kept && !SleptThrough(raw, data, call.now, id))
  {
    hide ToSweep, Ordinary, Balanced, Normalized, FindPlan, UsedIn, ValidId, SettleWindows, ApplyTotals, Spendable, Apply, PlansValid, StoredWindows, CurrentProducts,
         SleptThrough;
    var raw := AccountOf(book);
    var data := Settling(s, call.op, raw, call.now);
    BalancedUnlessDisturbed(s, book, since, call, id);
    PlansAreValid(s, call.op.planId);
    var plan := FindPlan(s.plans, call.op.planId).value;
    var g := if call.op.GrantPlan? then AssignedPlan(plan, call.now) else Chosen(raw.own, plan, call.now);
    UnrenewedTerms(g, call.now);
    assert Effective(data, call.now) == Normalized(g, call.now) && OnGrant(data, call.now) == call.op.GrantPlan?;
    if FindProduct(Products(g), id).Some? {
      NothingCounted(g, id, call.now);
    }
    OpenUseOfMoved(raw, data, call.now, id);
  }
}
