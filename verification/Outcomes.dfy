/**
  What every account operation answers and commits (rt-app/core-go/subscriptions/usage.go,
  reservations.go, accounts.go, overview.go), from the rows it finds to the fields it writes, in the
  plain terms of module Present.
*/
module Outcomes {
  import opened Prelude
  import opened Plans
  import opened Windows
  import opened Rollover
  import opened Accounts
  import opened Operations
  import opened Books
  import opened ModelCaps
  import opened Present

  // ---- what settling windows and sweeping leave alone ----

  /** Only the numbering, the totals and the record of open windows differ. */
  predicate SameButRecords(a: Account, b: Account) {
    b == a.(windows := b.windows, sequence := b.sequence, totals := b.totals)
  }

  lemma {:induction false} WindowsAreOnlyRecorded(d: Draft, entries: seq<Pending>, now: int)
    ensures SameButRecords(d.account, PostWindows(d, entries, now).account)
  {
    hide Spendable, ApplyTotals, WindowEntry, WindowSeedOf;
    if entries != [] {
      WindowsAreOnlyRecorded(d, entries[..|entries| - 1], now);
    }
  }

  lemma SettlingOnlyRecords(raw: Account, data: Account, now: int)
    ensures SameButRecords(data, SettleWindows(raw, data, now).account)
  {
    hide RolledOver, CurrentWindows, PostWindows, SettledCounters;
    var rolled := RolledOver(raw.windows, CurrentWindows(data, now), SettledCounters(raw), now);
    WindowsAreOnlyRecorded(Draft(data.(windows := rolled.state), []), rolled.entries, now);
  }

  lemma {:induction false} ExpiriesAreOnlyRecorded(d: Draft, expired: seq<Hold>, now: int)
    ensures SameButRecords(d.account, PostExpired(d, expired, now).account)
  {
    hide Spendable, ApplyTotals, ExpireEntry;
    if expired != [] {
      ExpiriesAreOnlyRecorded(d, expired[..|expired| - 1], now);
    }
  }

  lemma SweepingOnlyDropsExpired(d: Draft, now: int)
    ensures SameButRecords(d.account.(holds := LiveHolds(d.account.holds, now)), Swept(d, now).account)
  {
    hide PostExpired, LiveHolds, ExpiredHolds;
    ExpiriesAreOnlyRecorded(d.(account := d.account.(holds := LiveHolds(d.account.holds, now))), ExpiredHolds(d.account.holds, now), now);
  }

  /** What a charge is checked against depends on the plans, the balances and the live holds only. */
  lemma SameOffer(a: Account, b: Account, id: string, plans: seq<Plan>, rateId: Option<string>, cap: RateCap, n: int, now: int)
    requires a.own == b.own && a.grant == b.grant && a.balances == b.balances
    requires Held(a.holds, id, now) == Held(b.holds, id, now) && HeldAtRate(a.holds, id, cap.rateId, now) == HeldAtRate(b.holds, id, cap.rateId, now)
    ensures AllowanceLeft(a, id, now) == AllowanceLeft(b, id, now) && Spendable(a, id, now) == Spendable(b, id, now)
    ensures CapOf(a, plans, id, rateId, now) == CapOf(b, plans, id, rateId, now)
    ensures Exceeded(a, id, cap, n, now) == Exceeded(b, id, cap, n, now) && FullWindow(a, id, now) == FullWindow(b, id, now)
    ensures Effective(a, now) == Effective(b, now) && OnGrant(a, now) == OnGrant(b, now)
  {
    hide Held, HeldAtRate, FindPlan, FindCap, Left;
  }

  // ---- who may be charged ----

  predicate PaidFor(s: Settings, e: Entitlement) {
    s.paymentRequired ==> e.mode == Admin || (s.provider.Some? && e.mode == Provider(s.provider.value))
  }

  /** Why nothing of a product may be charged at all; None when something may. */
  function Objection(s: Settings, raw: Account, id: string, now: int): Option<Refusal> {
    var e := Serving(raw, now);
    if !Running(e, now) then Some(Inactive)
    else if !PaidFor(s, e) then Some(PaymentRequired)
    else if id !in ProductIds(e.plan.value.products) then Some(NotInPlan)
    else None
  }

  lemma ObjectionsBlock(s: Settings, raw: Account, id: string, now: int)
    ensures Blocked(s, NormalizedAccount(raw, now), id, now) == Objection(s, raw, id, now)
  {
    hide Normalized;
    AssignmentServesFirst(raw, now);
  }

  /** The cap of the rate, as configured, leaves room for n more credits in every window. */
  predicate CapHasRoom(s: Settings, raw: Account, id: string, rateId: Option<string>, n: int, now: int) {
    var a := NormalizedAccount(raw, now);
    var cap := CapOf(a, s.plans, id, rateId, now);
    cap.Some? ==> HasRoom(a, id, cap.value, n, now)
  }

  /** The first window in which it does not, see CapNamesTheFirstWindow. */
  predicate OverflowsFirst(s: Settings, raw: Account, id: string, rateId: Option<string>, n: int, w: WindowName, now: int) {
    var a := NormalizedAccount(raw, now);
    var cap := CapOf(a, s.plans, id, rateId, now);
    cap.Some? && Exceeded(a, id, cap.value, n, now) == Some(w)
  }

  // ---- a charge ----

  function HeldNow(raw: Account, id: string, now: int): int {
    Total(raw.holds, LiveCredits(id, now))
  }

  lemma AvailableIsSpendable(raw: Account, id: string, now: int)
    ensures Available(raw, id, HeldNow(raw, id, now), now) == Spendable(NormalizedAccount(raw, now), id, now)
  {
    hide Normalized, Held, AllowanceLeft;
    HeldIsTheSum(raw.holds, id, now);
  }

  lemma AllowanceIsTakenFirst(a: Account, id: string, n: nat, now: int)
    ensures FreeAllowance(a, id, now) + FreeBalance(a, id, now) == Spendable(a, id, now)
    ensures Min(n, FreeAllowance(a, id, now)) == Min(Min(n, Spendable(a, id, now)), AllowanceLeft(a, id, now))
  {
    hide Spendable, AllowanceLeft;
  }

  /**
    A valid charge under a new key commits exactly when the plan that serves is running, paid for and
    has the product, the credits are available beside what is held, and the cap of the rate has room.
    Otherwise it is refused for the first of these that fails.
  */
  lemma ConsumeIsAnswered(s: Settings, book: Book, op: Operation, now: int)
    requires op.Consume? && ValidId(op.requestId) && 1 <= op.credits <= 1_000_000_000 && UsageRow(op.requestId) !in book.rows
    ensures var raw, c := AccountOf(book), DecideOn(s, book, op, now);
            var why := Objection(s, raw, op.productId, now);
            var available := Available(raw, op.productId, HeldNow(raw, op.productId, now), now);
            if why.Some? then c == Refused(why.value)
            else if op.credits > available then c.Refused? && c.why == LimitReached(FullWindow(NormalizedAccount(raw, now), op.productId, now))
            else if !CapHasRoom(s, raw, op.productId, op.rateId, op.credits, now) then c.Refused? && c.why.ModelLimit? && OverflowsFirst(s, raw, op.productId, op.rateId, op.credits, c.why.window, now)
            else c.Commit?
  {
    hide NormalizedAccount, SettleWindows, CapOf, Exceeded, HasRoom, FullWindow, Taken, Post, Spendable, AllowanceLeft, FreeAllowance, FreeBalance, Available, Serving, Objection, Blocked, ValidId, Running;
    var raw := AccountOf(book);
    var a, id := NormalizedAccount(raw, now), op.productId;
    ObjectionsBlock(s, raw, id, now);
    AvailableIsSpendable(raw, id, now);
    if Objection(s, raw, id, now).None? {
      var b := Opened(raw, now).account;
      SettlingOnlyRecords(raw, a, now);
      var cap := CapOf(a, s.plans, id, op.rateId, now);
      var some := cap.GetOr(RateCap("", None, None, None, None));
      SameOffer(a, b, id, s.plans, op.rateId, some, op.credits, now);
      AllowanceIsTakenFirst(b, id, op.credits, now);
      UnobjectedIsRunning(s, raw, id, now);
      CapAdmitsWhatFits(a, id, some, op.credits, now);
    }
  }

  lemma UnobjectedIsRunning(s: Settings, raw: Account, id: string, now: int)
    requires Objection(s, raw, id, now).None?
    ensures Active(Effective(NormalizedAccount(raw, now), now), now)
  {
    hide Normalized;
    AssignmentServesFirst(raw, now);
  }

  /** The same charge again is repeated, another one under its key refused, and one of nothing or too much as well. */
  lemma ConsumeIsChecked(s: Settings, book: Book, op: Operation, now: int)
    requires op.Consume?
    ensures var c, row := DecideOn(s, book, op, now), Lookup(book.rows, UsageRow(op.requestId));
            && (!ValidId(op.requestId) || !(1 <= op.credits <= 1_000_000_000) ==> c == Refused(BadRequest))
            && (ValidId(op.requestId) && 1 <= op.credits <= 1_000_000_000 && row.Some? ==>
                  c == if row.value.UsageData? && row.value.productId == op.productId && row.value.credits == op.credits then Replayed else Refused(KeyConflict))
  {
    hide ValidId, ChargedUsage, Opened, NormalizedAccount, Blocked;
  }

  /** The last entry of a commit, under the account's new number. */
  predicate Ends(d: Draft, e: Entry, seed: Seed) {
    |d.posted| > 0 && d.posted[|d.posted| - 1] == Posted(d.account.sequence, e, seed)
  }

  lemma LaterOffer(a: Account, b: Account, id: string, fromAllowance: nat, fromBalance: nat, rateId: Option<string>, counted: int, now: int)
    requires IsCharged(a, b, id, fromAllowance, fromBalance, rateId, counted, now) && fromAllowance <= AllowanceLeft(a, id, now)
    requires fromAllowance + fromBalance <= Spendable(a, id, now)
    ensures Spendable(b, id, now) == Spendable(a, id, now) - fromAllowance - fromBalance
  {
    hide IsCharged, AllowanceLeft, Held;
    ChargeLeavesTheRest(a, b, id, fromAllowance, fromBalance, rateId, counted, now);
    SameHolds(a, b, id, fromAllowance, fromBalance, rateId, counted, now);
  }

  lemma SameHolds(a: Account, b: Account, id: string, fromAllowance: int, fromBalance: int, rateId: Option<string>, counted: int, now: int)
    requires IsCharged(a, b, id, fromAllowance, fromBalance, rateId, counted, now)
    ensures a.holds == b.holds
  {}

  /** The rate under which a charge counts, when it is capped. */
  function CappedRate(s: Settings, raw: Account, id: string, rateId: Option<string>, now: int): Option<string> {
    var cap := CapOf(NormalizedAccount(raw, now), s.plans, id, rateId, now);
    if cap.Some? then Some(cap.value.rateId) else None
  }

  /** Records aside, an account is charged as another that offers the same. */
  lemma ChargedAlike(a: Account, b: Account, c: Account, d: Account, id: string, fromAllowance: int, fromBalance: int, rateId: Option<string>, counted: int, now: int)
    requires SameButRecords(a, b) && SameButRecords(c, d) && IsCharged(b, c, id, fromAllowance, fromBalance, rateId, counted, now)
    ensures IsCharged(a, d, id, fromAllowance, fromBalance, rateId, counted, now)
  {
    hide WithUse, FindProduct;
  }

  /**
    A committed charge takes the allowance first: all that is left of it when it is not enough, and
    only the rest from the additional credits, whatever is held. The usage row and the last entry say
    so, the counters of the product and of the capped rate grow by it, and nothing else changes.
  */
  lemma ConsumeTakesTheAllowanceFirst(s: Settings, book: Book, op: Operation, now: int)
    requires op.Consume? && DecideOn(s, book, op, now).Commit?
    ensures var raw, c := AccountOf(book), DecideOn(s, book, op, now);
            var a, id := NormalizedAccount(raw, now), op.productId;
            var fromAllowance := Min(op.credits, AllowanceLeft(a, id, now));
            var fromBalance := op.credits - fromAllowance;
            && IsCharged(a, c.draft.account, id, fromAllowance, fromBalance, CappedRate(s, raw, id, op.rateId, now), op.credits, now)
            && c.target == Some(UsageData(id, op.credits, fromAllowance, fromBalance, now)) && c.expired == []
            && Ends(c.draft, Entry(now, op.kind, op.source, -op.credits, Some(id), Some(op.requestId), 0, "", fromAllowance, fromBalance, 0,
                                   Some(Available(raw, id, HeldNow(raw, id, now), now) - op.credits), NoDetails), UsageSeed(op.requestId))
  {
    hide NormalizedAccount, SettleWindows, CapOf, Exceeded, HasRoom, FullWindow, Taken, Spendable, AllowanceLeft, FreeAllowance, FreeBalance, Available, Serving, Objection, Blocked, ValidId, Running, IsCharged, ApplyTotals;
    var raw := AccountOf(book);
    var a, id := NormalizedAccount(raw, now), op.productId;
    var b := Opened(raw, now).account;
    ObjectionsBlock(s, raw, id, now);
    UnobjectedIsRunning(s, raw, id, now);
    AvailableIsSpendable(raw, id, now);
    SettlingOnlyRecords(raw, a, now);
    var cap := CapOf(b, s.plans, id, op.rateId, now);
    SameOffer(a, b, id, s.plans, op.rateId, cap.GetOr(RateCap("", None, None, None, None)), op.credits, now);
    AllowanceIsTakenFirst(b, id, op.credits, now);
    var fromAllowance := Min(op.credits, AllowanceLeft(b, id, now));
    var fromBalance := op.credits - fromAllowance;
    RunningIsActive(b, now);
    ChargeIsTaken(b, id, fromAllowance, fromBalance, cap, op.credits, now);
    var taken := Taken(b, id, fromAllowance, fromBalance, cap, op.credits, now);
    LaterOffer(b, taken, id, fromAllowance, fromBalance, CappedRate(s, raw, id, op.rateId, now), op.credits, now);
    ChargedAlike(a, b, taken, DecideOn(s, book, op, now).draft.account, id, fromAllowance, fromBalance, CappedRate(s, raw, id, op.rateId, now), op.credits, now);
  }

  lemma RunningIsActive(a: Account, now: int)
    ensures Running(Effective(a, now), now) == Active(Effective(a, now), now)
  {}
}
