/**
  Solvency, limits and cover over whole runs: what every operation keeps, what only a change of
  plan can break, and what settling a live hold therefore always finds.
*/
module CoveredRuns {
  import opened Prelude
  import opened Plans
  import opened Windows
  import opened Accounts
  import opened Pricing
  import opened Operations
  import opened Books
  import opened Lifecycle
  import opened Coverage

  // ---- one operation ----

  /** What an operation leaves of the account that it brought to the present. */
  ghost predicate Serves(a: Account, b: Account, now: int) {
    Good(b, now) && SameServing(a, b, now) && (DirectCover(a, now) ==> DirectCover(b, now))
  }

  lemma FreeBalanceIsThere(a: Account, id: string, now: int)
    requires Balance(a, id) >= 0
    ensures FreeBalance(a, id, now) <= Balance(a, id)
    ensures FreeAllowance(a, id, now) <= AllowanceLeft(a, id, now)
    ensures FreeAllowance(a, id, now) + FreeBalance(a, id, now) == Spendable(a, id, now)
  {
    hide AllowanceLeft, Held, Balance;
  }

  lemma PostServes(a: Account, d: Draft, e: Entry, seed: Seed, now: int)
    requires Serves(a, d.account, now)
    ensures Serves(a, Post(d, e, seed, now).account, now)
  {
    hide Good, DirectCover, OnGrant, Active, Effective, Post;
    PostSame(d, e, seed, now);
    SameServiceIsGood(Post(d, e, seed, now).account, d.account, now);
  }

  lemma PostSame(d: Draft, e: Entry, seed: Seed, now: int)
    ensures SameService(Post(d, e, seed, now).account, d.account)
  {}

  lemma ServesInTurn(a: Account, b: Account, c: Account, now: int)
    requires Serves(a, b, now) && Serves(b, c, now)
    ensures Serves(a, c, now)
  {
    hide Good, DirectCover, OnGrant, Active, Effective;
  }

  lemma OpenedServes(raw: Account, now: int)
    requires AccountInLimits(raw) && Solvent(raw)
    ensures Serves(NormalizedAccount(raw, now), Opened(raw, now).account, now)
    ensures Serves(NormalizedAccount(raw, now), Swept(Opened(raw, now), now).account, now)
  {
    hide Good, DirectCover, SameServing, Opened, Swept, NormalizedAccount;
    OpenedIsGood(raw, now);
    SweptIsGood(Opened(raw, now), now);
    ServesInTurn(NormalizedAccount(raw, now), Opened(raw, now).account, Swept(Opened(raw, now), now).account, now);
  }

  lemma ConsumeServes(s: Settings, requestId: string, id: string, credits: int, kind: Kind, source: Source, rateId: Option<string>,
                      first: Option<Data>, account: Option<Account>, now: int)
    requires var raw := account.GetOr(NO_ACCOUNT); AccountInLimits(raw) && Solvent(raw)
    requires DecideConsume(s, requestId, id, credits, kind, source, rateId, first, account, now).Commit?
    ensures Serves(NormalizedAccount(account.GetOr(NO_ACCOUNT), now),
                   DecideConsume(s, requestId, id, credits, kind, source, rateId, first, account, now).draft.account, now)
  {
    hide Good, DirectCover, SameServing, Opened, NormalizedAccount, Taken, CapOf, Exceeded, Blocked, ValidId, FreeAllowance, FreeBalance, Spendable, Post;
    var raw := account.GetOr(NO_ACCOUNT);
    OpenedServes(raw, now);
    var d := Opened(raw, now);
    var a := d.account;
    var fromAllowance := Min(credits, FreeAllowance(a, id, now));
    var cap := CapOf(a, s.plans, id, rateId, now);
    GoodBalance(a, id, now);
    FreeBalanceIsThere(a, id, now);
    TakenIsGood(a, id, fromAllowance, credits - fromAllowance, cap, credits, now);
    var b := Taken(a, id, fromAllowance, credits - fromAllowance, cap, credits, now);
    ServesInTurn(NormalizedAccount(raw, now), a, b, now);
    var e := PlainEntry(now, kind, source, -credits, Some(id), Some(requestId)).(fromAllowance := fromAllowance, fromBalance := credits - fromAllowance);
    PostServes(NormalizedAccount(raw, now), d.(account := b), e, UsageSeed(requestId), now);
  }

  lemma GoodBalance(a: Account, id: string, now: int)
    requires Good(a, now)
    ensures Balance(a, id) >= 0
  {}

  lemma AddServes(raw: Account, id: string, credits: nat, e: Entry, seed: Seed, now: int)
    requires AccountInLimits(raw) && Solvent(raw)
    ensures var d := Opened(raw, now);
            Serves(NormalizedAccount(raw, now), Post(d.(account := WithBalance(d.account, id, Balance(d.account, id) + credits)), e, seed, now).account, now)
  {
    hide Opened, NormalizedAccount, Post, Good, DirectCover, SameServing;
    var d := Opened(raw, now);
    OpenedServes(raw, now);
    var b := WithBalance(d.account, id, Balance(d.account, id) + credits);
    MoreBalanceServes(d.account, id, credits, now);
    ServesInTurn(NormalizedAccount(raw, now), d.account, b, now);
    PostServes(NormalizedAccount(raw, now), d.(account := b), e, seed, now);
  }

  lemma MoreBalanceServes(a: Account, id: string, credits: nat, now: int)
    requires Good(a, now)
    ensures Serves(a, WithBalance(a, id, Balance(a, id) + credits), now)
  {
    hide AllowanceLeft, AccountInLimits, Held;
    var b := WithBalance(a, id, Balance(a, id) + credits);
    SameLeft(a, b, now);
    forall other: string
      ensures Balance(b, other) >= Balance(a, other) >= 0
    {
      assert Balance(a, other) >= 0;
    }
    if DirectCover(a, now) {
      forall other: string
        ensures Held(b.holds, other, now) <= AllowanceLeft(b, other, now) + Balance(b, other)
      {
        assert Held(a.holds, other, now) <= AllowanceLeft(a, other, now) + Balance(a, other);
      }
    }
  }

  lemma ReserveServes(s: Settings, op: Operation, first: Option<Data>, account: Option<Account>, receipts: seq<Option<Data>>, now: int)
    requires op.Reserve? && |receipts| == |ToSweep(op, account, now)|
    requires var raw := account.GetOr(NO_ACCOUNT); AccountInLimits(raw) && Solvent(raw)
    requires DecideReserve(s, op, first, account, receipts, now).Commit?
    ensures Serves(NormalizedAccount(account.GetOr(NO_ACCOUNT), now), DecideReserve(s, op, first, account, receipts, now).draft.account, now)
  {
    hide Good, DirectCover, SameServing, Opened, Swept, NormalizedAccount, CapOf, Exceeded, Blocked, ValidId, ValidReservationKey, Spendable, Post,
         ExpiredReceipts, ToSweep, AmountOf;
    var raw := account.GetOr(NO_ACCOUNT);
    OpenedServes(raw, now);
    var d := Swept(Opened(raw, now), now);
    var credits := AmountOf(s, op.amount).credits;
    var rateId := if op.amount.Priced? then Some(op.amount.estimate.rateId) else None;
    var cap := CapOf(d.account, s.plans, op.productId, rateId, now);
    var hold := Hold(op.key, op.productId, credits, now, now + op.ttl.GetOr(DEFAULT_TTL), if cap.Some? then Some(cap.value.rateId) else None);
    var b := d.account.(holds := d.account.holds + [hold]);
    HoldServes(d.account, hold, now);
    ServesInTurn(NormalizedAccount(raw, now), d.account, b, now);
    var e := PlainEntry(now, KindReservation, op.source, 0, Some(op.productId), Some(op.key)).(held := credits);
    PostServes(NormalizedAccount(raw, now), d.(account := b), e, ReserveSeed(op.key), now);
  }

  /** A hold of no more than what is spendable is covered, and so are the others. */
  lemma HoldServes(a: Account, hold: Hold, now: int)
    requires Good(a, now) && (hold.credits == 0 || hold.credits <= Spendable(a, hold.productId, now))
    ensures Serves(a, a.(holds := a.holds + [hold]), now)
  {
    hide AllowanceLeft, AccountInLimits, Held;
    var b := a.(holds := a.holds + [hold]);
    SameLeft(a, b, now);
    forall id: string
      ensures Balance(b, id) == Balance(a, id) >= 0
    {
      assert Balance(a, id) >= 0;
    }
    if DirectCover(a, now) {
      forall id: string
        ensures Held(b.holds, id, now) <= AllowanceLeft(b, id, now) + Balance(b, id)
      {
        assert Held(a.holds, id, now) <= AllowanceLeft(a, id, now) + Balance(a, id);
        HeldOfConcatenation(a.holds, [hold], id, now);
        HeldOfOne(hold, id, now);
      }
    }
  }

  lemma DropServes(a: Account, key: string, now: int)
    requires Good(a, now)
    ensures Serves(a, Dropped(a, key), now)
  {
    hide Good, DirectCover, OnGrant, Active, Effective;
    forall id: string
      ensures Held(WithoutHold(a.holds, key), id, now) <= Held(a.holds, id, now)
    {
      DroppedFrees(a.holds, key, id, now);
    }
    FewerHoldsAreGood(a, WithoutHold(a.holds, key), now);
  }

  lemma SettleServes(s: Settings, op: Operation, first: Option<Data>, account: Option<Account>, receipts: seq<Option<Data>>, now: int)
    requires op.Settle? && |receipts| == |ToSweep(op, account, now)|
    requires var raw := account.GetOr(NO_ACCOUNT); AccountInLimits(raw) && Solvent(raw)
    requires DecideSettle(s, op, first, account, receipts, now).Commit?
    ensures Serves(NormalizedAccount(account.GetOr(NO_ACCOUNT), now), DecideSettle(s, op, first, account, receipts, now).draft.account, now)
  {
    hide Good, DirectCover, SameServing, Opened, Swept, NormalizedAccount, Taken, CapOf, ValidReservationKey, Spendable, FreeAllowance, FreeBalance, Post,
         ExpiredReceipts, ToSweep, UsedOf, WithoutHold, FindHold;
    var raw := account.GetOr(NO_ACCOUNT);
    OpenedServes(raw, now);
    var d := Swept(Opened(raw, now), now);
    var r := ReceiptOf(first, op.source).value;
    var id := r.productId;
    var used := UsedOf(s, r, op.usage).credits;
    var hold := FindHold(d.account.holds, op.key);
    var a := Dropped(d.account, op.key);
    DropServes(d.account, op.key, now);
    GoodBalance(a, id, now);
    FreeBalanceIsThere(a, id, now);
    var fromAllowance := Min(used, FreeAllowance(a, id, now));
    var fromBalance := Min(used - fromAllowance, FreeBalance(a, id, now));
    var cap := CapOf(a, s.plans, id, if r.estimate.Some? then Some(r.estimate.value.rateId) else None, now);
    TakenIsGood(a, id, fromAllowance, fromBalance, cap, used, now);
    var b := Taken(a, id, fromAllowance, fromBalance, cap, used, now);
    ServesInTurn(d.account, a, b, now);
    ServesInTurn(NormalizedAccount(raw, now), d.account, b, now);
    var charged := fromAllowance + fromBalance;
    var e := PlainEntry(now, KindSettlement, op.source, -charged, Some(id), Some(op.key))
               .(fromAllowance := fromAllowance, fromBalance := fromBalance, held := if hold.Some? then -(hold.value.credits as int) else 0,
                 details := Details.Settled(r.credits, used, used - charged));
    PostServes(NormalizedAccount(raw, now), d.(account := b), e, SettleSeed(op.key), now);
  }

  lemma ReleaseServes(s: Settings, op: Operation, first: Option<Data>, account: Option<Account>, receipts: seq<Option<Data>>, now: int)
    requires op.ReleaseHold? && |receipts| == |ToSweep(op, account, now)|
    requires var raw := account.GetOr(NO_ACCOUNT); AccountInLimits(raw) && Solvent(raw)
    requires DecideRelease(s, op, first, account, receipts, now).Commit?
    ensures Serves(NormalizedAccount(account.GetOr(NO_ACCOUNT), now), DecideRelease(s, op, first, account, receipts, now).draft.account, now)
  {
    hide Good, DirectCover, SameServing, Opened, Swept, NormalizedAccount, ValidReservationKey, Spendable, Post,
         ExpiredReceipts, ToSweep, WithoutHold, FindHold;
    var raw := account.GetOr(NO_ACCOUNT);
    OpenedServes(raw, now);
    var d := Swept(Opened(raw, now), now);
    var r := ReceiptOf(first, op.source).value;
    var hold := FindHold(d.account.holds, op.key);
    if hold.Some? {
      var b := Dropped(d.account, op.key);
      DropServes(d.account, op.key, now);
      ServesInTurn(NormalizedAccount(raw, now), d.account, b, now);
      var e := PlainEntry(now, KindRelease, op.source, 0, Some(r.productId), Some(op.key)).(held := -(hold.value.credits as int));
      PostServes(NormalizedAccount(raw, now), d.(account := b), e, ReleaseSeed(op.key), now);
    }
  }

  // ---- maintenance ----

  /**
    The sweep renews an account exactly as looking at it would, unless the subscription was stopped:
    then only the sweep moves the period on.
  */
  lemma MaintenanceRenewsAsLooking(e: Entitlement, now: int)
    ensures Normalized(MaintenanceSource(e, now), now) == Normalized(e, now) <==> e.active || !MaintenanceRenews(e, now)
    ensures e.active ==> MaintenanceSource(e, now) == Renewed(e, now)
  {
    if MaintenanceRenews(e, now) {
      var step := Step(e);
      var k := (now - e.periodStart) / step;
      assert (k + 1) * step == k * step + step;
      assert now - e.periodStart == k * step + (now - e.periodStart) % step;
      assert e.periodStart + (k + 1) * step > now;
    }
  }

  lemma StoppedStaysStopped(e: Entitlement, now: int)
    ensures Normalized(MaintenanceSource(e, now), now).active == e.active
    ensures Normalized(e, now).active == e.active
    ensures InLimits(e) ==> InLimits(MaintenanceSource(e, now))
  {}

  lemma SourceServes(raw: Account, now: int)
    requires AccountInLimits(raw) && Solvent(raw)
    ensures var a, b := NormalizedAccount(raw, now), NormalizedAccount(raw.(own := MaintenanceSource(raw.own, now)), now);
            Serves(a, b, now)
  {
    hide Normalized, MaintenanceSource, MaintenanceRenews, InLimits, AllowanceLeft;
    var source := raw.(own := MaintenanceSource(raw.own, now));
    var a, b := NormalizedAccount(raw, now), NormalizedAccount(source, now);
    MaintenanceRenewsAsLooking(raw.own, now);
    StoppedStaysStopped(raw.own, now);
    forall id: string
      ensures Balance(source, id) == Balance(raw, id)
    {}
    NormalizedIsGood(source, now);
    if DirectCover(a, now) {
      forall id: string
        ensures Held(b.holds, id, now) <= AllowanceLeft(b, id, now) + Balance(b, id)
      {
        assert Held(a.holds, id, now) <= AllowanceLeft(a, id, now) + Balance(a, id);
        AllowanceIsLeft(a, id, now);
        AllowanceIsLeft(b, id, now);
      }
    }
  }

  lemma MaintainServes(account: Option<Account>, receipts: seq<Option<Data>>, now: int)
    requires |receipts| == |ToSweep(Maintain, account, now)|
    requires var raw := account.GetOr(NO_ACCOUNT); AccountInLimits(raw) && Solvent(raw)
    requires DecideMaintain(account, receipts, now).Commit?
    ensures Serves(NormalizedAccount(account.GetOr(NO_ACCOUNT), now), DecideMaintain(account, receipts, now).draft.account, now)
  {
    hide Good, DirectCover, OnGrant, Active, Effective, SettleWindows, Swept, NormalizedAccount, MaintenanceSource, ExpiredReceipts, ToSweep, AccountInLimits, Solvent;
    var raw := account.value;
    SourceServes(raw, now);
    var data := NormalizedAccount(raw.(own := MaintenanceSource(raw.own, now)), now);
    var d := SettleWindows(raw, data, now);
    SettledService(raw, data, now);
    SameServiceIsGood(d.account, data, now);
    SweptIsGood(d, now);
  }

  // ---- serving an entitlement ----

  /** Operations that do not replace the entitlement. */
  predicate Serving(op: Operation) {
    !op.GrantPlan? && !op.ChangePlan?
  }

  /** Charges, reservations, credits and sweeps keep limits, solvency and cover at their instant. */
  lemma ServingKeepsCover(s: Settings, op: Operation, first: Option<Data>, account: Option<Account>, receipts: seq<Option<Data>>, now: int)
    requires Serving(op) && |receipts| == |ToSweep(op, account, now)|
    requires var raw := account.GetOr(NO_ACCOUNT); AccountInLimits(raw) && Solvent(raw)
    requires Decide(s, op, first, account, receipts, now).Commit?
    ensures Serves(NormalizedAccount(account.GetOr(NO_ACCOUNT), now), Decide(s, op, first, account, receipts, now).draft.account, now)
  {
    hide Serves, AccountInLimits, Solvent, DecideConsume, DecideReserve, DecideSettle, DecideRelease, DecideMaintain, Opened, NormalizedAccount, Balance, ToSweep, AnyPlanHas, ValidId;
    var raw := account.GetOr(NO_ACCOUNT);
    match op
    case Consume(requestId, id, credits, kind, source, rateId) =>
      ConsumeServes(s, requestId, id, credits, kind, source, rateId, first, account, now);
    case Record(requestId, id, credits, kind, source, amountMinor, currency) =>
      if credits < 0 {
        ConsumeServes(s, requestId, id, -credits, kind, source, None, first, account, now);
      } else {
        var e := PlainEntry(now, kind, source, credits, Some(id), Some(requestId)).(amountMinor := amountMinor, currency := currency);
        AddServes(raw, id, credits, e, RecordSeed(requestId), now);
      }
    case Reserve(_, _, _, _, _) => ReserveServes(s, op, first, account, receipts, now);
    case Settle(_, _, _) => SettleServes(s, op, first, account, receipts, now);
    case ReleaseHold(_, _) => ReleaseServes(s, op, first, account, receipts, now);
    case Maintain => MaintainServes(account, receipts, now);
    case GrantCredits(requestId, id, credits, amountMinor, currency) =>
      var e := PlainEntry(now, KindGrant, ByAdmin, credits, Some(id), Some(requestId)).(amountMinor := amountMinor, currency := currency);
      AddServes(raw, id, credits, e, GrantSeed(requestId), now);
  }

  function RunFrom(s: Settings, book: Book, calls: seq<Call>): Book
    decreases |calls|
  {
    if calls == [] then book else RunFrom(s, Apply(s, book, calls[0].op, calls[0].now), calls[1..])
  }

  function LastClock(since: int, calls: seq<Call>): int {
    if calls == [] then since else calls[|calls| - 1].now
  }

  /** Clocks do not go back, nothing replaces the entitlement, and it is active whenever it is used. */
  predicate SteadyRun(s: Settings, book: Book, since: int, calls: seq<Call>)
    decreases |calls|
  {
    calls == [] ||
    (&& Serving(calls[0].op)
     && Steady(AccountOf(book), since, calls[0].now)
     && SteadyRun(s, Apply(s, book, calls[0].op, calls[0].now), calls[0].now, calls[1..]))
  }

  ghost predicate InOrder(book: Book, now: int) {
    AccountInLimits(AccountOf(book)) && Solvent(AccountOf(book)) && Covered(AccountOf(book), now)
  }

  lemma SteadyIsForward(raw: Account, t1: int, t2: int)
    requires Steady(raw, t1, t2)
    ensures t1 <= t2
  {}

  lemma StepKeepsCover(s: Settings, book: Book, since: int, call: Call)
    requires InOrder(book, since) && Serving(call.op) && Steady(AccountOf(book), since, call.now)
    ensures InOrder(Apply(s, book, call.op, call.now), call.now)
  {
    hide AccountInLimits, Solvent, Covered, Steady, Decide, Good, DirectCover, SameServing, WithExpired, WithTarget, ToSweep;
    var raw, now := AccountOf(book), call.now;
    SteadyIsForward(raw, since, now);
    TimeKeepsCover(raw, since, now);
    var c := DecideOn(s, book, call.op, now);
    if c.Commit? {
      ServingKeepsCover(s, call.op, RowOf(book, FirstRow(call.op)), book.account, ReceiptsOf(book.rows, ToSweep(call.op, book.account, now)), now);
      CoverIsDirect(raw, now);
      GoodAccount(c.draft.account, now);
      PresentCover(c.draft.account, now);
    }
  }

  lemma CoverIsDirect(raw: Account, now: int)
    requires Covered(raw, now)
    ensures DirectCover(NormalizedAccount(raw, now), now)
  {
    hide Normalized, Held, AllowanceLeft;
  }

  lemma GoodAccount(a: Account, now: int)
    requires Good(a, now)
    ensures AccountInLimits(a) && Solvent(a)
  {}

  /**
    While the entitlement stays active and is not replaced, every hold stays covered, every balance
    stays non-negative and every counter within its limit: after any number of charges,
    reservations, settlements, releases, sweeps and additions, and at any later instant.
  */
  lemma {:induction false} HoldsStayCovered(s: Settings, book: Book, since: int, calls: seq<Call>, later: int)
    requires InOrder(book, since) && SteadyRun(s, book, since, calls)
    requires Steady(AccountOf(RunFrom(s, book, calls)), LastClock(since, calls), later)
    ensures InOrder(RunFrom(s, book, calls), later)
    decreases |calls|
  {
    hide AccountInLimits, Solvent, Covered, Apply, Steady;
    if calls == [] {
      TimeKeepsCover(AccountOf(book), since, later);
    } else {
      StepKeepsCover(s, book, since, calls[0]);
      assert LastClock(calls[0].now, calls[1..]) == LastClock(since, calls);
      HoldsStayCovered(s, Apply(s, book, calls[0].op, calls[0].now), calls[0].now, calls[1..], later);
    }
  }

  /** Without holds there is nothing to cover, so every solvent account is a place to start. */
  lemma NoHoldsAreCovered(book: Book, now: int)
    requires AccountInLimits(AccountOf(book)) && Solvent(AccountOf(book)) && AccountOf(book).holds == []
    ensures InOrder(book, now)
  {
    hide Normalized, AllowanceLeft, AccountInLimits;
    var a := NormalizedAccount(AccountOf(book), now);
    forall id: string
      ensures Balance(a, id) == Balance(AccountOf(book), id) >= 0
    {
      assert Balance(AccountOf(book), id) >= 0;
    }
  }

  // ---- a live hold pays for what it reserved ----

  /** What a receipt reserved is the price of its estimate. */
  ghost predicate ReceiptsPriced(s: Settings, book: Book) {
    forall key: string :: var row := ReceiptRowOf(book.rows, key);
      row.Some? && row.value.ReceiptData? && row.value.receipt.estimate.Some? ==> PricedReceipt(s, row.value.receipt)
  }

  predicate PricedReceipt(s: Settings, r: Receipt) {
    r.estimate.Some? ==> Estimated(s.rates, r.estimate.value.rateId, r.estimate.value.input, r.estimate.value.output) == Quoted(r.credits)
  }

  /** Usage that does not exceed what was reserved: credits, or tokens at the reserved rate. */
  predicate NoMoreThanReserved(r: Receipt, usage: Reported) {
    match usage
    case InCredits(n) => 0 <= n <= r.credits
    case InTokens(input, output) =>
      r.estimate.Some? && 0 <= input <= r.estimate.value.input && 0 <= output <= r.estimate.value.output
  }

  lemma ReservedUsageCostsNoMore(s: Settings, r: Receipt, usage: Reported)
    requires PricedReceipt(s, r) && NoMoreThanReserved(r, usage) && ValidUsage(usage)
    ensures UsedOf(s, r, usage).Sized? && UsedOf(s, r, usage).credits <= r.credits
  {
    hide RateCredits;
    if usage.InTokens? {
      var e := r.estimate.value;
      PricingIsMonotone(FindRate(s.rates, e.rateId).value, usage.input, usage.output, e.input, e.output);
    }
  }

  /** A settlement is paid in full exactly when the usage is spendable once its own hold is gone. */
  lemma SettlementIsPaid(a: Account, id: string, used: nat, now: int)
    ensures var fromAllowance := Min(used, FreeAllowance(a, id, now));
            var fromBalance := Min(used - fromAllowance, FreeBalance(a, id, now));
            fromAllowance + fromBalance == Min(used, Spendable(a, id, now))
  {
    hide Spendable, AllowanceLeft;
  }

  /** The hold of an active, unexpired receipt makes room for all that it reserved. */
  lemma HoldMakesRoom(raw: Account, key: string, now: int)
    requires Covered(raw, now) && AccountInLimits(raw) && Solvent(raw)
    requires FindHold(LiveHolds(raw.holds, now), key).Some?
    ensures var a, h := Dropped(Swept(Opened(raw, now), now).account, key), FindHold(LiveHolds(raw.holds, now), key).value;
            Live(h, now) ==> h.credits <= Spendable(a, h.productId, now)
  {
    hide Opened, Swept, NormalizedAccount, LiveHolds, AllowanceLeft, FindHold, WithoutHold, Good, SameServing, AccountInLimits, Solvent, Held, Covered;
    var d := Swept(Opened(raw, now), now);
    OpenedServes(raw, now);
    OpenedAndSweptHolds(raw, now);
    CoverIsDirect(raw, now);
    var h := FindHold(LiveHolds(raw.holds, now), key).value;
    DroppedFrees(d.account.holds, key, h.productId, now);
    SameLeft(d.account, Dropped(d.account, key), now);
    assert Held(d.account.holds, h.productId, now) <= AllowanceLeft(d.account, h.productId, now) + Balance(d.account, h.productId);
  }

  /**
    A reservation pays for what it reserved: while its hold lives and the account is in order,
    settling it with no more than was reserved is never refused, leaves nothing uncovered, and
    charges exactly the usage.
  */
  lemma SettlingPaysForTheReservation(s: Settings, book: Book, op: Operation, now: int)
    requires op.Settle? && ValidReservationKey(op.key) && ValidUsage(op.usage)
    requires InLifecycle(book) && ReceiptsPriced(s, book) && InOrder(book, now)
    requires var row := ReceiptOf(ReceiptRowOf(book.rows, op.key), op.source);
             && row.Some? && row.value.status == StatusActive && now < row.value.expiresAt
             && NoMoreThanReserved(row.value, op.usage)
    ensures var c, r := DecideOn(s, book, op, now), ReceiptRowOf(book.rows, op.key).value.receipt;
            && c.Commit? && c.target.Some? && c.target.value.ReceiptData?
            && var settled := c.target.value.receipt;
               && settled.settlement.Some?
               && var outcome := settled.settlement.value;
                  && Sized(outcome.used) == UsedOf(s, r, op.usage) && outcome.used <= r.credits
                  && outcome.charged == outcome.used && outcome.uncovered == 0 && !outcome.late
  {
    hide Opened, Swept, NormalizedAccount, LiveHolds, FindHold, WithoutHold, Taken, CapOf, ValidReservationKey, Spendable, FreeAllowance, FreeBalance,
         ExpiredReceipts, ToSweep, UsedOf, Covered, AccountInLimits, Solvent, ApplyTotals, ReceiptsOf, NoMoreThanReserved, ValidUsage, Alive;
    var raw := AccountOf(book);
    var r := ReceiptRowOf(book.rows, op.key).value.receipt;
    assert PricedReceipt(s, r);
    ReservedUsageCostsNoMore(s, r, op.usage);
    HoldOfActive(book, op.key, now);
    OpenedAndSweptHolds(raw, now);
    var h := FindHold(LiveHolds(raw.holds, now), op.key).value;
    HoldMakesRoom(raw, op.key, now);
    var a := Dropped(Swept(Opened(raw, now), now).account, op.key);
    SettlementIsPaid(a, r.productId, UsedOf(s, r, op.usage).credits, now);
  }

  lemma HoldOfActive(book: Book, key: string, now: int)
    requires InLifecycle(book) && IsActive(ReceiptRowOf(book.rows, key)) && now < ReceiptRowOf(book.rows, key).value.receipt.expiresAt
    ensures var h, r := FindHold(LiveHolds(AccountOf(book).holds, now), key), ReceiptRowOf(book.rows, key).value.receipt;
            h.Some? && Live(h.value, now) && h.value.productId == r.productId && h.value.credits == r.credits
  {
    SweepFinds(AccountOf(book).holds, now, key);
    assert HoldTerms(AccountOf(book).holds, key) == ActiveTerms(ReceiptRowOf(book.rows, key));
  }
}
