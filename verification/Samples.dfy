/**
  Short histories, each a few calls on an account that did not exist before, that show where a
  promise ends: the balance law, the limits, the cover of a hold and the cap of a model.
*/
module Samples {
  import opened Prelude
  import opened Store
  import opened Plans
  import opened Windows
  import opened Rollover
  import opened Conservation
  import opened Accounts
  import opened Pricing
  import opened Operations
  import opened Books
  import opened Lifecycle
  import opened Coverage
  import opened Solvency
  import opened BalanceLaw
  import opened BalancedRuns
  import opened Replacements
  import opened BalancedHistories
  import opened ModelCaps

  /** Ten credits a week of a product, at most five a day on one model; one plan gives only five, one ends after a day. */
  const CAP := RateCap("m", None, Some(5), None, None)
  const CHAT := Product("chat", 10, 10, 10, 86_400, 604_800, None, [CAP])
  const LESS := CHAT.(weeklyLimit := 5)
  const BASIC := Plan("basic", 30, [CHAT])
  const LIGHT := Plan("light", 30, [LESS])
  const TRIAL := Plan("trial", 1, [CHAT])
  const MODEL := CreditRate("m", 1.0, 0.0, 1, None)
  const SETTINGS := Settings(false, None, [BASIC, LIGHT, TRIAL], [MODEL])

  const CHOOSE := Call(ChangePlan("a", "basic"), 0)

  lemma SettingsAreValid()
    ensures ValidSettings(SETTINGS)
    ensures FindPlan(SETTINGS.plans, "basic") == Some(BASIC)
    ensures FindPlan(SETTINGS.plans, "light") == Some(LIGHT)
    ensures FindPlan(SETTINGS.plans, "trial") == Some(TRIAL)
  {
    var plans := SETTINGS.plans;
    assert plans[1..] == [LIGHT, TRIAL] && plans[1..][1..] == [TRIAL];
    assert "basic"[0] == 'b' && "light"[0] == 'l' && "trial"[0] == 't';
    assert FindPlan(plans[1..][1..], "trial") == Some(TRIAL);
    assert FindPlan(plans[1..], "trial") == Some(TRIAL);
  }

  lemma OneProduct(p: Product)
    requires p.id == "chat"
    ensures FindProduct([p], "chat") == Some(p) && ValidPlan(BASIC.(products := [p]))
    ensures forall id: string :: id != "chat" ==> FindProduct([p], id).None?
  {
    assert ProductIds([p])[0] == "chat";
  }

  /** The counter and the window that a plan begins with. */
  const FRESH: map<string, Counter> := map["chat" := FreshCounter(0)]
  const OPEN := [Window("chat", 0, 10, 604_800)]

  lemma FreshLook(e: Entitlement, p: Product, now: int)
    requires e.plan.Some? && e.plan.value.products == [p] && p.id == "chat" && !Renews(e, now)
    ensures Normalized(e, now) == e.(counters := e.counters["chat" := MoveCounter(p, CounterOf(e.counters, "chat", e.periodStart), now)])
  {
    assert [p][..0] == [];
    assert MoveCounters([p][..0], e.counters, e.periodStart, now) == e.counters;
  }

  lemma WindowsOfOne(e: Entitlement, p: Product)
    requires e.plan.Some? && e.plan.value.products == [p] && p.id == "chat" && "chat" in e.counters
    ensures var w := CurrentProduct("chat", p.weeklyLimit, p.weekSeconds, e.counters["chat"].weekStart);
            && CurrentProducts(Products(e), e) == [w]
            && StoredWindows([w]) == [StoredWindow(w)]
  {
    var w := CurrentProduct("chat", p.weeklyLimit, p.weekSeconds, e.counters["chat"].weekStart);
    assert CurrentProducts(Products(e), e) == [w];
    assert [w][..0] == [];
    assert StoredWindows([w][..0]) == [];
  }

  // ---- the plan is chosen ----

  const OWN := Entitlement(Unpaid, true, Some(BASIC), false, 0, 30 * DAY, FRESH)

  lemma Chosen0()
    ensures var book := Run(SETTINGS, [CHOOSE]);
            && DecideOn(SETTINGS, EMPTY_BOOK, CHOOSE.op, 0).Commit?
            && var a := AccountOf(book);
               && book.account.Some? && a.own == OWN && a.grant == None && a.balances == map[] && a.holds == []
               && a.windows == Some(WindowState(WindowKey(false, "basic"), OPEN))
               && book.rows == map[PlanRow("a") := RequestData(CHOOSE.op)]
  {
    hide SettleWindows, ApplyTotals, Spendable, MoveCounters, FindPlan, FindProduct;
    SettingsAreValid();
    assert [CHOOSE][..0] == [];
    assert Run(SETTINGS, [CHOOSE]) == Apply(SETTINGS, EMPTY_BOOK, CHOOSE.op, 0);
    var e := Chosen(NO_ENTITLEMENT, BASIC, 0);
    FreshLook(e, CHAT, 0);
    var data := NormalizedAccount(NO_ACCOUNT.(own := e), 0);
    assert data.own.counters == FRESH;
    SettledService(NO_ACCOUNT, data, 0);
    SettledWindows(NO_ACCOUNT, data, 0);
    WindowsOfOne(data.own, CHAT);
  }

  lemma Beginning()
    ensures ValidSettings(SETTINGS) && Run(SETTINGS, []) == EMPTY_BOOK && LastCommit(SETTINGS, []) == 0
    ensures LeftAt(SETTINGS, AccountOf(Run(SETTINGS, [CHOOSE])), 0) && Balanced(Run(SETTINGS, [CHOOSE]), "chat")
    ensures AlwaysInLimits(SETTINGS, [CHOOSE])
  {
    hide Ordinary, Sound, Tracked, OpenRest, Apply, Decide, AccountInLimits;
    SettingsAreValid();
    Chosen0();
    assert [CHOOSE][..0] == [];
    HistoryIsLeft(SETTINGS, []);
    HistoryIsLeft(SETTINGS, [CHOOSE]);
    assert LastCommit(SETTINGS, [CHOOSE]) == 0;
    CountersStayWithinLimits(SETTINGS, [CHOOSE]);
    FirstBalance();
  }

  lemma FirstBalance()
    ensures Balanced(Run(SETTINGS, [CHOOSE]), "chat")
  {
    hide Ordinary, Balanced, Decide, Settling;
    SettingsAreValid();
    Chosen0();
    assert [CHOOSE][..0] == [];
    assert Run(SETTINGS, [CHOOSE]) == Apply(SETTINGS, EMPTY_BOOK, CHOOSE.op, 0);
    HistoryIsLeft(SETTINGS, []);
    NothingIsBalanced("chat");
    NewPlanUnbalances(SETTINGS, EMPTY_BOOK, 0, CHOOSE, "chat");
  }

  // ---- two idle weeks ----

  const LATER := Call(Record("r", "chat", 1, KindPurchase, System, 0, ""), 15 * DAY)

  lemma IdleLook(raw: Account)
    requires raw.own == OWN && raw.grant == None && raw.windows == Some(WindowState(WindowKey(false, "basic"), OPEN))
    ensures SleptThrough(raw, NormalizedAccount(raw, 15 * DAY), 15 * DAY, "chat")
  {
    hide MoveCounters;
    FreshLook(OWN, CHAT, 15 * DAY);
    var n := Normalized(OWN, 15 * DAY);
    assert n.counters["chat"].weekStart == 14 * DAY;
    WindowsOfOne(n, CHAT);
    assert OPEN[0].id == "chat";
  }

  /** A plan is chosen and nothing happens for two weeks: then any call unbalances the statement. */
  lemma IdleWeeksUnbalance()
    ensures ValidSettings(SETTINGS) && Balanced(Run(SETTINGS, [CHOOSE]), "chat")
    ensures !Balanced(Run(SETTINGS, [CHOOSE, LATER]), "chat")
  {
    hide Ordinary, Balanced, Opened, NormalizedAccount, Post, SleptThrough, Unsettled, LeftAt, FindProduct, Settling;
    Beginning();
    Chosen0();
    var book := Run(SETTINGS, [CHOOSE]);
    assert [CHOOSE, LATER][..1] == [CHOOSE];
    IdleLook(AccountOf(book));
    OneProduct(CHAT);
    OpenedKeepsBalances(AccountOf(book), 15 * DAY);
    assert AnyPlanHas(SETTINGS.plans, "chat") by {
      assert FindProduct(SETTINGS.plans[0].products, "chat").Some?;
    }
    assert DecideOn(SETTINGS, book, LATER.op, 15 * DAY).Commit?;
    assert Settling(SETTINGS, LATER.op, AccountOf(book), 15 * DAY) == NormalizedAccount(AccountOf(book), 15 * DAY) by {
      ServingSettles(AccountOf(book));
    }
    BalancedUnlessDisturbed(SETTINGS, book, 0, LATER, "chat");
  }

  lemma ServingSettles(raw: Account)
    ensures Settling(SETTINGS, LATER.op, raw, 15 * DAY) == NormalizedAccount(raw, 15 * DAY)
  {}

  // ---- a running plan is changed ----

  const USE := Call(Consume("u", "chat", 8, KindUsage, Api, None), 0)
  const CHANGE := Call(ChangePlan("b", "light"), 1)
  const USED: map<string, Counter> := map["chat" := Counter(8, 8, 8, 0, 0, 0, None, map[])]

  /** Looking again at once changes nothing of the account, and there is all the allowance to spend. */
  lemma OpenedAtOnce(raw: Account)
    requires raw.own == OWN && raw.grant == None && raw.balances == map[] && raw.holds == []
    ensures var a := Opened(raw, 0).account;
            && NormalizedAccount(raw, 0) == raw
            && a.own == OWN && a.grant == None && a.balances == map[] && a.holds == [] && a.windows == Some(WindowState(WindowKey(false, "basic"), OPEN))
            && AllowanceLeft(a, "chat", 0) == 10 && FreeAllowance(a, "chat", 0) == 10 && FreeBalance(a, "chat", 0) == 0
  {
    hide SettleWindows, MoveCounters, FindProduct;
    OneProduct(CHAT);
    FreshLook(OWN, CHAT, 0);
    assert Normalized(OWN, 0).counters == FRESH;
    SettledService(raw, raw, 0);
    SettledWindows(raw, raw, 0);
    WindowsOfOne(OWN, CHAT);
    assert Held([], "chat", 0) == 0;
  }

  lemma Used0()
    ensures var book := Run(SETTINGS, [CHOOSE, USE]);
            && DecideOn(SETTINGS, Run(SETTINGS, [CHOOSE]), USE.op, 0).Commit?
            && book.account.Some? && book.rows.Keys == {PlanRow("a"), UsageRow("u")}
            && AccountOf(book).own == OWN.(counters := USED) && AccountOf(book).grant == None
            && AccountOf(book).windows == Some(WindowState(WindowKey(false, "basic"), OPEN))
  {
    hide SettleWindows, Opened, ApplyTotals, Spendable, AllowanceLeft, FreeAllowance, FreeBalance, NormalizedAccount, FindProduct, Normalized;
    Chosen0();
    OneProduct(CHAT);
    var book := Run(SETTINGS, [CHOOSE]);
    OpenedAtOnce(AccountOf(book));
    assert [CHOOSE, USE][..1] == [CHOOSE];
    assert Run(SETTINGS, [CHOOSE, USE]) == Apply(SETTINGS, book, USE.op, 0);
    assert FindProduct(BASIC.products, "chat") == Some(CHAT);
    var a := Opened(AccountOf(book), 0).account;
    var b := Taken(a, "chat", 8, 0, None, 8, 0);
    assert b.own.counters["chat"] == Charged(CHAT, FreshCounter(0), 8);
    assert b.own.counters == USED;
  }

  /** Using a running plan keeps the statement balanced. */
  lemma UsedIsBalanced()
    ensures LeftAt(SETTINGS, AccountOf(Run(SETTINGS, [CHOOSE, USE])), 0) && Balanced(Run(SETTINGS, [CHOOSE, USE]), "chat")
  {
    hide Ordinary, Balanced, Decide, Sound, Tracked, Apply;
    Beginning();
    Chosen0();
    Used0();
    var book := Run(SETTINGS, [CHOOSE]);
    assert [CHOOSE, USE][..1] == [CHOOSE];
    assert Run(SETTINGS, [CHOOSE, USE]) == Apply(SETTINGS, book, USE.op, 0);
    HistoryIsLeft(SETTINGS, [CHOOSE, USE]);
    assert LastCommit(SETTINGS, [CHOOSE, USE]) == 0;
    BalancedUnlessDisturbed(SETTINGS, book, 0, USE, "chat");
    SameLook(AccountOf(book));
  }

  /** A look at the moment of the last one disturbs nothing. */
  lemma SameLook(raw: Account)
    requires raw.own == OWN && raw.grant == None && raw.balances == map[] && raw.holds == []
    requires raw.windows == Some(WindowState(WindowKey(false, "basic"), OPEN))
    ensures Settling(SETTINGS, USE.op, raw, 0) == raw && !Disturbs(raw, raw, 0, "chat")
  {
    hide NormalizedAccount, FindProduct;
    OneProduct(CHAT);
    OpenedAtOnce(raw);
    WindowsOfOne(OWN, CHAT);
    assert OPEN[0].id == "chat";
    assert UsedIn(raw, "chat") == 0;
    assert Kept(raw.windows, CurrentWindows(raw, 0), "chat");
  }

  /** Eight credits of ten are used, and a plan that gives five a week goes on with them. */
  lemma ChangedPlanExceedsAndUnbalances()
    ensures ValidSettings(SETTINGS) && Balanced(Run(SETTINGS, [CHOOSE, USE]), "chat") && AlwaysInLimits(SETTINGS, [CHOOSE, USE])
    ensures var book := Run(SETTINGS, [CHOOSE, USE, CHANGE]); !Balanced(book, "chat") && !AccountInLimits(AccountOf(book))
  {
    hide LeftAt, Balanced, Decide, Apply, AccountInLimits, UsedIn, OpenRest, Open, AlwaysInLimits, FindPlan, CarriedFits, CarriedWeek, ToSweep, ValidSettings, Solvent;
    SettingsAreValid();
    Used0();
    UsedIsBalanced();
    UseKeepsLimits();
    var calls := [CHOOSE, USE];
    var book := Run(SETTINGS, calls);
    assert [CHOOSE, USE, CHANGE][..2] == calls;
    assert Run(SETTINGS, [CHOOSE, USE, CHANGE]) == Apply(SETTINGS, book, CHANGE.op, 1);
    ChangeCommits();
    CarriedEight();
    WindowUse(AccountOf(book));
    ChangedPlanUnbalances(SETTINGS, book, 0, CHANGE, "chat");
    DecisionKeepsLimits(SETTINGS, CHANGE.op, RowOf(book, FirstRow(CHANGE.op)), book.account, ReceiptsOf(book.rows, ToSweep(CHANGE.op, book.account, 1)), 1);
    CommittedAccount(book, CHANGE);
  }

  lemma ChangeCommits()
    ensures DecideOn(SETTINGS, Run(SETTINGS, [CHOOSE, USE]), CHANGE.op, 1).Commit?
  {
    hide SettleWindows, NormalizedAccount, ApplyTotals, Spendable, FindPlan, Apply;
    SettingsAreValid();
    Used0();
    assert PlanRow("b") !in Run(SETTINGS, [CHOOSE, USE]).rows.Keys;
    assert "basic"[0] != "light"[0];
  }

  lemma CarriedEight()
    ensures CarriedWeek(LIGHT, USED, "chat", 1) == 8 && !CarriedFits(LIGHT, USED, 1)
  {
    hide FindProduct;
    OneProduct(LESS);
    assert MoveCounter(LESS, USED["chat"], 1).week == 8;
    assert "chat" in USED;
  }

  lemma WindowUse(raw: Account)
    requires raw.own.counters == USED && raw.windows == Some(WindowState(WindowKey(false, "basic"), OPEN))
    ensures UsedIn(raw, "chat") == 8 && Open(raw.windows, "chat") == 10
  {
    assert OPEN[0].id == "chat";
  }

  lemma UseKeepsLimits()
    ensures AlwaysInLimits(SETTINGS, [CHOOSE, USE]) && AccountInLimits(AccountOf(Run(SETTINGS, [CHOOSE, USE]))) && Solvent(AccountOf(Run(SETTINGS, [CHOOSE, USE])))
  {
    hide AccountInLimits, Solvent, DecideOn, CarriedFits, Apply;
    SettingsAreValid();
    assert [CHOOSE, USE][..1] == [CHOOSE];
    assert [CHOOSE][..0] == [];
    assert CarryOversFit(SETTINGS, [CHOOSE]);
    assert CarryOversFit(SETTINGS, [CHOOSE, USE]);
    CountersStayWithinLimits(SETTINGS, [CHOOSE, USE]);
    HistoryIsSolvent(SETTINGS, [CHOOSE, USE]);
  }

  // ---- a plan ends ----

  const ASSIGN := Call(GrantPlan("g", "trial", 0, ""), 0)
  const HOLD := Call(Reserve("h", "chat", Fixed(5), Some(86_400_000), Api), 1)
  const GRANT := Entitlement(Admin, true, Some(TRIAL), false, 0, DAY, FRESH)
  const HELD := Hold("h", "chat", 5, 1, DAY + 1, None)

  lemma NothingOwn(now: int)
    ensures Normalized(NO_ENTITLEMENT, now) == NO_ENTITLEMENT
  {}

  lemma Assigned0()
    ensures var book := Run(SETTINGS, [ASSIGN]);
            && DecideOn(SETTINGS, EMPTY_BOOK, ASSIGN.op, 0).Commit? && book.account.Some? && book.rows.Keys == {GrantRow("g")}
            && var a := AccountOf(book);
               a.own == NO_ENTITLEMENT && a.grant == Some(GRANT) && a.balances == map[] && a.holds == []
  {
    hide SettleWindows, ApplyTotals, Spendable, Normalized, FindPlan, FindProduct;
    SettingsAreValid();
    assert [ASSIGN][..0] == [];
    assert Run(SETTINGS, [ASSIGN]) == Apply(SETTINGS, EMPTY_BOOK, ASSIGN.op, 0);
    var e := AssignedPlan(TRIAL, 0);
    FreshLook(e, CHAT, 0);
    NothingOwn(0);
    assert MoveCounter(CHAT, FreshCounter(0), 0) == FreshCounter(0);
    assert Normalized(e, 0) == GRANT;
    var data := NormalizedAccount(NO_ACCOUNT, 0).(grant := Some(Normalized(e, 0)));
    SettledService(NO_ACCOUNT, data, 0);
  }

  /** The assigned plan a moment later: ten credits are left. */
  lemma AssignedLook(raw: Account)
    requires raw.own == NO_ENTITLEMENT && raw.grant == Some(GRANT) && raw.balances == map[]
    ensures NormalizedAccount(raw, 1) == raw && AllowanceLeft(raw, "chat", 1) == 10
    ensures Active(Effective(raw, 1), 1) && FindProduct(Products(Effective(raw, 1)), "chat").Some?
    ensures var a := NormalizedAccount(raw, DAY); !Active(Effective(a, DAY), DAY)
  {
    hide FindProduct;
    OneProduct(CHAT);
    FreshLook(GRANT, CHAT, 1);
    FreshLook(GRANT, CHAT, DAY);
    NothingOwn(1);
    NothingOwn(DAY);
    assert MoveCounter(CHAT, FreshCounter(0), 1) == FreshCounter(0);
    assert Normalized(GRANT, 1).counters == FRESH;
    assert FRESH["chat"] == FreshCounter(0);
  }

  /** What a reservation on the assigned plan finds. */
  lemma AssignedRoom(raw: Account)
    requires raw.own == NO_ENTITLEMENT && raw.grant == Some(GRANT) && raw.balances == map[] && raw.holds == []
    ensures var d := Swept(Opened(raw, 1), 1);
            && d.account.own == raw.own && d.account.grant == raw.grant && d.account.balances == map[] && d.account.holds == []
            && Spendable(d.account, "chat", 1) == 10
            && Blocked(SETTINGS, NormalizedAccount(raw, 1), "chat", 1) == None
  {
    hide SettleWindows, NormalizedAccount, AllowanceLeft, Active, Effective, FindProduct, PostExpired;
    AssignedLook(raw);
    SettledService(raw, raw, 1);
    var d := Opened(raw, 1);
    SweptNothing(d);
    SameLeft(d.account, raw, 1);
    assert Held([], "chat", 1) == 0;
  }

  lemma HoldIsTaken(account: Option<Account>)
    requires account.Some? && account.value.own == NO_ENTITLEMENT && account.value.grant == Some(GRANT) && account.value.balances == map[] && account.value.holds == []
    ensures ToSweep(HOLD.op, account, 1) == []
    ensures var c := DecideReserve(SETTINGS, HOLD.op, None, account, [], 1);
            && c.Commit? && c.draft.account.own == NO_ENTITLEMENT && c.draft.account.grant == Some(GRANT)
            && c.draft.account.balances == map[] && c.draft.account.holds == [HELD]
  {
    hide Opened, Swept, NormalizedAccount, Spendable, Blocked, ApplyTotals, Active, Effective;
    AssignedRoom(account.value);
    assert ExpiredHolds([], 1) == [];
  }

  lemma Held1()
    ensures var a := AccountOf(Run(SETTINGS, [ASSIGN, HOLD]));
            a.own == NO_ENTITLEMENT && a.grant == Some(GRANT) && a.balances == map[] && a.holds == [HELD]
  {
    hide DecideReserve, WithTarget, WithExpired, ToSweep;
    Assigned0();
    var book := Run(SETTINGS, [ASSIGN]);
    assert [ASSIGN, HOLD][..1] == [ASSIGN];
    assert Run(SETTINGS, [ASSIGN, HOLD]) == Apply(SETTINGS, book, HOLD.op, 1);
    assert ReservationRow("h") !in book.rows.Keys;
    HoldIsTaken(book.account);
    assert ReceiptsOf(book.rows, []) == [];
    assert DecideOn(SETTINGS, book, HOLD.op, 1) == DecideReserve(SETTINGS, HOLD.op, None, book.account, [], 1);
  }

  lemma SweptNothing(d: Draft)
    requires d.account.holds == []
    ensures Swept(d, 1) == d
  {}

  /** Half of a day's allowance is held; when the day and the plan end, nothing covers the hold any more. */
  lemma CoverEndsWithThePlan()
    ensures var raw := AccountOf(Run(SETTINGS, [ASSIGN, HOLD]));
            ValidSettings(SETTINGS) && Covered(raw, 1) && !Covered(raw, DAY)
  {
    hide NormalizedAccount, AllowanceLeft, Held, Active, Effective, Apply;
    SettingsAreValid();
    Held1();
    var raw := AccountOf(Run(SETTINGS, [ASSIGN, HOLD]));
    AssignedLook(raw);
    forall id: string
      ensures Held(raw.holds, id, 1) <= AllowanceLeft(raw, id, 1) + Balance(raw, id)
    {
      HeldOfOne(HELD, id, 1);
    }
    HeldOfOne(HELD, "chat", DAY);
    CoverWithoutAPlan(raw, DAY);
    assert Held(raw.holds, "chat", DAY) > Balance(raw, "chat");
  }

  // ---- a settlement reports more than it reserved ----

  const PRICED := Call(Reserve("h", "chat", Priced(Estimate("m", 1000, 0)), None, Api), 0)
  const OVER := Call(Settle("h", InCredits(8), Api), 0)
  const ONE := Hold("h", "chat", 1, 0, 900_000, Some("m"))
  const RECEIPT := Receipt("chat", 1, 0, 900_000, StatusActive, Api, Some(Estimate("m", 1000, 0)), None, None)

  lemma OneCredit()
    ensures AmountOf(SETTINGS, Priced(Estimate("m", 1000, 0))) == Sized(1)
  {
    assert Exact(MODEL, 1000, 0) == 1.0;
    assert Round(1000000.0) == 1000000;
    assert Ceil(1.0) == 1;
  }

  /** The one cap of the plan applies to its model alone. */
  lemma OneCap(a: Account, id: string, rateId: string)
    requires a.own.(counters := FRESH) == OWN && a.grant == None
    ensures CapOf(a, SETTINGS.plans, id, Some(rateId), 0) == if id == "chat" && rateId == "m" then Some(CAP) else None
  {
    hide FindProduct, FindPlan;
    SettingsAreValid();
    OneProduct(CHAT);
    var caps := [CAP];
    assert FindCap(caps[1..], rateId) == None;
    assert FindCap(caps, rateId) == if rateId == "m" then Some(CAP) else None;
    assert |"m"| == 1 && |""| == 0;
    assert FindProduct(BASIC.products, "chat") == Some(CHAT) && BASIC.products == [CHAT];
    assert a.own.plan == Some(BASIC) && Active(Effective(a, 0), 0);
  }

  lemma FewKeepTheCap(a: Account)
    requires a.own == OWN && a.grant == None && HeldAtRate(a.holds, "chat", "m", 0) <= 5
    ensures CapsKept(SETTINGS.plans, a, 0)
  {
    hide FindProduct, CapOf, HeldAtRate;
    OneProduct(CHAT);
    forall id: string, rateId: string
      ensures var cap := CapOf(a, SETTINGS.plans, id, Some(rateId), 0);
              cap.Some? ==> HasRoom(a, id, cap.value, 0, 0) && CountsRate(a, id, rateId, 0)
    {
      OneCap(a, id, rateId);
    }
  }

  lemma HoldIsPriced(account: Option<Account>)
    requires account.Some? && account.value.own == OWN && account.value.grant == None && account.value.balances == map[] && account.value.holds == []
    ensures ToSweep(PRICED.op, account, 0) == []
    ensures var c := DecideReserve(SETTINGS, PRICED.op, None, account, [], 0);
            && c.Commit? && c.draft.account.own == OWN && c.draft.account.grant == None && c.draft.account.holds == [ONE]
            && c.target == Some(ReceiptData(RECEIPT)) && c.expired == []
  {
    hide Opened, Swept, NormalizedAccount, Spendable, ApplyTotals, CapOf, Exceeded, AmountOf, FindProduct;
    var raw := account.value;
    OneCredit();
    OneProduct(CHAT);
    OpenedAtOnce(raw);
    var d := Opened(raw, 0);
    SweptNothingNow(d);
    OneCap(d.account, "chat", "m");
    RoomForOne(d.account);
    assert ExpiredHolds([], 0) == [];
  }

  lemma SweptNothingNow(d: Draft)
    requires d.account.holds == []
    ensures Swept(d, 0) == d
  {}

  lemma RoomForOne(a: Account)
    requires a.own == OWN && a.grant == None && a.balances == map[] && a.holds == [] && AllowanceLeft(a, "chat", 0) == 10
    ensures Exceeded(a, "chat", CAP, 1, 0).None? && Spendable(a, "chat", 0) == 10
  {
    hide AllowanceLeft;
    assert HeldAtRate([], "chat", "m", 0) == 0 && Held([], "chat", 0) == 0;
  }

  lemma Priced0()
    ensures var book := Run(SETTINGS, [CHOOSE, PRICED]);
            && AccountOf(book).own == OWN && AccountOf(book).grant == None && AccountOf(book).holds == [ONE] && book.account.Some?
            && Lookup(book.rows, ReservationRow("h")) == Some(ReceiptData(RECEIPT))
  {
    hide DecideReserve, ToSweep;
    Chosen0();
    var book := Run(SETTINGS, [CHOOSE]);
    assert [CHOOSE, PRICED][..1] == [CHOOSE];
    assert Run(SETTINGS, [CHOOSE, PRICED]) == Apply(SETTINGS, book, PRICED.op, 0);
    assert ReservationRow("h") !in book.rows.Keys;
    HoldIsPriced(book.account);
    assert ReceiptsOf(book.rows, []) == [];
    assert DecideOn(SETTINGS, book, PRICED.op, 0) == DecideReserve(SETTINGS, PRICED.op, None, book.account, [], 0);
  }

  lemma OverIsSettled(account: Option<Account>)
    requires account.Some? && account.value.own == OWN && account.value.grant == None && account.value.holds == [ONE]
    ensures ToSweep(OVER.op, account, 0) == []
    ensures DecideSettle(SETTINGS, OVER.op, Some(ReceiptData(RECEIPT)), account, [], 0).Commit?
    ensures !SettlementFits(SETTINGS, RECEIPT, account.value, "h", 8, 0)
  {
    hide Opened, Swept, NormalizedAccount, ApplyTotals, CapOf, Taken, Post, FreeAllowance, FreeBalance, HeldAtRate, FindProduct;
    var raw := account.value;
    OneProduct(CHAT);
    assert [ONE][..0] == [];
    assert ExpiredHolds([ONE][..0], 0) == [];
    FreshLook(OWN, CHAT, 0);
    assert MoveCounter(CHAT, FreshCounter(0), 0) == FreshCounter(0);
    assert Normalized(OWN, 0).counters == FRESH;
    OpenedAndSweptHolds(raw, 0);
    LookKeepsOwn(raw);
    var a := Unheld(raw, "h", 0);
    assert a.own == OWN && a.grant == None;
    OneCap(a, "chat", "m");
  }

  lemma LookKeepsOwn(raw: Account)
    requires raw.own == OWN && raw.grant == None && Normalized(OWN, 0) == OWN
    ensures var a := Swept(Opened(raw, 0), 0).account; a.own == OWN && a.grant == None
  {
    hide SettleWindows, Normalized, PostExpired, LiveHolds, ExpiredHolds;
    var data := NormalizedAccount(raw, 0);
    SettledService(raw, data, 0);
    var d := Opened(raw, 0);
    PostExpiredService(d.(account := d.account.(holds := LiveHolds(d.account.holds, 0))), ExpiredHolds(d.account.holds, 0), 0);
  }

  lemma PricedIsCapped()
    ensures var raw := AccountOf(Run(SETTINGS, [CHOOSE, PRICED])); CapsKept(SETTINGS.plans, raw, 0) && CapsKept(SETTINGS.plans, NormalizedAccount(raw, 0), 0)
  {
    hide CapsKept, HeldAtRate, NormalizedAccount, Run;
    Priced0();
    var raw := AccountOf(Run(SETTINGS, [CHOOSE, PRICED]));
    HeldAtRateOfOne(ONE, "chat", "m", 0);
    FewKeepTheCap(raw);
    OwnLook(raw);
    FewKeepTheCap(NormalizedAccount(raw, 0));
  }

  lemma OverIsDecided(book: Book)
    requires book.account.Some? && ToSweep(OVER.op, book.account, 0) == []
    requires Lookup(book.rows, ReservationRow("h")) == Some(ReceiptData(RECEIPT))
    ensures DecideOn(SETTINGS, book, OVER.op, 0) == DecideSettle(SETTINGS, OVER.op, Some(ReceiptData(RECEIPT)), book.account, [], 0)
  {
    hide DecideSettle, ToSweep;
    assert ReceiptsOf(book.rows, []) == [];
  }

  lemma CommittedAccount(book: Book, call: Call)
    requires DecideOn(SETTINGS, book, call.op, call.now).Commit?
    ensures AccountOf(Apply(SETTINGS, book, call.op, call.now)) == DecideOn(SETTINGS, book, call.op, call.now).draft.account
  {
    hide Decide, ToSweep, WithTarget, WithExpired;
  }

  /** One credit is reserved on a model capped at five; the settlement reports eight, which are counted. */
  lemma SettlementOverrunsTheCap()
    ensures CapsKept(SETTINGS.plans, AccountOf(Run(SETTINGS, [CHOOSE, PRICED])), 0)
    ensures !CapsKept(SETTINGS.plans, AccountOf(Run(SETTINGS, [CHOOSE, PRICED, OVER])), 0)
  {
    hide DecideSettle, DecideOn, Apply, ToSweep, CapsKept, SettlementFits, NormalizedAccount;
    Priced0();
    PricedIsCapped();
    var calls := [CHOOSE, PRICED];
    var book := Run(SETTINGS, calls);
    assert [CHOOSE, PRICED, OVER][..2] == calls;
    assert Run(SETTINGS, [CHOOSE, PRICED, OVER]) == Apply(SETTINGS, book, OVER.op, 0);
    OverIsSettled(book.account);
    OverIsDecided(book);
    CommittedAccount(book, OVER);
    SettlementKeepsCapsIfItFits(SETTINGS, OVER.op, Some(ReceiptData(RECEIPT)), book.account, [], 0);
  }

  lemma OwnLook(raw: Account)
    requires raw.own == OWN && raw.grant == None
    ensures var a := NormalizedAccount(raw, 0); a.own == OWN && a.grant == None && a.holds == raw.holds
  {
    FreshLook(OWN, CHAT, 0);
    assert MoveCounter(CHAT, FreshCounter(0), 0) == FreshCounter(0);
    assert Normalized(OWN, 0).counters == FRESH;
  }
}
