/**
  The credit account (rt-app/core-go/subscriptions/accounts.go, reservations.go, limits.go): what it
  entitles to now, what a new charge may take, and the statement entries that every change appends.
*/
module Accounts {
  import opened Prelude
  import opened Plans
  import opened Windows
  import opened Rollover

  /** Credits held for a call that has not been settled yet. */
  datatype Hold = Hold(key: string, productId: string, credits: nat, at: int, expiresAt: int, rateId: Option<string>)

  datatype Kind = KindAllowance | KindExpiry | KindUsage | KindGrant | KindPurchase | KindPlan | KindAdjustment | KindReset
                | KindReservation | KindSettlement | KindRelease

  datatype Source = System | ByAdmin | Billing | ByUser | Api

  datatype Details = NoDetails | Expired(unused: nat, skippedWeeks: nat) | Settled(reserved: int, used: int, uncovered: int)

  datatype Entry = Entry(
    at: int, kind: Kind, source: Source, credits: int, productId: Option<string>, requestId: Option<string>,
    amountMinor: int, currency: string, fromAllowance: int, fromBalance: int, held: int, available: Option<int>, details: Details)

  /** What the entry key hashes: seeds differ when what they name differs. */
  datatype Seed = WindowSeed(expiry: bool, window: WindowKey, id: string, start: int, now: int)
                | UsageSeed(key: string) | ReserveSeed(key: string) | SettleSeed(key: string) | ReleaseSeed(key: string)
                | ExpireSeed(key: string) | RecordSeed(key: string) | GrantSeed(key: string) | PlanSeed(key: string)
                | ResetSeed(key: string, id: string)

  /** Running totals of the statement; money per currency. */
  datatype Totals = Totals(creditsIn: int, creditsOut: int, expired: int, paid: map<string, int>, granted: map<string, int>)

  const ZERO_TOTALS := Totals(0, 0, 0, map[], map[])

  datatype Account = Account(
    own: Entitlement, grant: Option<Entitlement>, balances: map<string, int>, holds: seq<Hold>,
    sequence: nat, totals: Totals, windows: Option<WindowState>, consumed: int)

  /** What a missing account row reads as. */
  const NO_ACCOUNT := Account(NO_ENTITLEMENT, None, map[], [], 0, ZERO_TOTALS, None, 0)

  // ---- entitlement ----

  function NormalizedAccount(a: Account, now: int): Account {
    a.(own := Normalized(a.own, now), grant := if a.grant.Some? then Some(Normalized(a.grant.value, now)) else None)
  }

  /** An active grant of the administrator replaces the account's own plan. */
  predicate OnGrant(a: Account, now: int) {
    a.grant.Some? && a.grant.value.active && now < a.grant.value.periodEnd
  }

  function Effective(a: Account, now: int): Entitlement {
    if OnGrant(a, now) then a.grant.value else a.own
  }

  predicate Active(e: Entitlement, now: int) {
    e.plan.Some? && e.active && now < e.periodEnd
  }

  /** What the limits of a product leave in every window of its counter. */
  function Left(p: Product, c: Counter): int {
    var left := Min(Min(p.dailyLimit - c.day, p.weeklyLimit - c.week), p.credits - c.period);
    Max(0, if p.short.Some? then Min(left, p.short.value.limit - c.short) else left)
  }

  /** The plan allowance usable now: the tightest of the windows. */
  function AllowanceLeft(a: Account, id: string, now: int): (left: nat) {
    var e := Effective(a, now);
    if !Active(e, now) then 0
    else
      var p := FindProduct(e.plan.value.products, id);
      if p.None? || id !in e.counters then 0 else Left(p.value, e.counters[id])
  }

  function Balance(a: Account, id: string): int {
    if id in a.balances then a.balances[id] else 0
  }

  predicate Live(h: Hold, now: int) {
    now < h.expiresAt
  }

  /** The credits of the unexpired holds of a product. */
  function Held(holds: seq<Hold>, id: string, now: int): nat {
    if holds == [] then 0
    else
      var h := holds[|holds| - 1];
      Held(holds[..|holds| - 1], id, now) + if h.productId == id && Live(h, now) then h.credits else 0
  }

  /** What a new charge can use: the allowance first, but nothing that a hold needs. */
  function Spendable(a: Account, id: string, now: int): nat {
    Max(0, AllowanceLeft(a, id, now) + Balance(a, id) - Held(a.holds, id, now))
  }

  function FreeAllowance(a: Account, id: string, now: int): nat {
    Min(AllowanceLeft(a, id, now), Spendable(a, id, now))
  }

  function FreeBalance(a: Account, id: string, now: int): nat {
    Spendable(a, id, now) - FreeAllowance(a, id, now)
  }

  // ---- charging ----

  function Charged(p: Product, c: Counter, credits: int): Counter {
    c.(period := c.period + credits, day := c.day + credits, week := c.week + credits,
       short := if p.short.Some? then c.short + credits else c.short)
  }

  /** Counts credits used at a capped rate on every window of the product. */
  function Counted(p: Product, c: Counter, rateId: string, credits: int): Counter {
    var r := if rateId in c.rates then c.rates[rateId] else RateCount(None, 0, 0, 0);
    var short := if p.short.Some? then Some(r.short.GetOr(0) + credits) else r.short;
    c.(rates := c.rates[rateId := RateCount(short, r.day + credits, r.week + credits, r.period + credits)])
  }

  function WithCounter(a: Account, now: int, id: string, c: Counter): Account {
    if OnGrant(a, now) then a.(grant := Some(a.grant.value.(counters := a.grant.value.counters[id := c])))
    else a.(own := a.own.(counters := a.own.counters[id := c]))
  }

  /** Takes credits of the allowance from every window of the product (nothing when there are none). */
  function TakeAllowance(a: Account, id: string, credits: int, now: int): Account {
    var e := Effective(a, now);
    var p := FindProduct(Products(e), id);
    if credits > 0 && id in e.counters then
      WithCounter(a, now, id,
        if p.Some? then Charged(p.value, e.counters[id], credits)
        else var c := e.counters[id]; c.(period := c.period + credits, day := c.day + credits, week := c.week + credits))
    else a
  }

  function CountRate(a: Account, id: string, cap: Option<RateCap>, credits: int, now: int): Account {
    var e := Effective(a, now);
    var p := FindProduct(Products(e), id);
    if cap.Some? && credits > 0 && Active(e, now) && p.Some? && id in e.counters then
      WithCounter(a, now, id, Counted(p.value, e.counters[id], cap.value.rateId, credits))
    else a
  }

  // ---- model caps ----

  function FindPlan(plans: seq<Plan>, id: string): (plan: Option<Plan>)
    ensures plan.Some? ==> plan.value in plans && plan.value.id == id
  {
    if plans == [] then None else if plans[0].id == id then Some(plans[0]) else FindPlan(plans[1..], id)
  }

  function FindCap(caps: seq<RateCap>, rateId: string): Option<RateCap> {
    if caps == [] then None else if caps[0].rateId == rateId then Some(caps[0]) else FindCap(caps[1..], rateId)
  }

  /** Caps are read from the plan as configured now, else from the subscribed one. */
  function CapOf(a: Account, plans: seq<Plan>, id: string, rateId: Option<string>, now: int): Option<RateCap> {
    var e := Effective(a, now);
    if rateId.None? || rateId.value == "" || !Active(e, now) then None
    else
      var live := FindPlan(plans, e.plan.value.id).GetOr(e.plan.value);
      var p := FindProduct(live.products, id);
      if p.None? then None else FindCap(p.value.rateCaps, rateId.value)
  }

  function HeldAtRate(holds: seq<Hold>, id: string, rateId: string, now: int): nat {
    if holds == [] then 0
    else
      var h := holds[|holds| - 1];
      HeldAtRate(holds[..|holds| - 1], id, rateId, now) +
      if h.productId == id && h.rateId == Some(rateId) && Live(h, now) then h.credits else 0
  }

  datatype WindowName = Short | Day | Week | Period

  /** The first window of a cap that a charge would overflow. */
  function Exceeded(a: Account, id: string, cap: RateCap, credits: int, now: int): Option<WindowName> {
    var e := Effective(a, now);
    var p := FindProduct(Products(e), id);
    if !Active(e, now) || p.None? || id !in e.counters then None
    else
      var c := e.counters[id];
      var r := if cap.rateId in c.rates then c.rates[cap.rateId] else RateCount(None, 0, 0, 0);
      var more := HeldAtRate(a.holds, id, cap.rateId, now) + credits;
      if p.value.short.Some? && cap.short.Some? && r.short.GetOr(0) + more > cap.short.value then Some(Short)
      else if cap.day.Some? && r.day + more > cap.day.value then Some(Day)
      else if cap.week.Some? && r.week + more > cap.week.value then Some(Week)
      else if cap.period.Some? && r.period + more > cap.period.value then Some(Period)
      else None
  }

  // ---- statement ----

  function AddMoney(m: map<string, int>, currency: string, amount: int): map<string, int> {
    m[currency := (if currency in m then m[currency] else 0) + amount]
  }

  /** `ApplyTotals`: one entry folded into the running totals. */
  function ApplyTotals(t: Totals, e: Entry): Totals {
    var u := if e.kind == KindExpiry then t.(expired := t.expired - e.credits)
             else if e.credits > 0 then t.(creditsIn := t.creditsIn + e.credits)
             else t.(creditsOut := t.creditsOut - e.credits);
    if e.amountMinor == 0 || e.currency == "" then u
    else if e.kind == KindGrant || e.source == ByAdmin then u.(granted := AddMoney(u.granted, e.currency, e.amountMinor))
    else u.(paid := AddMoney(u.paid, e.currency, e.amountMinor))
  }

  /** An entry with its place in the account's write sequence. */
  datatype Posted = Posted(sequence: nat, entry: Entry, seed: Seed)

  /** An account being changed, with the entries appended so far. */
  datatype Draft = Draft(account: Account, posted: seq<Posted>)

  /** `ledgerEntry`: the next sequence number, what is available now, and the totals. */
  function Post(d: Draft, e: Entry, seed: Seed, now: int): Draft {
    var n := d.account.sequence + 1;
    var full := if e.productId.Some? then e.(available := Some(Spendable(d.account, e.productId.value, now))) else e;
    Draft(d.account.(sequence := n, totals := ApplyTotals(d.account.totals, full)), d.posted + [Posted(n, full, seed)])
  }

  function PlainEntry(at: int, kind: Kind, source: Source, credits: int, productId: Option<string>, requestId: Option<string>): Entry {
    Entry(at, kind, source, credits, productId, requestId, 0, "", 0, 0, 0, None, NoDetails)
  }

  // ---- windows ----

  function CurrentProducts(products: seq<Product>, e: Entitlement): (r: seq<CurrentProduct>)
    ensures |r| == |products|
    ensures forall i :: 0 <= i < |r| ==> r[i].id == products[i].id
  {
    seq(|products|, i requires 0 <= i < |products| =>
      var p := products[i];
      CurrentProduct(p.id, p.weeklyLimit, p.weekSeconds, if p.id in e.counters then e.counters[p.id].weekStart else e.periodStart))
  }

  /** The allowance windows of the active entitlement. */
  function CurrentWindows(a: Account, now: int): Option<CurrentWindow> {
    var e := Effective(a, now);
    if Active(e, now) then
      Some(CurrentWindow(WindowKey(OnGrant(a, now), e.plan.value.id), e.periodStart, Step(e), CurrentProducts(e.plan.value.products, e)))
    else None
  }

  /** The counters the settled windows were drawn from, as stored before this write. */
  function SettledCounters(raw: Account): map<string, Counter> {
    if raw.windows.Some? && raw.windows.value.key.admin then
      if raw.grant.Some? then raw.grant.value.counters else map[]
    else raw.own.counters
  }

  function WindowEntry(p: Pending): Entry {
    match p.details
    case None => PlainEntry(p.at, KindAllowance, System, p.credits, Some(p.productId), None)
    case Some(x) => PlainEntry(p.at, KindExpiry, System, p.credits, Some(p.productId), None).(details := Expired(x.unused, x.skippedWeeks))
  }

  function WindowSeedOf(p: Pending): Seed {
    WindowSeed(p.Expiry(), p.key, p.productId, p.start, p.now)
  }

  function PostWindows(d: Draft, entries: seq<Pending>, now: int): Draft {
    if entries == [] then d
    else
      var last := entries[|entries| - 1];
      Post(PostWindows(d, entries[..|entries| - 1], now), WindowEntry(last), WindowSeedOf(last), now)
  }

  /** `settle`: the windows that closed or opened since `raw` was stored, before any other change. */
  function SettleWindows(raw: Account, data: Account, now: int): Draft {
    var rolled := RolledOver(raw.windows, CurrentWindows(data, now), SettledCounters(raw), now);
    PostWindows(Draft(data.(windows := rolled.state), []), rolled.entries, now)
  }

  /** Where every operation starts: the account as of now, windows settled. */
  function Opened(raw: Account, now: int): Draft {
    SettleWindows(raw, NormalizedAccount(raw, now), now)
  }

  // ---- expired holds ----

  function ExpiredHolds(holds: seq<Hold>, now: int): seq<Hold> {
    if holds == [] then []
    else ExpiredHolds(holds[..|holds| - 1], now) + if Live(holds[|holds| - 1], now) then [] else [holds[|holds| - 1]]
  }

  function LiveHolds(holds: seq<Hold>, now: int): seq<Hold> {
    if holds == [] then []
    else LiveHolds(holds[..|holds| - 1], now) + if Live(holds[|holds| - 1], now) then [holds[|holds| - 1]] else []
  }

  function ExpireEntry(h: Hold): Entry {
    PlainEntry(h.expiresAt, KindRelease, System, 0, Some(h.productId), Some(h.key)).(held := 0 - h.credits)
  }

  function PostExpired(d: Draft, expired: seq<Hold>, now: int): Draft {
    if expired == [] then d
    else
      var h := expired[|expired| - 1];
      Post(PostExpired(d, expired[..|expired| - 1], now), ExpireEntry(h), ExpireSeed(h.key), now)
  }

  /** `sweepHolds`: expired holds leave the account, each with a release entry. */
  function Swept(d: Draft, now: int): Draft {
    PostExpired(d.(account := d.account.(holds := LiveHolds(d.account.holds, now))), ExpiredHolds(d.account.holds, now), now)
  }

  /** The first hold with a key, and the holds without it. */
  function FindHold(holds: seq<Hold>, key: string): Option<Hold> {
    if holds == [] then None else if holds[0].key == key then Some(holds[0]) else FindHold(holds[1..], key)
  }

  function WithoutHold(holds: seq<Hold>, key: string): seq<Hold> {
    if holds == [] then [] else if holds[0].key == key then holds[1..] else [holds[0]] + WithoutHold(holds[1..], key)
  }
}
