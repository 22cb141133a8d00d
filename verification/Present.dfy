/**
  What an account offers at one moment, in plain terms: which plan serves, how much of its allowance
  every window leaves, what is held, which cap applies, and what a charge does to the counters. The
  functions that the operations compute with are shown to mean exactly this.
*/
module Present {
  import opened Prelude
  import opened Plans
  import opened Windows
  import opened Accounts
  import opened Operations
  import opened Lifecycle
  import opened Coverage
  import opened ModelCaps

  // ---- which plan serves ----

  predicate Running(e: Entitlement, now: int) {
    e.plan.Some? && e.active && now < e.periodEnd
  }

  /** The administrator's assignment while it runs, else the account's own plan, each brought to the present. */
  function Serving(raw: Account, now: int): Entitlement {
    if raw.grant.Some? && Normalized(raw.grant.value, now).active && now < Normalized(raw.grant.value, now).periodEnd
    then Normalized(raw.grant.value, now)
    else Normalized(raw.own, now)
  }

  lemma AssignmentServesFirst(raw: Account, now: int)
    ensures var a := NormalizedAccount(raw, now);
            && Effective(a, now) == Serving(raw, now)
            && a.own == Normalized(raw.own, now)
            && a.grant == (if raw.grant.Some? then Some(Normalized(raw.grant.value, now)) else None)
            && a == raw.(own := a.own, grant := a.grant)
  {
    hide Normalized;
  }

  // ---- the allowance ----

  /** Every window of the product has room for n more credits. */
  predicate WindowsHaveRoom(p: Product, c: Counter, n: int) {
    && c.day + n <= p.dailyLimit && c.week + n <= p.weeklyLimit && c.period + n <= p.credits
    && (p.short.Some? ==> c.short + n <= p.short.value.limit)
  }

  predicate AllowanceCovers(raw: Account, id: string, n: int, now: int) {
    var e := Serving(raw, now);
    var p := FindProduct(Products(e), id);
    Running(e, now) && p.Some? && id in e.counters && WindowsHaveRoom(p.value, e.counters[id], n)
  }

  /** The allowance left is the largest number of credits that the running plan has room for in every window. */
  lemma AllowanceIsTheTightestWindow(raw: Account, id: string, n: int, now: int)
    requires n > 0
    ensures n <= AllowanceLeft(NormalizedAccount(raw, now), id, now) <==> AllowanceCovers(raw, id, n, now)
  {
    hide Normalized;
    AssignmentServesFirst(raw, now);
  }

  // ---- what is held ----

  function LiveCredits(id: string, now: int): Hold -> int {
    (h: Hold) => if h.productId == id && now < h.expiresAt then h.credits else 0
  }

  /** Live credits at a rate; the holds of other keys only. */
  function LiveCreditsAtRate(id: string, rateId: string, now: int): Hold -> int {
    (h: Hold) => if h.productId == id && h.rateId == Some(rateId) && now < h.expiresAt then h.credits else 0
  }

  function OthersLiveCredits(id: string, key: string, now: int): Hold -> int {
    (h: Hold) => if h.productId == id && h.key != key && now < h.expiresAt then h.credits else 0
  }

  lemma {:induction false} HeldIsTheSum(holds: seq<Hold>, id: string, now: int)
    ensures Held(holds, id, now) == Total(holds, LiveCredits(id, now))
  {
    if holds != [] {
      HeldIsTheSum(holds[..|holds| - 1], id, now);
    }
  }

  lemma {:induction false} HeldAtRateIsTheSum(holds: seq<Hold>, id: string, rateId: string, now: int)
    ensures HeldAtRate(holds, id, rateId, now) == Total(holds, LiveCreditsAtRate(id, rateId, now))
  {
    if holds != [] {
      HeldAtRateIsTheSum(holds[..|holds| - 1], id, rateId, now);
    }
  }

  lemma {:induction false} OthersAreTheRest(holds: seq<Hold>, id: string, key: string, now: int)
    requires DistinctHolds(holds)
    ensures var h := FindHold(holds, key);
            Total(holds, OthersLiveCredits(id, key, now)) ==
            Held(holds, id, now) - if h.Some? && h.value.productId == id && Live(h.value, now) then h.value.credits else 0
  {
    if holds != [] {
      var front, last := holds[..|holds| - 1], holds[|holds| - 1];
      assert holds == front + [last];
      OthersAreTheRest(front, id, key, now);
      FindInConcatenation(front, [last], key);
      FoundHold(front, key);
    }
  }

  /** Without the hold of a key, what is held is what the others hold. */
  lemma OthersHold(holds: seq<Hold>, id: string, key: string, now: int)
    requires DistinctHolds(holds)
    ensures Held(WithoutHold(LiveHolds(holds, now), key), id, now) == Total(holds, OthersLiveCredits(id, key, now))
  {
    hide Held;
    DroppedFrees(LiveHolds(holds, now), key, id, now);
    LiveHoldsAreHeld(holds, id, now);
    SweepFinds(holds, now, key);
    OthersAreTheRest(holds, id, key, now);
  }

  // ---- what may be charged ----

  /** The allowance and the additional credits, less what is held for other calls. */
  function Available(raw: Account, id: string, held: int, now: int): int {
    Max(0, AllowanceLeft(NormalizedAccount(raw, now), id, now) + Lookup(raw.balances, id).GetOr(0) - held)
  }

  // ---- caps ----

  /** The plan as the settings have it now, or the subscribed one when they no longer have it. */
  predicate AsConfigured(plans: seq<Plan>, subscribed: Plan, plan: Plan) {
    if exists i :: 0 <= i < |plans| && plans[i].id == subscribed.id
    then plan in plans && plan.id == subscribed.id
    else plan == subscribed
  }

  lemma {:induction false} PlanIsConfigured(plans: seq<Plan>, subscribed: Plan)
    ensures AsConfigured(plans, subscribed, FindPlan(plans, subscribed.id).GetOr(subscribed))
    ensures FindPlan(plans, subscribed.id).None? <==> forall i :: 0 <= i < |plans| ==> plans[i].id != subscribed.id
  {
    if plans != [] && plans[0].id != subscribed.id {
      PlanIsConfigured(plans[1..], subscribed);
      assert plans == [plans[0]] + plans[1..];
    }
  }

  lemma {:induction false} FirstCapIsFound(caps: seq<RateCap>, rateId: string)
    ensures var cap := FindCap(caps, rateId);
            && (cap.Some? ==> cap.value in caps && cap.value.rateId == rateId)
            && (cap.None? ==> forall c :: c in caps ==> c.rateId != rateId)
  {
    if caps != [] {
      FirstCapIsFound(caps[1..], rateId);
      assert caps == [caps[0]] + caps[1..];
    }
  }

  /** A rate is capped as the configured plan caps it for the product, and not without a running plan. */
  lemma CapIsConfigured(a: Account, plans: seq<Plan>, id: string, rateId: Option<string>, now: int) returns (plan: Option<Plan>)
    ensures var e, cap := Effective(a, now), CapOf(a, plans, id, rateId, now);
            && (plan.Some? <==> rateId.Some? && rateId.value != "" && Running(e, now))
            && (plan.None? ==> cap.None?)
            && (plan.Some? ==>
                  && AsConfigured(plans, e.plan.value, plan.value)
                  && var p := FindProduct(plan.value.products, id);
                     && (cap.Some? ==> p.Some? && cap.value in p.value.rateCaps && cap.value.rateId == rateId.value)
                     && (cap.None? && p.Some? ==> forall c :: c in p.value.rateCaps ==> c.rateId != rateId.value))
  {
    var e := Effective(a, now);
    plan := None;
    if rateId.Some? && rateId.value != "" && Running(e, now) {
      plan := Some(FindPlan(plans, e.plan.value.id).GetOr(e.plan.value));
      PlanIsConfigured(plans, e.plan.value);
      var p := FindProduct(plan.value.products, id);
      if p.Some? {
        FirstCapIsFound(p.value.rateCaps, rateId.value);
      }
    }
  }

  /** What a cap allows in a window of a product. */
  function CapIn(p: Product, cap: RateCap, w: WindowName): Option<nat> {
    match w
    case Short => if p.short.Some? then cap.short else None
    case Day => cap.day
    case Week => cap.week
    case Period => cap.period
  }

  function UsedIn(r: RateCount, w: WindowName): int {
    match w
    case Short => r.short.GetOr(0)
    case Day => r.day
    case Week => r.week
    case Period => r.period
  }

  function Rank(w: WindowName): nat {
    match w
    case Short => 0
    case Day => 1
    case Week => 2
    case Period => 3
  }

  /** A window in which what was used, what is held and n more credits at the rate exceed the cap. */
  predicate Overflows(a: Account, p: Product, c: Counter, cap: RateCap, w: WindowName, n: int, now: int) {
    var limit := CapIn(p, cap, w);
    limit.Some? && UsedIn(RateUsed(c, cap.rateId), w) + Total(a.holds, LiveCreditsAtRate(p.id, cap.rateId, now)) + n > limit.value
  }

  /** A cap refuses for the first window, the shortest first, that would overflow, and for no other reason. */
  lemma CapNamesTheFirstWindow(a: Account, id: string, cap: RateCap, n: int, now: int)
    requires Running(Effective(a, now), now) && id in Effective(a, now).counters && FindProduct(Products(Effective(a, now)), id).Some?
    ensures var e, w := Effective(a, now), Exceeded(a, id, cap, n, now);
            var p, c := FindProduct(Products(e), id).value, e.counters[id];
            && (w.Some? ==> Overflows(a, p, c, cap, w.value, n, now) && forall v :: Rank(v) < Rank(w.value) ==> !Overflows(a, p, c, cap, v, n, now))
            && (w.None? ==> forall v :: !Overflows(a, p, c, cap, v, n, now))
  {
    hide HeldAtRate;
    HeldAtRateIsTheSum(a.holds, id, cap.rateId, now);
  }

  function LimitIn(p: Product, w: WindowName): Option<int> {
    match w
    case Short => if p.short.Some? then Some(p.short.value.limit) else None
    case Day => Some(p.dailyLimit)
    case Week => Some(p.weeklyLimit)
    case Period => Some(p.credits)
  }

  function CountIn(c: Counter, w: WindowName): int {
    match w
    case Short => c.short
    case Day => c.day
    case Week => c.week
    case Period => c.period
  }

  predicate IsFull(p: Product, c: Counter, w: WindowName) {
    LimitIn(p, w).Some? && CountIn(c, w) >= LimitIn(p, w).value
  }

  /** A refused charge names the first full window, and the period when no shorter one is full. */
  lemma FullWindowIsTheFirst(a: Account, id: string, now: int)
    requires id in Effective(a, now).counters && FindProduct(Products(Effective(a, now)), id).Some?
    ensures var p, c, w := FindProduct(Products(Effective(a, now)), id).value, Effective(a, now).counters[id], FullWindow(a, id, now);
            (w == Period || IsFull(p, c, w)) && forall v :: Rank(v) < Rank(w) ==> !IsFull(p, c, v)
  {}

  // ---- what a charge does ----

  /** A counter with n more credits used in every window, m of them counted at a rate. */
  function WithUse(p: Product, c: Counter, n: int, rateId: Option<string>, m: int): Counter {
    Counter(c.period + n, c.day + n, c.week + n, if p.short.Some? then c.short + n else c.short, c.dayStart, c.weekStart, c.shortStart,
            match rateId
            case None => c.rates
            case Some(r) => c.rates[r := var u := RateUsed(c, r);
                                         RateCount(if p.short.Some? then Some(u.short.GetOr(0) + m) else u.short, u.day + m, u.week + m, u.period + m)])
  }

  /**
    A charge: the plan that serves counts what it pays in every window of the product, and all that was
    used at a capped rate; the rest leaves the additional credits. Nothing else changes.
  */
  ghost predicate IsCharged(a: Account, b: Account, id: string, fromAllowance: int, fromBalance: int, rateId: Option<string>, counted: int, now: int) {
    var e, f := Effective(a, now), Effective(b, now);
    var p := FindProduct(Products(e), id);
    && b.balances == a.balances[id := Lookup(a.balances, id).GetOr(0) - fromBalance]
    && b.consumed == a.consumed + fromAllowance + fromBalance
    && b.holds == a.holds
    && OnGrant(a, now) == OnGrant(b, now) && (if OnGrant(a, now) then b.own == a.own else b.grant == a.grant)
    && f == e.(counters := f.counters)
    && f.counters == if p.Some? && id in e.counters then e.counters[id := WithUse(p.value, e.counters[id], fromAllowance, rateId, counted)] else e.counters
  }

  /** Everything but the counters of the plan that serves is as before. */
  predicate OnlyCounters(a: Account, b: Account, now: int) {
    && b == a.(own := b.own, grant := b.grant)
    && OnGrant(a, now) == OnGrant(b, now) && (if OnGrant(a, now) then b.own == a.own else b.grant == a.grant)
    && Effective(b, now) == Effective(a, now).(counters := Effective(b, now).counters)
  }

  lemma CounterIsReplaced(a: Account, id: string, c: Counter, now: int)
    ensures var b := WithCounter(a, now, id, c);
            OnlyCounters(a, b, now) && Effective(b, now).counters == Effective(a, now).counters[id := c]
  {}

  lemma AllowanceIsTaken(a: Account, id: string, credits: nat, now: int)
    requires credits <= AllowanceLeft(a, id, now)
    ensures var b, e := TakeAllowance(a, id, credits, now), Effective(a, now);
            var p := FindProduct(Products(e), id);
            && OnlyCounters(a, b, now)
            && Effective(b, now).counters ==
               if p.Some? && id in e.counters then e.counters[id := WithUse(p.value, e.counters[id], credits, None, 0)] else e.counters
  {
    hide WithCounter;
    var e := Effective(a, now);
    var p := FindProduct(Products(e), id);
    if p.Some? && id in e.counters {
      CounterIsReplaced(a, id, WithUse(p.value, e.counters[id], credits, None, 0), now);
    }
  }

  lemma RateIsCounted(a: Account, id: string, cap: Option<RateCap>, counted: nat, now: int)
    requires cap.Some? ==> Running(Effective(a, now), now)
    ensures var b, e := CountRate(a, id, cap, counted, now), Effective(a, now);
            var p := FindProduct(Products(e), id);
            && OnlyCounters(a, b, now)
            && Effective(b, now).counters ==
               if p.Some? && id in e.counters then e.counters[id := WithUse(p.value, e.counters[id], 0, if cap.Some? && counted > 0 then Some(cap.value.rateId) else None, counted)]
               else e.counters
  {
    hide WithCounter;
    var e := Effective(a, now);
    var p := FindProduct(Products(e), id);
    if p.Some? && id in e.counters && cap.Some? && counted > 0 {
      CounterIsReplaced(a, id, WithUse(p.value, e.counters[id], 0, Some(cap.value.rateId), counted), now);
    }
  }

  lemma UseAddsUp(p: Product, c: Counter, n: int, rateId: Option<string>, m: int)
    ensures WithUse(p, WithUse(p, c, n, None, 0), 0, rateId, m) == WithUse(p, c, n, rateId, m)
  {}

  lemma ChargeIsTaken(a: Account, id: string, fromAllowance: nat, fromBalance: int, cap: Option<RateCap>, counted: nat, now: int)
    requires fromAllowance <= AllowanceLeft(a, id, now)
    requires cap.Some? ==> Running(Effective(a, now), now)
    ensures IsCharged(a, Taken(a, id, fromAllowance, fromBalance, cap, counted, now), id, fromAllowance, fromBalance,
                      if cap.Some? && counted > 0 then Some(cap.value.rateId) else None, counted, now)
  {
    hide TakeAllowance, CountRate, AllowanceLeft, WithUse, FindProduct, OnGrant, Effective;
    var m := TakeAllowance(a, id, fromAllowance, now);
    AllowanceIsTaken(a, id, fromAllowance, now);
    RateIsCounted(m, id, cap, counted, now);
    SameEntitlements(CountRate(m, id, cap, counted, now), Taken(a, id, fromAllowance, fromBalance, cap, counted, now), now);
    var e := Effective(a, now);
    var p := FindProduct(Products(e), id);
    if p.Some? && id in e.counters {
      UseAddsUp(p.value, e.counters[id], fromAllowance, if cap.Some? && counted > 0 then Some(cap.value.rateId) else None, counted);
    }
  }

  /** What a charge leaves of the allowance and of what is available. */
  lemma ChargeLeavesTheRest(a: Account, b: Account, id: string, fromAllowance: nat, fromBalance: int, rateId: Option<string>, counted: int, now: int)
    requires IsCharged(a, b, id, fromAllowance, fromBalance, rateId, counted, now) && fromAllowance <= AllowanceLeft(a, id, now)
    ensures AllowanceLeft(b, id, now) == AllowanceLeft(a, id, now) - fromAllowance
    ensures Balance(b, id) == Balance(a, id) - fromBalance
  {
    hide Held, HeldAtRate;
  }
}
