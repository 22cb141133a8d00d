/**
  Caps on a model's rate (rt-app/core-go/subscriptions/limits.go): what a cap admits, and that the
  credits used and held at a capped rate stay within the cap over whole runs. Settlements are the
  one exception, because they count whatever was used.
*/
module ModelCaps {
  import opened Prelude
  import opened Plans
  import opened Windows
  import opened Accounts
  import opened Operations
  import opened Books
  import opened Lifecycle
  import opened Coverage
  import opened CoveredRuns
  import opened Preflight
  import opened Solvency

  // ---- what a cap admits ----

  /** The credits a counter has seen at a rate. */
  function RateUsed(c: Counter, rateId: string): RateCount {
    if rateId in c.rates then c.rates[rateId] else RateCount(None, 0, 0, 0)
  }

  predicate Counts(r: RateCount) {
    0 <= r.short.GetOr(0) && 0 <= r.day && 0 <= r.week && 0 <= r.period
  }

  /** Every window that the cap limits has room for `more` credits. */
  predicate Fits(p: Product, cap: RateCap, r: RateCount, more: int) {
    && (p.short.Some? && cap.short.Some? ==> r.short.GetOr(0) + more <= cap.short.value)
    && (cap.day.Some? ==> r.day + more <= cap.day.value)
    && (cap.week.Some? ==> r.week + more <= cap.week.value)
    && (cap.period.Some? ==> r.period + more <= cap.period.value)
  }

  /** What is used and what is held at a capped rate fit in the cap together, with `more` on top. */
  predicate HasRoom(a: Account, id: string, cap: RateCap, more: int, now: int) {
    var e := Effective(a, now);
    var p := FindProduct(Products(e), id);
    p.Some? && id in e.counters ==>
      Fits(p.value, cap, RateUsed(e.counters[id], cap.rateId), HeldAtRate(a.holds, id, cap.rateId, now) + more)
  }

  /** The product has a counter, which never counted less than nothing at the rate. */
  predicate CountsRate(a: Account, id: string, rateId: string, now: int) {
    var e := Effective(a, now);
    FindProduct(Products(e), id).Some? ==> id in e.counters && Counts(RateUsed(e.counters[id], rateId))
  }

  /** A cap refuses exactly the charges that it has no room for. */
  lemma CapAdmitsWhatFits(a: Account, id: string, cap: RateCap, credits: int, now: int)
    requires Active(Effective(a, now), now)
    ensures Exceeded(a, id, cap, credits, now).None? <==> HasRoom(a, id, cap, credits, now)
  {
    hide HeldAtRate;
  }

  /** Every cap of the serving entitlement is kept. */
  ghost predicate CapsKept(plans: seq<Plan>, a: Account, now: int) {
    forall id: string, rateId: string :: var cap := CapOf(a, plans, id, Some(rateId), now);
      cap.Some? ==> HasRoom(a, id, cap.value, 0, now) && CountsRate(a, id, rateId, now)
  }

  lemma {:induction false} CapHasRate(caps: seq<RateCap>, rateId: string)
    ensures FindCap(caps, rateId).Some? ==> FindCap(caps, rateId).value.rateId == rateId
  {
    if caps != [] {
      CapHasRate(caps[1..], rateId);
    }
  }

  lemma CapIsOfRate(a: Account, plans: seq<Plan>, id: string, rateId: Option<string>, now: int)
    ensures var cap := CapOf(a, plans, id, rateId, now);
            cap.Some? ==> rateId == Some(cap.value.rateId) && Active(Effective(a, now), now)
  {
    var e := Effective(a, now);
    if Active(e, now) && rateId.Some? {
      var p := FindProduct(FindPlan(plans, e.plan.value.id).GetOr(e.plan.value).products, id);
      if p.Some? {
        CapHasRate(p.value.rateCaps, rateId.value);
      }
    }
  }

  /** The same plan serves: the same caps apply. */
  lemma SameCaps(a: Account, b: Account, plans: seq<Plan>, id: string, rateId: Option<string>, now: int)
    requires SameServing(a, b, now)
    ensures CapOf(a, plans, id, rateId, now) == CapOf(b, plans, id, rateId, now)
  {}

  // ---- what changes the room ----

  /** Rates and holds as before, seen from one rate: the room is the same. */
  predicate SameUse(a: Account, b: Account, id: string, rateId: string, now: int) {
    var e, f := Effective(a, now), Effective(b, now);
    && (id in e.counters <==> id in f.counters)
    && (id in e.counters ==> RateUsed(e.counters[id], rateId) == RateUsed(f.counters[id], rateId))
  }

  lemma RoomAfter(a: Account, b: Account, id: string, cap: RateCap, more: int, now: int)
    requires SameServing(a, b, now) && Active(Effective(a, now), now) && SameUse(a, b, id, cap.rateId, now)
    requires HasRoom(a, id, cap, more, now)
    requires HeldAtRate(b.holds, id, cap.rateId, now) <= HeldAtRate(a.holds, id, cap.rateId, now) + more
    ensures HasRoom(b, id, cap, 0, now) && CountsRate(a, id, cap.rateId, now) == CountsRate(b, id, cap.rateId, now)
  {
    hide HeldAtRate, RateUsed;
  }

  /** Where no rate is used more, and no more is held, every cap is kept. */
  lemma CapsStayKept(plans: seq<Plan>, a: Account, b: Account, now: int)
    requires CapsKept(plans, a, now) && SameServing(a, b, now)
    requires Active(Effective(a, now), now) ==> forall id: string, rateId: string ::
               SameUse(a, b, id, rateId, now) && HeldAtRate(b.holds, id, rateId, now) <= HeldAtRate(a.holds, id, rateId, now)
    ensures CapsKept(plans, b, now)
  {
    hide HeldAtRate, HasRoom, CountsRate, SameServing, SameUse, CapOf, Active, Effective;
    forall id: string, rateId: string
      ensures var cap := CapOf(b, plans, id, Some(rateId), now);
              cap.Some? ==> HasRoom(b, id, cap.value, 0, now) && CountsRate(b, id, rateId, now)
    {
      SameCaps(a, b, plans, id, Some(rateId), now);
      CapIsOfRate(a, plans, id, Some(rateId), now);
      var cap := CapOf(a, plans, id, Some(rateId), now);
      if cap.Some? {
        assert SameUse(a, b, id, rateId, now);
        RoomAfter(a, b, id, cap.value, 0, now);
      }
    }
  }

  // ---- charging ----

  /** Counting credits at a rate takes exactly that much room, in every window. */
  lemma CountingTakesRoom(p: Product, c: Counter, cap: RateCap, credits: int, more: int)
    ensures Fits(p, cap, RateUsed(Counted(p, c, cap.rateId, credits), cap.rateId), more) == Fits(p, cap, RateUsed(c, cap.rateId), credits + more)
    ensures credits >= 0 && Counts(RateUsed(c, cap.rateId)) ==> Counts(RateUsed(Counted(p, c, cap.rateId, credits), cap.rateId))
    ensures forall other: string :: other != cap.rateId ==> RateUsed(Counted(p, c, cap.rateId, credits), other) == RateUsed(c, other)
  {}

  /** The rate that a charge counts, if it counts one. */
  predicate IsCounted(a: Account, id: string, cap: Option<RateCap>, counted: int, other: string, rateId: string, now: int) {
    other == id && cap.Some? && cap.value.rateId == rateId && counted > 0 && FindProduct(Products(Effective(a, now)), id).Some?
  }

  lemma WithCounterServes(a: Account, id: string, c: Counter, now: int)
    requires id in Effective(a, now).counters
    ensures var b := WithCounter(a, now, id, c);
            && SameServing(a, b, now) && b.holds == a.holds
            && Effective(b, now) == Effective(a, now).(counters := Effective(a, now).counters[id := c])
  {}

  lemma AllowanceKeepsRates(a: Account, id: string, credits: int, now: int)
    ensures var b := TakeAllowance(a, id, credits, now);
            && SameServing(a, b, now) && b.holds == a.holds
            && (Active(Effective(a, now), now) ==> forall other: string, rateId: string :: SameUse(a, b, other, rateId, now))
  {
    hide Effective, OnGrant, Active, FindProduct;
    var e := Effective(a, now);
    if credits > 0 && id in e.counters {
      var p, c := FindProduct(Products(e), id), e.counters[id];
      WithCounterServes(a, id, if p.Some? then Charged(p.value, c, credits) else c.(period := c.period + credits, day := c.day + credits, week := c.week + credits), now);
    }
  }

  lemma SameEntitlements(a: Account, b: Account, now: int)
    requires a.own == b.own && a.grant == b.grant
    ensures SameServing(a, b, now) && Effective(a, now) == Effective(b, now)
  {}

  /** What counting does: it counts one rate of one product, and only when there is a cap. */
  lemma CountingRates(a: Account, id: string, cap: Option<RateCap>, counted: int, now: int)
    requires Active(Effective(a, now), now)
    ensures var b := CountRate(a, id, cap, counted, now);
            var e, f := Effective(a, now), Effective(b, now);
            && SameServing(a, b, now) && b.holds == a.holds
            && (forall other: string, rateId: string :: !IsCounted(a, id, cap, counted, other, rateId, now) ==> SameUse(a, b, other, rateId, now))
            && (cap.Some? && IsCounted(a, id, cap, counted, id, cap.value.rateId, now) && id in e.counters ==>
                  id in f.counters && f.counters[id] == Counted(FindProduct(Products(e), id).value, e.counters[id], cap.value.rateId, counted))
            && (id in f.counters ==> id in e.counters)
  {
    hide Effective, OnGrant, Active, FindProduct, Counted;
    var e := Effective(a, now);
    var p := FindProduct(Products(e), id);
    if cap.Some? && counted > 0 && p.Some? && id in e.counters {
      CountingTakesRoom(p.value, e.counters[id], cap.value, counted, 0);
      WithCounterServes(a, id, Counted(p.value, e.counters[id], cap.value.rateId, counted), now);
    }
  }

  /** A charge: the room of the counted rate shrinks by what is counted, every other stays. */
  lemma TakenRates(a: Account, id: string, fromAllowance: int, fromBalance: int, cap: Option<RateCap>, counted: int, now: int)
    requires Active(Effective(a, now), now)
    ensures var b := Taken(a, id, fromAllowance, fromBalance, cap, counted, now);
            && SameServing(a, b, now) && b.holds == a.holds
            && (forall other: string, rateId: string :: !IsCounted(a, id, cap, counted, other, rateId, now) ==> SameUse(a, b, other, rateId, now))
            && (cap.Some? && IsCounted(a, id, cap, counted, id, cap.value.rateId, now) ==>
                  (HasRoom(b, id, cap.value, 0, now) <==> HasRoom(a, id, cap.value, counted, now))
                  && (CountsRate(a, id, cap.value.rateId, now) ==> CountsRate(b, id, cap.value.rateId, now)))
  {
    hide Effective, OnGrant, Active, FindProduct, Counted, CountRate, TakeAllowance, HeldAtRate, Fits, RateUsed, Counts;
    var mid := TakeAllowance(a, id, fromAllowance, now);
    var m := CountRate(mid, id, cap, counted, now);
    var b := Taken(a, id, fromAllowance, fromBalance, cap, counted, now);
    AllowanceKeepsRates(a, id, fromAllowance, now);
    CountingRates(mid, id, cap, counted, now);
    SameEntitlements(m, b, now);
    forall other: string, rateId: string | !IsCounted(a, id, cap, counted, other, rateId, now)
      ensures SameUse(a, b, other, rateId, now)
    {
      assert SameUse(a, mid, other, rateId, now);
      assert SameUse(mid, m, other, rateId, now);
    }
    if cap.Some? && IsCounted(a, id, cap, counted, id, cap.value.rateId, now) {
      var e, f := Effective(a, now), Effective(mid, now);
      assert SameUse(a, mid, id, cap.value.rateId, now);
      if id in e.counters {
        var held := HeldAtRate(a.holds, id, cap.value.rateId, now);
        CountingTakesRoom(FindProduct(Products(e), id).value, f.counters[id], cap.value, counted, held);
      }
    }
  }

  /** A charge keeps every cap exactly when the cap of its own rate has room for what it counts. */
  lemma ChargeKeepsCaps(plans: seq<Plan>, a: Account, id: string, fromAllowance: int, fromBalance: int, rateId: Option<string>, counted: nat, now: int)
    requires CapsKept(plans, a, now)
    ensures var cap := CapOf(a, plans, id, rateId, now);
            var b := Taken(a, id, fromAllowance, fromBalance, cap, counted, now);
            && (Active(Effective(a, now), now) ==> SameServing(a, b, now))
            && (Active(Effective(a, now), now) ==> (CapsKept(plans, b, now) <==> (cap.Some? && counted > 0 ==> HasRoom(a, id, cap.value, counted, now))))
  {
    hide Effective, OnGrant, Active, HeldAtRate, Fits, RateUsed, Counts, CapOf, Taken, SameServing, HasRoom, CountsRate, SameUse;
    var cap := CapOf(a, plans, id, rateId, now);
    var b := Taken(a, id, fromAllowance, fromBalance, cap, counted, now);
    if Active(Effective(a, now), now) {
      TakenRates(a, id, fromAllowance, fromBalance, cap, counted, now);
      CapIsOfRate(a, plans, id, rateId, now);
      forall other: string, r: string
        ensures CapOf(b, plans, other, Some(r), now) == CapOf(a, plans, other, Some(r), now)
        ensures var c := CapOf(b, plans, other, Some(r), now);
                !IsCounted(a, id, cap, counted, other, r, now) && c.Some? ==> HasRoom(b, other, c.value, 0, now) && CountsRate(b, other, r, now)
      {
        SameCaps(a, b, plans, other, Some(r), now);
        CapIsOfRate(a, plans, other, Some(r), now);
        var c := CapOf(a, plans, other, Some(r), now);
        if !IsCounted(a, id, cap, counted, other, r, now) && c.Some? {
          RoomAfter(a, b, other, c.value, 0, now);
        }
      }
      if cap.Some? && counted > 0 {
        var r := cap.value.rateId;
        assert CapOf(a, plans, id, Some(r), now) == cap && CountsRate(a, id, r, now);
        if IsCounted(a, id, cap, counted, id, r, now) {
          assert HasRoom(b, id, cap.value, 0, now) <==> HasRoom(a, id, cap.value, counted, now);
          assert CapOf(b, plans, id, Some(r), now) == cap;
        } else {
          NoProductHasRoom(a, id, cap.value, counted, now);
        }
      }
    }
  }

  lemma NoProductHasRoom(a: Account, id: string, cap: RateCap, more: int, now: int)
    requires FindProduct(Products(Effective(a, now)), id).None?
    ensures HasRoom(a, id, cap, more, now)
  {}

  // ---- holds at a rate ----

  lemma {:induction false} HeldAtRateOfConcatenation(a: seq<Hold>, b: seq<Hold>, id: string, rateId: string, now: int)
    ensures HeldAtRate(a + b, id, rateId, now) == HeldAtRate(a, id, rateId, now) + HeldAtRate(b, id, rateId, now)
  {
    if b == [] {
      assert a + b == a;
    } else {
      assert (a + b)[..|a + b| - 1] == a + b[..|b| - 1];
      HeldAtRateOfConcatenation(a, b[..|b| - 1], id, rateId, now);
    }
  }

  /** What one hold holds at a rate. */
  function AtRate(h: Hold, id: string, rateId: string, now: int): nat {
    if h.productId == id && h.rateId == Some(rateId) && Live(h, now) then h.credits else 0
  }

  lemma HeldAtRateOfOne(h: Hold, id: string, rateId: string, now: int)
    ensures HeldAtRate([h], id, rateId, now) == AtRate(h, id, rateId, now)
  {
    assert [h][..0] == [];
  }

  lemma {:induction false} DroppedFreesAtRate(holds: seq<Hold>, key: string, id: string, rateId: string, now: int)
    ensures var h := FindHold(holds, key);
            HeldAtRate(WithoutHold(holds, key), id, rateId, now) ==
            HeldAtRate(holds, id, rateId, now) - if h.Some? then AtRate(h.value, id, rateId, now) else 0
  {
    if holds != [] {
      var h, rest := holds[0], holds[1..];
      assert holds == [h] + rest;
      HeldAtRateOfConcatenation([h], rest, id, rateId, now);
      HeldAtRateOfOne(h, id, rateId, now);
      if h.key != key {
        DroppedFreesAtRate(rest, key, id, rateId, now);
        HeldAtRateOfConcatenation([h], WithoutHold(rest, key), id, rateId, now);
      }
    }
  }

  lemma {:induction false} HeldAtRateFalls(holds: seq<Hold>, id: string, rateId: string, t1: int, t2: int)
    requires t1 <= t2
    ensures HeldAtRate(holds, id, rateId, t2) <= HeldAtRate(holds, id, rateId, t1)
  {
    if holds != [] {
      HeldAtRateFalls(holds[..|holds| - 1], id, rateId, t1, t2);
    }
  }

  // ---- one operation ----

  /** What an operation leaves of the account that it brought to the present. */
  ghost predicate KeepsCaps(plans: seq<Plan>, a: Account, b: Account, now: int) {
    SameServing(a, b, now) && (CapsKept(plans, a, now) ==> CapsKept(plans, b, now))
  }

  lemma KeepsInTurn(plans: seq<Plan>, a: Account, b: Account, c: Account, now: int)
    requires KeepsCaps(plans, a, b, now) && KeepsCaps(plans, b, c, now)
    ensures KeepsCaps(plans, a, c, now)
  {
    hide CapsKept, OnGrant, Active, Effective;
  }

  /** Entitlements untouched and no more held: caps are kept. */
  lemma FewerHoldsKeepCaps(plans: seq<Plan>, a: Account, b: Account, now: int)
    requires a.own == b.own && a.grant == b.grant
    requires forall id: string, rateId: string :: HeldAtRate(b.holds, id, rateId, now) <= HeldAtRate(a.holds, id, rateId, now)
    ensures KeepsCaps(plans, a, b, now)
  {
    hide CapsKept, HeldAtRate;
    SameEntitlements(a, b, now);
    if CapsKept(plans, a, now) {
      CapsStayKept(plans, a, b, now);
    }
  }

  lemma OpenedKeepsCaps(plans: seq<Plan>, raw: Account, data: Account, now: int)
    ensures KeepsCaps(plans, data, SettleWindows(raw, data, now).account, now)
    ensures KeepsCaps(plans, data, Swept(SettleWindows(raw, data, now), now).account, now)
  {
    hide KeepsCaps, SettleWindows, PostExpired, HeldAtRate, LiveHolds, ExpiredHolds;
    var d := SettleWindows(raw, data, now);
    SettledService(raw, data, now);
    var live := d.account.(holds := LiveHolds(d.account.holds, now));
    PostExpiredService(d.(account := live), ExpiredHolds(d.account.holds, now), now);
    forall id: string, rateId: string
      ensures HeldAtRate(LiveHolds(data.holds, now), id, rateId, now) == HeldAtRate(data.holds, id, rateId, now)
    {
      LiveHoldsAtRate(data.holds, id, rateId, now);
    }
    FewerHoldsKeepCaps(plans, data, d.account, now);
    FewerHoldsKeepCaps(plans, data, Swept(d, now).account, now);
  }

  lemma PostKeepsCaps(plans: seq<Plan>, a: Account, d: Draft, e: Entry, seed: Seed, now: int)
    requires KeepsCaps(plans, a, d.account, now)
    ensures KeepsCaps(plans, a, Post(d, e, seed, now).account, now)
  {
    hide KeepsCaps, Post;
    PostSame(d, e, seed, now);
    FewerHoldsKeepCaps(plans, d.account, Post(d, e, seed, now).account, now);
    KeepsInTurn(plans, a, d.account, Post(d, e, seed, now).account, now);
  }

  lemma ConsumeKeepsCaps(s: Settings, requestId: string, id: string, credits: int, kind: Kind, source: Source, rateId: Option<string>,
                         first: Option<Data>, account: Option<Account>, now: int)
    requires DecideConsume(s, requestId, id, credits, kind, source, rateId, first, account, now).Commit?
    ensures KeepsCaps(s.plans, NormalizedAccount(account.GetOr(NO_ACCOUNT), now),
                      DecideConsume(s, requestId, id, credits, kind, source, rateId, first, account, now).draft.account, now)
  {
    hide KeepsCaps, NormalizedAccount, SettleWindows, Taken, CapOf, Exceeded, ValidId, FreeAllowance, FreeBalance, Post, Active, Effective, OnGrant;
    var raw := account.GetOr(NO_ACCOUNT);
    var data := NormalizedAccount(raw, now);
    OpenedKeepsCaps(s.plans, raw, data, now);
    var d := Opened(raw, now);
    var fromAllowance := Min(credits, FreeAllowance(d.account, id, now));
    var cap := CapOf(d.account, s.plans, id, rateId, now);
    AdmittedKeepsCaps(s.plans, data, d.account, id, fromAllowance, credits - fromAllowance, rateId, credits, now);
    var b := Taken(d.account, id, fromAllowance, credits - fromAllowance, cap, credits, now);
    var e := PlainEntry(now, kind, source, -credits, Some(id), Some(requestId)).(fromAllowance := fromAllowance, fromBalance := credits - fromAllowance);
    PostKeepsCaps(s.plans, data, d.(account := b), e, UsageSeed(requestId), now);
  }

  /** A charge that its cap admits. */
  lemma AdmittedKeepsCaps(plans: seq<Plan>, data: Account, a: Account, id: string, fromAllowance: int, fromBalance: int, rateId: Option<string>, credits: nat, now: int)
    requires KeepsCaps(plans, data, a, now) && Active(Effective(data, now), now)
    requires var cap := CapOf(a, plans, id, rateId, now); cap.Some? ==> Exceeded(a, id, cap.value, credits, now).None?
    ensures KeepsCaps(plans, data, Taken(a, id, fromAllowance, fromBalance, CapOf(a, plans, id, rateId, now), credits, now), now)
  {
    hide CapsKept, Taken, CapOf, Exceeded, HasRoom, OnGrant, Effective, Active;
    var cap := CapOf(a, plans, id, rateId, now);
    if cap.Some? {
      CapAdmitsWhatFits(a, id, cap.value, credits, now);
    }
    TakenRates(a, id, fromAllowance, fromBalance, cap, credits, now);
    if CapsKept(plans, a, now) {
      ChargeKeepsCaps(plans, a, id, fromAllowance, fromBalance, rateId, credits, now);
    }
  }

  lemma AddKeepsCaps(plans: seq<Plan>, raw: Account, id: string, balance: int, e: Entry, seed: Seed, now: int)
    ensures var d := Opened(raw, now);
            KeepsCaps(plans, NormalizedAccount(raw, now), Post(d.(account := WithBalance(d.account, id, balance)), e, seed, now).account, now)
  {
    hide KeepsCaps, NormalizedAccount, SettleWindows, Post, HeldAtRate;
    var d := Opened(raw, now);
    OpenedKeepsCaps(plans, raw, NormalizedAccount(raw, now), now);
    var b := WithBalance(d.account, id, balance);
    FewerHoldsKeepCaps(plans, d.account, b, now);
    KeepsInTurn(plans, NormalizedAccount(raw, now), d.account, b, now);
    PostKeepsCaps(plans, NormalizedAccount(raw, now), d.(account := b), e, seed, now);
  }

  /** A hold that the cap of its rate admits, or that no cap applies to. */
  lemma HoldKeepsCaps(plans: seq<Plan>, a: Account, hold: Hold, cap: Option<RateCap>, rateId: Option<string>, now: int)
    requires Active(Effective(a, now), now) && cap == CapOf(a, plans, hold.productId, rateId, now)
    requires hold.rateId == if cap.Some? then Some(cap.value.rateId) else None
    requires cap.Some? ==> Exceeded(a, hold.productId, cap.value, hold.credits, now).None?
    ensures KeepsCaps(plans, a, a.(holds := a.holds + [hold]), now)
  {
    hide Effective, OnGrant, Active, HeldAtRate, CapOf, HasRoom, CountsRate, SameUse, Exceeded;
    var b := a.(holds := a.holds + [hold]);
    SameEntitlements(a, b, now);
    CapIsOfRate(a, plans, hold.productId, rateId, now);
    if CapsKept(plans, a, now) {
      forall id: string, r: string
        ensures var c := CapOf(b, plans, id, Some(r), now); c.Some? ==> HasRoom(b, id, c.value, 0, now) && CountsRate(b, id, r, now)
      {
        SameCaps(a, b, plans, id, Some(r), now);
        var c := CapOf(a, plans, id, Some(r), now);
        CapIsOfRate(a, plans, id, Some(r), now);
        HeldAtRateOfConcatenation(a.holds, [hold], id, r, now);
        HeldAtRateOfOne(hold, id, r, now);
        SameUseOfSame(a, b, id, r, now);
        if c.Some? {
          if AtRate(hold, id, r, now) > 0 {
            CapAdmitsWhatFits(a, id, c.value, hold.credits, now);
            RoomAfter(a, b, id, c.value, hold.credits, now);
          } else {
            RoomAfter(a, b, id, c.value, 0, now);
          }
        }
      }
    }
  }

  lemma SameUseOfSame(a: Account, b: Account, id: string, rateId: string, now: int)
    requires a.own == b.own && a.grant == b.grant
    ensures SameUse(a, b, id, rateId, now)
  {}

  lemma ReserveKeepsCaps(s: Settings, op: Operation, first: Option<Data>, account: Option<Account>, receipts: seq<Option<Data>>, now: int)
    requires op.Reserve? && |receipts| == |ToSweep(op, account, now)|
    requires DecideReserve(s, op, first, account, receipts, now).Commit?
    ensures KeepsCaps(s.plans, NormalizedAccount(account.GetOr(NO_ACCOUNT), now), DecideReserve(s, op, first, account, receipts, now).draft.account, now)
  {
    hide KeepsCaps, NormalizedAccount, SettleWindows, Swept, CapOf, Exceeded, ValidId, ValidReservationKey, Spendable, Post, ExpiredReceipts, ToSweep, AmountOf,
         Active, Effective, OnGrant;
    var raw := account.GetOr(NO_ACCOUNT);
    var data := NormalizedAccount(raw, now);
    OpenedKeepsCaps(s.plans, raw, data, now);
    var d := Swept(Opened(raw, now), now);
    var credits := AmountOf(s, op.amount).credits;
    var rateId := if op.amount.Priced? then Some(op.amount.estimate.rateId) else None;
    var cap := CapOf(d.account, s.plans, op.productId, rateId, now);
    var hold := Hold(op.key, op.productId, credits, now, now + op.ttl.GetOr(DEFAULT_TTL), if cap.Some? then Some(cap.value.rateId) else None);
    var b := d.account.(holds := d.account.holds + [hold]);
    StillActive(s.plans, data, d.account, now);
    HoldKeepsCaps(s.plans, d.account, hold, cap, rateId, now);
    KeepsInTurn(s.plans, data, d.account, b, now);
    var e := PlainEntry(now, KindReservation, op.source, 0, Some(op.productId), Some(op.key)).(held := credits);
    PostKeepsCaps(s.plans, data, d.(account := b), e, ReserveSeed(op.key), now);
  }

  lemma StillActive(plans: seq<Plan>, a: Account, b: Account, now: int)
    requires KeepsCaps(plans, a, b, now)
    ensures Active(Effective(a, now), now) == Active(Effective(b, now), now)
  {}

  lemma DropKeepsCaps(plans: seq<Plan>, a: Account, key: string, now: int)
    ensures KeepsCaps(plans, a, Dropped(a, key), now)
  {
    hide KeepsCaps, HeldAtRate;
    forall id: string, rateId: string
      ensures HeldAtRate(WithoutHold(a.holds, key), id, rateId, now) <= HeldAtRate(a.holds, id, rateId, now)
    {
      DroppedFreesAtRate(a.holds, key, id, rateId, now);
    }
    FewerHoldsKeepCaps(plans, a, Dropped(a, key), now);
  }

  lemma ReleaseKeepsCaps(s: Settings, op: Operation, first: Option<Data>, account: Option<Account>, receipts: seq<Option<Data>>, now: int)
    requires op.ReleaseHold? && |receipts| == |ToSweep(op, account, now)|
    requires DecideRelease(s, op, first, account, receipts, now).Commit?
    ensures KeepsCaps(s.plans, NormalizedAccount(account.GetOr(NO_ACCOUNT), now), DecideRelease(s, op, first, account, receipts, now).draft.account, now)
  {
    hide KeepsCaps, NormalizedAccount, SettleWindows, Swept, ValidReservationKey, Post, ExpiredReceipts, ToSweep, WithoutHold, FindHold;
    var raw := account.GetOr(NO_ACCOUNT);
    var data := NormalizedAccount(raw, now);
    OpenedKeepsCaps(s.plans, raw, data, now);
    var d := Swept(Opened(raw, now), now);
    var r := ReceiptOf(first, op.source).value;
    var hold := FindHold(d.account.holds, op.key);
    if hold.Some? {
      var b := Dropped(d.account, op.key);
      DropKeepsCaps(s.plans, d.account, op.key, now);
      KeepsInTurn(s.plans, data, d.account, b, now);
      var e := PlainEntry(now, KindRelease, op.source, 0, Some(r.productId), Some(op.key)).(held := -(hold.value.credits as int));
      PostKeepsCaps(s.plans, data, d.(account := b), e, ReleaseSeed(op.key), now);
    }
  }

  // ---- settlements ----

  /** The account a settlement charges: at the present, without the hold of its key. */
  function Unheld(raw: Account, key: string, now: int): Account {
    Dropped(Swept(Opened(raw, now), now).account, key)
  }

  function ReservedRate(r: Receipt): Option<string> {
    if r.estimate.Some? then Some(r.estimate.value.rateId) else None
  }

  /** The cap of the reserved rate, if there is one, has room for all that was used. */
  predicate SettlementFits(s: Settings, r: Receipt, raw: Account, key: string, used: nat, now: int) {
    var a := Unheld(raw, key, now);
    var cap := CapOf(a, s.plans, r.productId, ReservedRate(r), now);
    cap.Some? && used > 0 ==> HasRoom(a, r.productId, cap.value, used, now)
  }

  /** A settlement counts whatever was used, so it keeps the caps exactly when that fits. */
  lemma SettlementKeepsCapsIfItFits(s: Settings, op: Operation, first: Option<Data>, account: Option<Account>, receipts: seq<Option<Data>>, now: int)
    requires op.Settle? && |receipts| == |ToSweep(op, account, now)|
    requires DecideSettle(s, op, first, account, receipts, now).Commit?
    requires CapsKept(s.plans, NormalizedAccount(account.GetOr(NO_ACCOUNT), now), now)
    ensures var r := ReceiptOf(first, op.source).value;
            && UsedOf(s, r, op.usage).Sized?
            && (CapsKept(s.plans, DecideSettle(s, op, first, account, receipts, now).draft.account, now) <==>
                SettlementFits(s, r, account.GetOr(NO_ACCOUNT), op.key, UsedOf(s, r, op.usage).credits, now))
  {
    hide CapsKept, KeepsCaps, NormalizedAccount, SettleWindows, Swept, Taken, CapOf, HasRoom, ValidReservationKey, FreeAllowance, FreeBalance, Post,
         ExpiredReceipts, ToSweep, UsedOf, WithoutHold, FindHold, Active, Effective, OnGrant;
    var raw := account.GetOr(NO_ACCOUNT);
    var data := NormalizedAccount(raw, now);
    OpenedKeepsCaps(s.plans, raw, data, now);
    var d := Swept(Opened(raw, now), now);
    var r := ReceiptOf(first, op.source).value;
    var id, used := r.productId, UsedOf(s, r, op.usage).credits;
    var a := Dropped(d.account, op.key);
    DropKeepsCaps(s.plans, d.account, op.key, now);
    KeepsInTurn(s.plans, data, d.account, a, now);
    KeptNow(s.plans, data, a, now);
    var fromAllowance := Min(used, FreeAllowance(a, id, now));
    var fromBalance := Min(used - fromAllowance, FreeBalance(a, id, now));
    var cap := CapOf(a, s.plans, id, ReservedRate(r), now);
    var b := Taken(a, id, fromAllowance, fromBalance, cap, used, now);
    ChargeKeepsCaps(s.plans, a, id, fromAllowance, fromBalance, ReservedRate(r), used, now);
    if !Active(Effective(a, now), now) {
      InactiveIsUncapped(s.plans, a, id, fromBalance, ReservedRate(r), used, now);
    }
    var charged := fromAllowance + fromBalance;
    var hold := FindHold(d.account.holds, op.key);
    var e := PlainEntry(now, KindSettlement, op.source, -charged, Some(id), Some(op.key))
               .(fromAllowance := fromAllowance, fromBalance := fromBalance, held := if hold.Some? then -(hold.value.credits as int) else 0,
                 details := Details.Settled(r.credits, used, used - charged));
    var after := Post(d.(account := b), e, SettleSeed(op.key), now).account;
    PostSame(d.(account := b), e, SettleSeed(op.key), now);
    FewerHoldsKeepCaps(s.plans, b, after, now);
    FewerHoldsKeepCaps(s.plans, after, b, now);
    KeptEither(s.plans, b, after, now);
  }

  lemma KeptNow(plans: seq<Plan>, a: Account, b: Account, now: int)
    requires KeepsCaps(plans, a, b, now) && CapsKept(plans, a, now)
    ensures CapsKept(plans, b, now) && SameServing(a, b, now)
  {}

  lemma KeptEither(plans: seq<Plan>, a: Account, b: Account, now: int)
    requires KeepsCaps(plans, a, b, now) && KeepsCaps(plans, b, a, now)
    ensures CapsKept(plans, a, now) == CapsKept(plans, b, now)
  {}

  /** Without an active plan there is no cap to keep, and no allowance to charge. */
  lemma InactiveIsUncapped(plans: seq<Plan>, a: Account, id: string, fromBalance: int, rateId: Option<string>, counted: int, now: int)
    requires !Active(Effective(a, now), now)
    ensures CapOf(a, plans, id, rateId, now).None? && FreeAllowance(a, id, now) == 0
    ensures CapsKept(plans, Taken(a, id, 0, fromBalance, None, counted, now), now)
  {
    var b := Taken(a, id, 0, fromBalance, None, counted, now);
    SameEntitlements(a, b, now);
  }

  /** A settlement that its own live hold pays for: at the rate it was held at, and no more than was held. */
  predicate PaidByHold(r: Receipt, raw: Account, key: string, used: nat, now: int) {
    var hold := FindHold(LiveHolds(raw.holds, now), key);
    || used == 0
    || r.estimate.None?
    || (hold.Some? && Live(hold.value, now) && hold.value.productId == r.productId && hold.value.rateId == ReservedRate(r) && used <= hold.value.credits)
  }

  lemma HoldsMakeItFit(s: Settings, r: Receipt, raw: Account, key: string, used: nat, now: int)
    requires CapsKept(s.plans, NormalizedAccount(raw, now), now) && PaidByHold(r, raw, key, used, now)
    ensures SettlementFits(s, r, raw, key, used, now)
  {
    hide KeepsCaps, NormalizedAccount, SettleWindows, Swept, CapOf, HasRoom, CountsRate, WithoutHold, FindHold, LiveHolds, Active, Effective, OnGrant, HeldAtRate;
    var data := NormalizedAccount(raw, now);
    OpenedKeepsCaps(s.plans, raw, data, now);
    OpenedAndSweptHolds(raw, now);
    var b := Swept(Opened(raw, now), now).account;
    var a := Dropped(b, key);
    KeptNow(s.plans, data, b, now);
    SameEntitlements(b, a, now);
    var cap := CapOf(a, s.plans, r.productId, ReservedRate(r), now);
    CapIsOfRate(a, s.plans, r.productId, ReservedRate(r), now);
    SameCaps(a, b, s.plans, r.productId, ReservedRate(r), now);
    if cap.Some? && used > 0 {
      DroppedFreesAtRate(b.holds, key, r.productId, cap.value.rateId, now);
      assert HasRoom(b, r.productId, cap.value, 0, now);
      FreedRoom(b, a, r.productId, cap.value, used, now);
    }
  }

  lemma FreedRoom(b: Account, a: Account, id: string, cap: RateCap, used: nat, now: int)
    requires b.own == a.own && b.grant == a.grant && HasRoom(b, id, cap, 0, now)
    requires HeldAtRate(a.holds, id, cap.rateId, now) + used <= HeldAtRate(b.holds, id, cap.rateId, now)
    ensures HasRoom(a, id, cap, used, now)
  {
    hide HeldAtRate;
  }

  // ---- maintenance and the passage of time ----

  lemma SourceKeepsCaps(plans: seq<Plan>, raw: Account, now: int)
    ensures KeepsCaps(plans, NormalizedAccount(raw, now), NormalizedAccount(raw.(own := MaintenanceSource(raw.own, now)), now), now)
  {
    hide Normalized, MaintenanceSource, MaintenanceRenews, HeldAtRate;
    var source := raw.(own := MaintenanceSource(raw.own, now));
    var a, b := NormalizedAccount(raw, now), NormalizedAccount(source, now);
    MaintenanceRenewsAsLooking(raw.own, now);
    StoppedStaysStopped(raw.own, now);
    if CapsKept(plans, a, now) {
      CapsStayKept(plans, a, b, now);
    }
  }

  lemma MaintainKeepsCaps(plans: seq<Plan>, account: Option<Account>, receipts: seq<Option<Data>>, now: int)
    requires |receipts| == |ToSweep(Maintain, account, now)|
    requires DecideMaintain(account, receipts, now).Commit?
    ensures KeepsCaps(plans, NormalizedAccount(account.GetOr(NO_ACCOUNT), now), DecideMaintain(account, receipts, now).draft.account, now)
  {
    hide KeepsCaps, NormalizedAccount, SettleWindows, Swept, MaintenanceSource, ExpiredReceipts, ToSweep;
    var raw := account.value;
    var data := NormalizedAccount(raw.(own := MaintenanceSource(raw.own, now)), now);
    SourceKeepsCaps(plans, raw, now);
    OpenedKeepsCaps(plans, raw, data, now);
    KeepsInTurn(plans, NormalizedAccount(raw, now), data, Swept(SettleWindows(raw, data, now), now).account, now);
  }

  /** Every window of a rate as before, or begun anew. */
  predicate Shrinks(before: RateCount, after: RateCount) {
    && (after.short.GetOr(0) == before.short.GetOr(0) || after.short.GetOr(0) == 0)
    && (after.day == before.day || after.day == 0)
    && (after.week == before.week || after.week == 0)
    && (after.period == before.period || after.period == 0)
  }

  /** A window that has ended counts nothing any more; the others count on. */
  function RateAt(p: Product, c: Counter, r: RateCount, now: int): RateCount {
    RateCount(if ShortEnded(p, c, now) && r.short.Some? then Some(0) else r.short,
              if now >= c.dayStart + p.daySeconds * 1000 then 0 else r.day,
              if now >= c.weekStart + p.weekSeconds * 1000 then 0 else r.week,
              r.period)
  }

  lemma RatesMove(p: Product, c: Counter, rateId: string, now: int)
    ensures RateUsed(MoveCounter(p, c, now), rateId) == RateAt(p, c, RateUsed(c, rateId), now)
  {
    hide Moved;
    var day := MoveDay(p, c, now);
    var week := MoveWeek(p, day, now);
    assert RateUsed(day, rateId).day == RateAt(p, c, RateUsed(c, rateId), now).day;
    assert RateUsed(week, rateId).week == RateAt(p, c, RateUsed(c, rateId), now).week;
  }

  lemma MovingShrinks(p: Product, c: Counter, rateId: string, t1: int, t2: int)
    requires t1 <= t2
    ensures Shrinks(RateUsed(MoveCounter(p, c, t1), rateId), RateUsed(MoveCounter(p, c, t2), rateId))
    ensures Shrinks(RateUsed(c, rateId), RateUsed(MoveCounter(p, c, t1), rateId))
  {
    hide MoveCounter, RateUsed;
    RatesMove(p, c, rateId, t1);
    RatesMove(p, c, rateId, t2);
  }

  lemma FreshRates(p: Product, start: int, rateId: string, now: int)
    ensures RateUsed(MoveCounter(p, FreshCounter(start), now), rateId) == RateCount(None, 0, 0, 0)
  {}

  lemma ShrunkFits(p: Product, cap: RateCap, before: RateCount, after: RateCount, more: int, less: int)
    requires Shrinks(before, after) && Counts(before) && Fits(p, cap, before, more) && less <= more
    ensures Counts(after) && Fits(p, cap, after, less)
  {}

  /** What an entitlement has counted at a rate, at two looks. */
  lemma RatesBetweenLooks(e: Entitlement, id: string, rateId: string, t1: int, t2: int)
    requires ValidEntitlement(e) && t1 <= t2 && FindProduct(Products(e), id).Some?
    ensures var n1, n2 := Normalized(e, t1), Normalized(e, t2);
            && id in n1.counters && id in n2.counters
            && Shrinks(RateUsed(n1.counters[id], rateId), RateUsed(n2.counters[id], rateId))
  {
    hide MoveCounter, MoveCounters, RateUsed;
    NormalizedCounter(e, t1, id);
    NormalizedCounter(e, t2, id);
    var p := FindProduct(Products(e), id).value;
    if Renews(e, t2) {
      FreshRates(p, Renewed(e, t2).periodStart, rateId, t2);
    } else {
      MovingShrinks(p, CounterOf(e.counters, id, e.periodStart), rateId, t1, t2);
    }
  }

  lemma ActiveBefore(e: Entitlement, t1: int, t2: int)
    requires t1 <= t2 && Active(Normalized(e, t2), t2)
    ensures Active(Normalized(e, t1), t1)
  {
    hide MoveCounters;
    if Renews(e, t1) {
      assert t1 - e.periodStart == (t1 - e.periodStart) / Step(e) * Step(e) + (t1 - e.periodStart) % Step(e);
    }
  }

  /** An entitlement looked at later, with no more held: its caps are kept. */
  lemma LaterKeepsRoom(a: Account, b: Account, e: Entitlement, id: string, cap: RateCap, t1: int, t2: int)
    requires ValidEntitlement(e) && t1 <= t2
    requires Effective(a, t1) == Normalized(e, t1) && Effective(b, t2) == Normalized(e, t2)
    requires HasRoom(a, id, cap, 0, t1) && CountsRate(a, id, cap.rateId, t1)
    requires HeldAtRate(b.holds, id, cap.rateId, t2) <= HeldAtRate(a.holds, id, cap.rateId, t1)
    ensures HasRoom(b, id, cap, 0, t2) && CountsRate(b, id, cap.rateId, t2)
  {
    hide MoveCounters, RateUsed, Fits, HeldAtRate, OnGrant, Effective, Shrinks, Counts, Renewed;
    NormalizedCounter(e, t1, id);
    NormalizedCounter(e, t2, id);
    var n1, n2 := Normalized(e, t1), Normalized(e, t2);
    var p := FindProduct(Products(e), id);
    if p.Some? {
      RatesBetweenLooks(e, id, cap.rateId, t1, t2);
      ShrunkFits(p.value, cap, RateUsed(n1.counters[id], cap.rateId), RateUsed(n2.counters[id], cap.rateId),
                 HeldAtRate(a.holds, id, cap.rateId, t1), HeldAtRate(b.holds, id, cap.rateId, t2));
    }
    assert Products(n2) == Products(e) == Products(n1);
  }

  /** Time alone keeps every cap, while the same entitlement serves. */
  lemma TimeKeepsCaps(plans: seq<Plan>, raw: Account, t1: int, t2: int)
    requires AccountInLimits(raw) && Steady(raw, t1, t2) && CapsKept(plans, NormalizedAccount(raw, t1), t1)
    ensures CapsKept(plans, NormalizedAccount(raw, t2), t2)
  {
    hide Normalized, HasRoom, CountsRate, HeldAtRate, CapOf, InLimits;
    var a, b := NormalizedAccount(raw, t1), NormalizedAccount(raw, t2);
    var e := if OnGrant(b, t2) then raw.grant.value else raw.own;
    ActiveBefore(e, t1, t2);
    forall id: string, rateId: string
      ensures var cap := CapOf(b, plans, id, Some(rateId), t2);
              cap.Some? ==> HasRoom(b, id, cap.value, 0, t2) && CountsRate(b, id, rateId, t2)
    {
      LaterCap(a, b, e, plans, id, rateId, t1, t2);
      CapIsOfRate(a, plans, id, Some(rateId), t1);
      HeldAtRateFalls(raw.holds, id, rateId, t1, t2);
      var cap := CapOf(a, plans, id, Some(rateId), t1);
      if cap.Some? {
        InLimitsIsValid(e);
        LaterKeepsRoom(a, b, e, id, cap.value, t1, t2);
      }
    }
  }

  lemma InLimitsIsValid(e: Entitlement)
    requires InLimits(e)
    ensures ValidEntitlement(e)
  {}

  lemma LaterCap(a: Account, b: Account, e: Entitlement, plans: seq<Plan>, id: string, rateId: string, t1: int, t2: int)
    requires Effective(a, t1) == Normalized(e, t1) && Effective(b, t2) == Normalized(e, t2)
    requires Active(Normalized(e, t1), t1) && Active(Normalized(e, t2), t2)
    ensures CapOf(a, plans, id, Some(rateId), t1) == CapOf(b, plans, id, Some(rateId), t2)
  {
    hide MoveCounters, OnGrant, Effective, FindCap, FindProduct, FindPlan;
  }

  /** An account at the present keeps its caps when it is looked at. */
  lemma PresentCaps(plans: seq<Plan>, a: Account, now: int)
    requires Good(a, now) && CapsKept(plans, a, now)
    ensures CapsKept(plans, NormalizedAccount(a, now), now)
  {
    hide HasRoom, CountsRate, HeldAtRate, CapOf, MoveCounters;
    var b := NormalizedAccount(a, now);
    assert SameServing(a, b, now);
    forall id: string, rateId: string
      ensures var cap := CapOf(b, plans, id, Some(rateId), now);
              cap.Some? ==> HasRoom(b, id, cap.value, 0, now) && CountsRate(b, id, rateId, now)
    {
      SameCaps(a, b, plans, id, Some(rateId), now);
      CapIsOfRate(a, plans, id, Some(rateId), now);
      var cap := CapOf(a, plans, id, Some(rateId), now);
      if cap.Some? {
        LookKeepsRoom(a, b, id, cap.value, now);
      }
    }
  }

  lemma LookKeepsRoom(a: Account, b: Account, id: string, cap: RateCap, now: int)
    requires b == NormalizedAccount(a, now) && Good(a, now) && Active(Effective(a, now), now) && SameServing(a, b, now)
    requires HasRoom(a, id, cap, 0, now) && CountsRate(a, id, cap.rateId, now)
    ensures HasRoom(b, id, cap, 0, now) && CountsRate(b, id, cap.rateId, now)
  {
    hide MoveCounter, MoveCounters, RateUsed, Fits, HeldAtRate, Shrinks, Counts;
    var e := Effective(a, now);
    NormalizedCounter(e, now, id);
    var p := FindProduct(Products(e), id);
    if p.Some? {
      MovingShrinks(p.value, e.counters[id], cap.rateId, now, now);
      ShrunkFits(p.value, cap, RateUsed(e.counters[id], cap.rateId), RateUsed(Normalized(e, now).counters[id], cap.rateId),
                 HeldAtRate(a.holds, id, cap.rateId, now), HeldAtRate(a.holds, id, cap.rateId, now));
    }
    assert Effective(b, now) == Normalized(e, now);
  }

  // ---- whole runs ----

  /** A settlement reports no more than its own live hold holds at the rate; other operations need nothing. */
  predicate SettlesWithinHold(s: Settings, op: Operation, first: Option<Data>, account: Option<Account>, now: int) {
    op.Settle? && ReceiptOf(first, op.source).Some? && UsedOf(s, ReceiptOf(first, op.source).value, op.usage).Sized? ==>
      PaidByHold(ReceiptOf(first, op.source).value, account.GetOr(NO_ACCOUNT), op.key,
                 UsedOf(s, ReceiptOf(first, op.source).value, op.usage).credits, now)
  }

  /** Charges, reservations, releases, credits and sweeps keep every cap, and so do settlements within their hold. */
  lemma ServingKeepsCaps(s: Settings, op: Operation, first: Option<Data>, account: Option<Account>, receipts: seq<Option<Data>>, now: int)
    requires Serving(op) && |receipts| == |ToSweep(op, account, now)| && SettlesWithinHold(s, op, first, account, now)
    requires Decide(s, op, first, account, receipts, now).Commit?
    requires CapsKept(s.plans, NormalizedAccount(account.GetOr(NO_ACCOUNT), now), now)
    ensures CapsKept(s.plans, Decide(s, op, first, account, receipts, now).draft.account, now)
  {
    hide CapsKept, SameServing, DecideConsume, DecideReserve, DecideSettle, DecideRelease, DecideMaintain, Opened, NormalizedAccount, Balance, ToSweep,
         AnyPlanHas, ValidId, PaidByHold, SettlementFits, UsedOf;
    var raw := account.GetOr(NO_ACCOUNT);
    match op
    case Consume(requestId, id, credits, kind, source, rateId) =>
      ConsumeKeepsCaps(s, requestId, id, credits, kind, source, rateId, first, account, now);
    case Record(requestId, id, credits, kind, source, amountMinor, currency) =>
      if credits < 0 {
        ConsumeKeepsCaps(s, requestId, id, -credits, kind, source, None, first, account, now);
      } else {
        var e := PlainEntry(now, kind, source, credits, Some(id), Some(requestId)).(amountMinor := amountMinor, currency := currency);
        AddKeepsCaps(s.plans, raw, id, Balance(Opened(raw, now).account, id) + credits, e, RecordSeed(requestId), now);
      }
    case Reserve(_, _, _, _, _) => ReserveKeepsCaps(s, op, first, account, receipts, now);
    case Settle(_, _, _) =>
      SettledReceipt(s, op, first, account, receipts, now);
      SettlementKeepsCapsIfItFits(s, op, first, account, receipts, now);
      var r := ReceiptOf(first, op.source).value;
      HoldsMakeItFit(s, r, raw, op.key, UsedOf(s, r, op.usage).credits, now);
    case ReleaseHold(_, _) => ReleaseKeepsCaps(s, op, first, account, receipts, now);
    case Maintain => MaintainKeepsCaps(s.plans, account, receipts, now);
    case GrantCredits(requestId, id, credits, amountMinor, currency) =>
      var e := PlainEntry(now, KindGrant, ByAdmin, credits, Some(id), Some(requestId)).(amountMinor := amountMinor, currency := currency);
      AddKeepsCaps(s.plans, raw, id, Balance(Opened(raw, now).account, id) + credits, e, GrantSeed(requestId), now);
  }

  lemma SettledReceipt(s: Settings, op: Operation, first: Option<Data>, account: Option<Account>, receipts: seq<Option<Data>>, now: int)
    requires op.Settle? && |receipts| == |ToSweep(op, account, now)|
    requires DecideSettle(s, op, first, account, receipts, now).Commit?
    ensures ReceiptOf(first, op.source).Some?
  {
    hide Opened, Swept, Taken, CapOf, FreeAllowance, FreeBalance, Post, ExpiredReceipts, ToSweep, UsedOf;
  }

  /** The account is in order, and every cap is kept once it is looked at. */
  ghost predicate Capped(s: Settings, book: Book, now: int) {
    InOrder(book, now) && CapsKept(s.plans, NormalizedAccount(AccountOf(book), now), now)
  }

  predicate WithinHold(s: Settings, book: Book, call: Call) {
    SettlesWithinHold(s, call.op, RowOf(book, FirstRow(call.op)), book.account, call.now)
  }

  /** Every settlement of a run is paid by its own hold. */
  predicate WithinHolds(s: Settings, book: Book, calls: seq<Call>)
    decreases |calls|
  {
    calls == [] || (WithinHold(s, book, calls[0]) && WithinHolds(s, Apply(s, book, calls[0].op, calls[0].now), calls[1..]))
  }

  lemma StepKeepsCaps(s: Settings, book: Book, since: int, call: Call)
    requires Capped(s, book, since) && Serving(call.op) && Steady(AccountOf(book), since, call.now) && WithinHold(s, book, call)
    ensures Capped(s, Apply(s, book, call.op, call.now), call.now)
  {
    hide AccountInLimits, Solvent, Covered, Steady, Decide, Good, DirectCover, SameServing, WithExpired, WithTarget, ToSweep, CapsKept, SettlesWithinHold,
         NormalizedAccount;
    var raw, now := AccountOf(book), call.now;
    TimeKeepsCaps(s.plans, raw, since, now);
    StepKeepsCover(s, book, since, call);
    var c := DecideOn(s, book, call.op, now);
    if c.Commit? {
      var first, receipts := RowOf(book, FirstRow(call.op)), ReceiptsOf(book.rows, ToSweep(call.op, book.account, now));
      ServingKeepsCaps(s, call.op, first, book.account, receipts, now);
      ServingKeepsCover(s, call.op, first, book.account, receipts, now);
      PresentCaps(s.plans, c.draft.account, now);
    }
  }

  /**
    While the entitlement stays active and is not replaced, what is used and held at a capped rate
    stays within its cap in every window: after any number of charges, reservations, releases,
    sweeps and additions, and of settlements that their own hold pays for, and at any later instant.
  */
  lemma {:induction false} CapsStayKeptOverRuns(s: Settings, book: Book, since: int, calls: seq<Call>, later: int)
    requires Capped(s, book, since) && SteadyRun(s, book, since, calls) && WithinHolds(s, book, calls)
    requires Steady(AccountOf(RunFrom(s, book, calls)), LastClock(since, calls), later)
    ensures Capped(s, RunFrom(s, book, calls), later)
    decreases |calls|
  {
    hide InOrder, CapsKept, Apply, Steady, WithinHold, NormalizedAccount;
    if calls == [] {
      InOrderLater(book, since, later);
      TimeKeepsCaps(s.plans, AccountOf(book), since, later);
    } else {
      StepKeepsCaps(s, book, since, calls[0]);
      assert LastClock(calls[0].now, calls[1..]) == LastClock(since, calls);
      CapsStayKeptOverRuns(s, Apply(s, book, calls[0].op, calls[0].now), calls[0].now, calls[1..], later);
    }
  }

  lemma InOrderLater(book: Book, t1: int, t2: int)
    requires InOrder(book, t1) && Steady(AccountOf(book), t1, t2)
    ensures InOrder(book, t2) && AccountInLimits(AccountOf(book))
  {
    hide AccountInLimits, Solvent, Covered, Steady;
    TimeKeepsCover(AccountOf(book), t1, t2);
  }

  lemma NothingHeld(id: string, rateId: string, now: int)
    ensures HeldAtRate([], id, rateId, now) == 0
  {}

  /** No rate was counted yet. */
  predicate NoRates(e: Entitlement) {
    forall id :: id in e.counters ==> e.counters[id].rates == map[]
  }

  lemma NoRatesMove(p: Product, c: Counter, rateId: string, now: int)
    requires c.rates == map[]
    ensures RateUsed(MoveCounter(p, c, now), rateId) == RateCount(None, 0, 0, 0)
  {
    hide MoveCounter;
    RatesMove(p, c, rateId, now);
  }

  /** Plans at whose capped rates nothing was used or is held keep their caps. */
  lemma UnusedPlansKeepCaps(plans: seq<Plan>, raw: Account, now: int)
    requires AccountInLimits(raw) && raw.holds == []
    requires NoRates(raw.own) && (raw.grant.Some? ==> NoRates(raw.grant.value))
    ensures CapsKept(plans, NormalizedAccount(raw, now), now)
  {
    hide HeldAtRate, CapOf, MoveCounters, MoveCounter;
    var a := NormalizedAccount(raw, now);
    var e := if OnGrant(a, now) then raw.grant.value else raw.own;
    InLimitsIsValid(e);
    forall id: string, rateId: string
      ensures var cap := CapOf(a, plans, id, Some(rateId), now);
              cap.Some? ==> HasRoom(a, id, cap.value, 0, now) && CountsRate(a, id, rateId, now)
    {
      CapIsOfRate(a, plans, id, Some(rateId), now);
      NothingHeld(id, rateId, now);
      NormalizedCounter(e, now, id);
      if FindProduct(Products(e), id).Some? {
        NoRatesMove(FindProduct(Products(e), id).value, CounterOf(Renewed(e, now).counters, id, Renewed(e, now).periodStart), rateId, now);
      }
    }
  }

  /**
    From a point of any history where nothing is held and no rate was counted, as when a plan was just
    assigned, the caps are kept through any run in which settlements stay within their holds.
  */
  lemma HistoriesKeepCaps(s: Settings, calls: seq<Call>, since: int, more: seq<Call>, later: int)
    requires ValidSettings(s) && CarryOversFit(s, calls)
    requires var raw := AccountOf(Run(s, calls)); raw.holds == [] && NoRates(raw.own) && (raw.grant.Some? ==> NoRates(raw.grant.value))
    requires SteadyRun(s, Run(s, calls), since, more) && WithinHolds(s, Run(s, calls), more)
    requires Steady(AccountOf(RunFrom(s, Run(s, calls), more)), LastClock(since, more), later)
    ensures Capped(s, RunFrom(s, Run(s, calls), more), later)
  {
    hide Run, RunFrom, AccountInLimits, Solvent, Covered, Steady, SteadyRun, WithinHolds, CarryOversFit, CapsKept, NormalizedAccount, NoRates;
    CountersStayWithinLimits(s, calls);
    LimitsNow(s, calls);
    HistoryIsSolvent(s, calls);
    NoHoldsAreCovered(Run(s, calls), since);
    UnusedPlansKeepCaps(s.plans, AccountOf(Run(s, calls)), since);
    CapsStayKeptOverRuns(s, Run(s, calls), since, more, later);
  }
}
