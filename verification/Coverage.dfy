/**
  Holds stay covered: while the entitlement stays active and is not replaced, the allowance left
  and the additional credits together always suffice for every live hold. Balances are never
  negative, and no charge takes a window counter beyond its limit.
*/
module Coverage {
  import opened Prelude
  import opened Plans
  import opened Windows
  import opened Rollover
  import opened Accounts
  import opened Operations

  // ---- counters within their limits ----

  predicate Within(p: Product, c: Counter) {
    && 0 <= c.day <= p.dailyLimit && 0 <= c.week <= p.weeklyLimit && 0 <= c.period <= p.credits
    && (p.short.Some? ==> 0 <= c.short <= p.short.value.limit)
  }

  ghost predicate InLimits(e: Entitlement) {
    && ValidEntitlement(e)
    && forall id: string :: id in e.counters && FindProduct(Products(e), id).Some? ==>
         Within(FindProduct(Products(e), id).value, e.counters[id])
  }

  ghost predicate AccountInLimits(a: Account) {
    InLimits(a.own) && (a.grant.Some? ==> InLimits(a.grant.value))
  }

  /** What an entitlement leaves of a product, whether or not it is active. */
  function LeftIn(e: Entitlement, id: string): nat {
    var p := FindProduct(Products(e), id);
    if p.None? || id !in e.counters then 0 else Left(p.value, e.counters[id])
  }

  lemma AllowanceIsLeft(a: Account, id: string, now: int)
    ensures AllowanceLeft(a, id, now) == if Active(Effective(a, now), now) then LeftIn(Effective(a, now), id) else 0
  {}

  // ---- the passage of time ----

  lemma MovingKeepsLimits(p: Product, c: Counter, now: int)
    requires Within(p, c)
    ensures Within(p, MoveCounter(p, c, now))
    ensures Left(p, MoveCounter(p, c, now)) >= Left(p, c)
  {}

  lemma MovingLaterLeavesMore(p: Product, c: Counter, t1: int, t2: int)
    requires Within(p, c) && t1 <= t2
    ensures Left(p, MoveCounter(p, c, t2)) >= Left(p, MoveCounter(p, c, t1))
  {}

  lemma NormalizedCounter(e: Entitlement, now: int, id: string)
    requires ValidEntitlement(e)
    ensures var n := Normalized(e, now);
            && n.plan == e.plan
            && Renewed(e, now).plan == e.plan
            && (FindProduct(Products(e), id).Some? ==>
                  id in n.counters &&
                  n.counters[id] == MoveCounter(FindProduct(Products(e), id).value, CounterOf(Renewed(e, now).counters, id, Renewed(e, now).periodStart), now))
  {
    CountersMoveOnce(Products(e), Renewed(e, now).counters, Renewed(e, now).periodStart, now, id);
  }

  lemma NormalizedKeepsLimits(e: Entitlement, now: int)
    requires InLimits(e)
    ensures InLimits(Normalized(e, now))
  {
    hide MoveCounter, Within, Left, MoveCounters;
    var n := Normalized(e, now);
    NormalizedCounter(e, now, "");
    forall id: string | id in n.counters && FindProduct(Products(n), id).Some?
      ensures Within(FindProduct(Products(n), id).value, n.counters[id])
    {
      NormalizedCounter(e, now, id);
      var p := FindProduct(Products(e), id).value;
      FreshIsWithin(p, Renewed(e, now).periodStart);
      MovingKeepsLimits(p, CounterOf(Renewed(e, now).counters, id, Renewed(e, now).periodStart), now);
    }
  }

  lemma FreshIsWithin(p: Product, start: int)
    ensures Within(p, FreshCounter(start))
    ensures forall c :: Within(p, c) ==> Left(p, FreshCounter(start)) >= Left(p, c)
  {}

  /** Later looks leave no less of the allowance. */
  lemma LaterLeavesMore(e: Entitlement, id: string, t1: int, t2: int)
    requires InLimits(e) && t1 <= t2
    ensures LeftIn(Normalized(e, t2), id) >= LeftIn(Normalized(e, t1), id)
    ensures LeftIn(Normalized(e, t1), id) >= LeftIn(e, id)
  {
    hide MoveCounter, Within, Left, MoveCounters;
    NormalizedCounter(e, t1, id);
    NormalizedCounter(e, t2, id);
    if FindProduct(Products(e), id).Some? {
      var p := FindProduct(Products(e), id).value;
      var c := CounterOf(e.counters, id, e.periodStart);
      var c1 := CounterOf(Renewed(e, t1).counters, id, Renewed(e, t1).periodStart);
      var c2 := CounterOf(Renewed(e, t2).counters, id, Renewed(e, t2).periodStart);
      FreshIsWithin(p, Renewed(e, t1).periodStart);
      FreshIsWithin(p, Renewed(e, t2).periodStart);
      FreshIsWithin(p, e.periodStart);
      MovingKeepsLimits(p, c1, t1);
      MovingKeepsLimits(p, c2, t2);
      if Renews(e, t2) {
        MovingKeepsLimits(p, FreshCounter(Renewed(e, t2).periodStart), t2);
      } else {
        assert !Renews(e, t1);
        MovingLaterLeavesMore(p, c, t1, t2);
      }
    }
  }

  lemma {:induction false} HeldFalls(holds: seq<Hold>, id: string, t1: int, t2: int)
    requires t1 <= t2
    ensures Held(holds, id, t2) <= Held(holds, id, t1)
  {
    if holds != [] {
      HeldFalls(holds[..|holds| - 1], id, t1, t2);
    }
  }

  /** The holds of every product are covered, once the account is brought to the present. */
  ghost predicate Covered(raw: Account, now: int) {
    var a := NormalizedAccount(raw, now);
    forall id: string :: Held(a.holds, id, now) <= AllowanceLeft(a, id, now) + Balance(a, id)
  }

  /** The entitlement that served at t1 is active and still the one that serves at t2. */
  predicate Steady(raw: Account, t1: int, t2: int) {
    var a, b := NormalizedAccount(raw, t1), NormalizedAccount(raw, t2);
    t1 <= t2 && OnGrant(a, t1) == OnGrant(b, t2) && Active(Effective(b, t2), t2)
  }

  lemma TimeKeepsCover(raw: Account, t1: int, t2: int)
    requires AccountInLimits(raw) && Covered(raw, t1) && Steady(raw, t1, t2)
    ensures Covered(raw, t2)
  {
    hide Normalized, LeftIn, AllowanceLeft, InLimits;
    var a, b := NormalizedAccount(raw, t1), NormalizedAccount(raw, t2);
    forall id: string
      ensures Held(b.holds, id, t2) <= AllowanceLeft(b, id, t2) + Balance(b, id)
    {
      HeldFalls(raw.holds, id, t1, t2);
      AllowanceIsLeft(a, id, t1);
      AllowanceIsLeft(b, id, t2);
      LaterLeavesMore(raw.own, id, t1, t2);
      if raw.grant.Some? {
        LaterLeavesMore(raw.grant.value, id, t1, t2);
      }
      assert Held(a.holds, id, t1) <= AllowanceLeft(a, id, t1) + Balance(a, id);
    }
  }

  // ---- what a charge takes ----

  ghost predicate Solvent(a: Account) {
    forall id: string :: Balance(a, id) >= 0
  }

  /** Limits and balances are kept, and the entitlements are those of the present. */
  ghost predicate Good(a: Account, now: int) {
    AccountInLimits(a) && Solvent(a) && !Renews(a.own, now) && (a.grant.Some? ==> !Renews(a.grant.value, now))
  }

  /** The cover of an account that is at the present already. */
  ghost predicate DirectCover(a: Account, now: int) {
    forall id: string :: Held(a.holds, id, now) <= AllowanceLeft(a, id, now) + Balance(a, id)
  }

  /** The same entitlement serves, for the same period. */
  predicate SameServing(a: Account, b: Account, now: int) {
    var e, f := Effective(a, now), Effective(b, now);
    OnGrant(a, now) == OnGrant(b, now) && Active(e, now) == Active(f, now) &&
    (Active(e, now) ==> e == f.(counters := e.counters))
  }

  lemma ChargedLeaves(p: Product, c: Counter, credits: nat)
    requires Within(p, c) && credits <= Left(p, c)
    ensures Within(p, Charged(p, c, credits)) && Left(p, Charged(p, c, credits)) == Left(p, c) - credits
  {}

  /** One counter of the serving entitlement replaced by one that leaves `taken` credits less. */
  lemma WithCounterLeaves(a: Account, id: string, c: Counter, taken: nat, now: int)
    requires AccountInLimits(a) && id in Effective(a, now).counters
    requires var p := FindProduct(Products(Effective(a, now)), id);
             p.Some? && Within(p.value, c) && Left(p.value, c) == Left(p.value, Effective(a, now).counters[id]) - taken
    ensures var b := WithCounter(a, now, id, c);
            && AccountInLimits(b) && SameServing(a, b, now)
            && (forall other: string :: LeftIn(Effective(b, now), other) == LeftIn(Effective(a, now), other) - if other == id then taken else 0)
            && b.balances == a.balances && b.holds == a.holds
            && b.own == a.own.(counters := b.own.counters)
            && (a.grant.None? ==> b.grant.None?)
            && (a.grant.Some? ==> b.grant.Some? && b.grant.value == a.grant.value.(counters := b.grant.value.counters))
  {
    hide Left, Within;
  }

  lemma CountedLeaves(p: Product, c: Counter, rateId: string, credits: int)
    requires Within(p, c)
    ensures Within(p, Counted(p, c, rateId, credits)) && Left(p, Counted(p, c, rateId, credits)) == Left(p, c)
  {}

  lemma TakenLeaves(a: Account, id: string, fromAllowance: nat, cap: Option<RateCap>, counted: int, now: int)
    requires AccountInLimits(a) && fromAllowance <= AllowanceLeft(a, id, now)
    ensures var b := CountRate(TakeAllowance(a, id, fromAllowance, now), id, cap, counted, now);
            && AccountInLimits(b) && SameServing(a, b, now)
            && (forall other: string :: AllowanceLeft(b, other, now) == AllowanceLeft(a, other, now) - if other == id then fromAllowance else 0)
            && b.balances == a.balances && b.holds == a.holds
            && b.own == a.own.(counters := b.own.counters)
            && (a.grant.None? ==> b.grant.None?)
            && (a.grant.Some? ==> b.grant.Some? && b.grant.value == a.grant.value.(counters := b.grant.value.counters))
  {
    hide Left, Within, Charged, Counted, AllowanceLeft, WithCounter, AccountInLimits;
    var e := Effective(a, now);
    var p := FindProduct(Products(e), id);
    var mid := TakeAllowance(a, id, fromAllowance, now);
    AllowanceIsLeft(a, id, now);
    if fromAllowance > 0 {
      CounterIsWithin(a, id, now);
      ChargedLeaves(p.value, e.counters[id], fromAllowance);
      LeftOfFound(e, id);
      WithCounterLeaves(a, id, Charged(p.value, e.counters[id], fromAllowance), fromAllowance, now);
    }
    var m := Effective(mid, now);
    var q := FindProduct(Products(m), id);
    if cap.Some? && counted > 0 && Active(m, now) && q.Some? && id in m.counters {
      CounterIsWithin(mid, id, now);
      CountedLeaves(q.value, m.counters[id], cap.value.rateId, counted);
      WithCounterLeaves(mid, id, Counted(q.value, m.counters[id], cap.value.rateId, counted), 0, now);
    }
    var b := CountRate(mid, id, cap, counted, now);
    forall other: string
      ensures AllowanceLeft(b, other, now) == AllowanceLeft(a, other, now) - if other == id then fromAllowance else 0
    {
      AllowanceIsLeft(a, other, now);
      AllowanceIsLeft(b, other, now);
    }
  }

  lemma LeftOfFound(e: Entitlement, id: string)
    requires FindProduct(Products(e), id).Some? && id in e.counters
    ensures LeftIn(e, id) == Left(FindProduct(Products(e), id).value, e.counters[id])
  {}

  lemma CounterIsWithin(a: Account, id: string, now: int)
    requires AccountInLimits(a) && id in Effective(a, now).counters && FindProduct(Products(Effective(a, now)), id).Some?
    ensures Within(FindProduct(Products(Effective(a, now)), id).value, Effective(a, now).counters[id])
  {}

  /** A charge out of what is spendable leaves every hold covered and every balance non-negative. */
  lemma TakenIsGood(a: Account, id: string, fromAllowance: nat, fromBalance: nat, cap: Option<RateCap>, counted: int, now: int)
    requires Good(a, now) && fromAllowance <= AllowanceLeft(a, id, now)
    requires fromBalance <= Balance(a, id) && fromAllowance + fromBalance <= Spendable(a, id, now)
    ensures var b := Taken(a, id, fromAllowance, fromBalance, cap, counted, now);
            Good(b, now) && SameServing(a, b, now) && (DirectCover(a, now) ==> DirectCover(b, now))
  {
    hide AllowanceLeft, AccountInLimits, CountRate, TakeAllowance, Held;
    TakenLeaves(a, id, fromAllowance, cap, counted, now);
    var m := CountRate(TakeAllowance(a, id, fromAllowance, now), id, cap, counted, now);
    var b := Taken(a, id, fromAllowance, fromBalance, cap, counted, now);
    SameLeft(m, b, now);
    forall other: string
      ensures Balance(b, other) == Balance(a, other) - (if other == id then fromBalance else 0) >= 0
    {
      assert Balance(a, other) >= 0;
    }
    if DirectCover(a, now) {
      forall other: string
        ensures Held(b.holds, other, now) <= AllowanceLeft(b, other, now) + Balance(b, other)
      {
        assert Held(a.holds, other, now) <= AllowanceLeft(a, other, now) + Balance(a, other);
      }
    }
  }

  /** Fields that decide what may be charged. */
  predicate SameService(a: Account, b: Account) {
    a.own == b.own && a.grant == b.grant && a.balances == b.balances && a.holds == b.holds
  }

  lemma SameLeft(a: Account, b: Account, now: int)
    requires a.own == b.own && a.grant == b.grant
    ensures AccountInLimits(a) == AccountInLimits(b) && SameServing(a, b, now)
    ensures forall id: string :: AllowanceLeft(a, id, now) == AllowanceLeft(b, id, now)
  {}

  lemma SameServiceIsGood(a: Account, b: Account, now: int)
    requires SameService(a, b)
    ensures Good(a, now) == Good(b, now) && SameServing(a, b, now) && DirectCover(a, now) == DirectCover(b, now)
  {
    hide AllowanceLeft, AccountInLimits, Held;
    SameLeft(a, b, now);
    forall id: string
      ensures Balance(a, id) == Balance(b, id)
    {}
  }

  // ---- the stages of an operation ----

  lemma {:induction false} PostWindowsService(d: Draft, entries: seq<Pending>, now: int)
    ensures SameService(PostWindows(d, entries, now).account, d.account)
  {
    hide Spendable, ApplyTotals;
    if entries != [] {
      PostWindowsService(d, entries[..|entries| - 1], now);
    }
  }

  lemma SettledService(raw: Account, data: Account, now: int)
    ensures SameService(SettleWindows(raw, data, now).account, data)
  {
    hide RolledOver, CurrentWindows;
    var rolled := RolledOver(raw.windows, CurrentWindows(data, now), SettledCounters(raw), now);
    PostWindowsService(Draft(data.(windows := rolled.state), []), rolled.entries, now);
  }

  lemma {:induction false} PostExpiredService(d: Draft, expired: seq<Hold>, now: int)
    ensures SameService(PostExpired(d, expired, now).account, d.account)
  {
    hide Spendable, ApplyTotals;
    if expired != [] {
      PostExpiredService(d, expired[..|expired| - 1], now);
    }
  }

  lemma {:induction false} LiveHoldsAreHeld(holds: seq<Hold>, id: string, now: int)
    ensures Held(LiveHolds(holds, now), id, now) == Held(holds, id, now)
  {
    if holds != [] {
      var front, last := holds[..|holds| - 1], holds[|holds| - 1];
      LiveHoldsAreHeld(front, id, now);
      var live := LiveHolds(front, now);
      assert (live + [last])[..|live|] == live;
      assert live + [] == live;
    }
  }

  lemma {:induction false} HeldOfConcatenation(a: seq<Hold>, b: seq<Hold>, id: string, now: int)
    ensures Held(a + b, id, now) == Held(a, id, now) + Held(b, id, now)
  {
    if b == [] {
      assert a + b == a;
    } else {
      assert (a + b)[..|a + b| - 1] == a + b[..|b| - 1];
      HeldOfConcatenation(a, b[..|b| - 1], id, now);
    }
  }

  lemma HeldOfOne(h: Hold, id: string, now: int)
    ensures Held([h], id, now) == if h.productId == id && Live(h, now) then h.credits else 0
  {
    assert [h][..0] == [];
  }

  /** Dropping the hold of a key frees exactly what it held. */
  lemma {:induction false} DroppedFrees(holds: seq<Hold>, key: string, id: string, now: int)
    ensures var h := FindHold(holds, key);
            Held(WithoutHold(holds, key), id, now) ==
            Held(holds, id, now) - if h.Some? && h.value.productId == id && Live(h.value, now) then h.value.credits else 0
  {
    if holds != [] {
      var h, rest := holds[0], holds[1..];
      assert holds == [h] + rest;
      HeldOfConcatenation([h], rest, id, now);
      HeldOfOne(h, id, now);
      if h.key != key {
        DroppedFrees(rest, key, id, now);
        HeldOfConcatenation([h], WithoutHold(rest, key), id, now);
      }
    }
  }

  /** Fewer credits held: whatever was covered still is. */
  lemma FewerHoldsAreGood(a: Account, holds: seq<Hold>, now: int)
    requires forall id: string :: Held(holds, id, now) <= Held(a.holds, id, now)
    ensures var b := a.(holds := holds);
            && (Good(a, now) ==> Good(b, now)) && SameServing(a, b, now)
            && (DirectCover(a, now) ==> DirectCover(b, now))
  {
    hide AllowanceLeft, AccountInLimits, Held;
    var b := a.(holds := holds);
    SameLeft(a, b, now);
    forall id: string
      ensures Balance(a, id) == Balance(b, id)
    {}
    if DirectCover(a, now) {
      forall id: string
        ensures Held(b.holds, id, now) <= AllowanceLeft(b, id, now) + Balance(b, id)
      {
        assert Held(a.holds, id, now) <= AllowanceLeft(a, id, now) + Balance(a, id);
      }
    }
  }

  lemma SweptIsGood(d: Draft, now: int)
    ensures var b := Swept(d, now).account;
            && (Good(d.account, now) ==> Good(b, now)) && SameServing(d.account, b, now)
            && (DirectCover(d.account, now) ==> DirectCover(b, now))
  {
    hide Good, DirectCover, PostExpired, LiveHolds, ExpiredHolds, OnGrant, Active, Effective;
    var live := LiveHolds(d.account.holds, now);
    var a := d.account.(holds := live);
    PostExpiredService(d.(account := a), ExpiredHolds(d.account.holds, now), now);
    forall id: string
      ensures Held(live, id, now) <= Held(d.account.holds, id, now)
    {
      LiveHoldsAreHeld(d.account.holds, id, now);
    }
    FewerHoldsAreGood(d.account, live, now);
    SameServiceIsGood(Swept(d, now).account, a, now);
  }

  // ---- bringing the account to the present ----

  lemma NormalizedIsPresent(e: Entitlement, now: int)
    ensures !Renews(Normalized(e, now), now)
  {
    if Renews(e, now) {
      assert now - e.periodStart == (now - e.periodStart) / Step(e) * Step(e) + (now - e.periodStart) % Step(e);
    }
  }

  lemma NormalizedIsGood(raw: Account, now: int)
    requires AccountInLimits(raw) && Solvent(raw)
    ensures Good(NormalizedAccount(raw, now), now)
  {
    hide Normalized, InLimits;
    NormalizedIsPresent(raw.own, now);
    NormalizedKeepsLimits(raw.own, now);
    if raw.grant.Some? {
      NormalizedIsPresent(raw.grant.value, now);
      NormalizedKeepsLimits(raw.grant.value, now);
    }
    var a := NormalizedAccount(raw, now);
    forall id: string
      ensures Balance(a, id) == Balance(raw, id)
    {}
  }

  lemma OpenedIsGood(raw: Account, now: int)
    requires AccountInLimits(raw) && Solvent(raw)
    ensures var a, b := NormalizedAccount(raw, now), Opened(raw, now).account;
            Good(b, now) && SameServing(a, b, now) && (DirectCover(a, now) ==> DirectCover(b, now))
  {
    hide NormalizedAccount, SettleWindows, AccountInLimits, Solvent, DirectCover, Good, OnGrant, Active, Effective;
    NormalizedIsGood(raw, now);
    SettledService(raw, NormalizedAccount(raw, now), now);
    SameServiceIsGood(Opened(raw, now).account, NormalizedAccount(raw, now), now);
  }

  /** An account that is at the present keeps its cover when it is looked at. */
  lemma PresentCover(a: Account, now: int)
    requires Good(a, now) && DirectCover(a, now)
    ensures Covered(a, now) && SameServing(a, NormalizedAccount(a, now), now)
  {
    hide LeftIn, AllowanceLeft, MoveCounters, Held;
    var b := NormalizedAccount(a, now);
    assert SameServing(a, b, now);
    forall id: string
      ensures Held(b.holds, id, now) <= AllowanceLeft(b, id, now) + Balance(b, id)
    {
      AllowanceIsLeft(a, id, now);
      AllowanceIsLeft(b, id, now);
      LaterLeavesMore(a.own, id, now, now);
      if a.grant.Some? {
        LaterLeavesMore(a.grant.value, id, now, now);
      }
      assert Held(a.holds, id, now) <= AllowanceLeft(a, id, now) + Balance(a, id);
    }
  }
}
