/**
  Where the two ways through the weeks meet: the expiry that the statement owes reports exactly the
  idle windows between the week it holds open and the one that the usage counters jump to.
*/
module IdleExpiries {
  import opened Prelude
  import opened Plans
  import opened Windows
  import opened IdleWalk
  import opened Rollover
  import opened Conservation
  import opened Accounts
  import opened BalanceLaw

  /** An account that was settled at `since` and whose entitlement still serves at `now`, on its own windows. */
  ghost predicate OnItsWindows(raw: Account, since: int, now: int, id: string) {
    var e, data := Effective(raw, since), NormalizedAccount(raw, now);
    && Sound(raw) && Tracked(raw, since) && Active(e, since)
    && OnGrant(data, now) == OnGrant(raw, since) && Active(Effective(data, now), now)
    && InPeriod(e, now) && FindProduct(Products(e), id).Some?
    && Regular(e, FindProduct(Products(e), id).value) && (id in e.counters ==> e.counters[id].weekStart <= now)
  }

  /** The window that the statement holds open, and the one that the counters jump to. */
  lemma BothWindows(raw: Account, since: int, now: int, id: string)
    requires OnItsWindows(raw, since, now, id)
    ensures FindProduct(Products(Effective(raw, since)), id).Some?
    ensures var e := Effective(raw, since);
            var current, p := CurrentWindows(NormalizedAccount(raw, now), now), FindProduct(Products(e), id).value;
            && Continuing(raw.windows, current) && WindowOf(raw.windows, id).Some?
            && var w := WindowOf(raw.windows, id).value;
               && w.id == id && w.allowance == p.weeklyLimit && w.weekSeconds == p.weekSeconds && IsWindowStart(LatticeOf(e, p), w.start)
               && ProductOf(current, id) == Some(CurrentProduct(id, p.weeklyLimit, p.weekSeconds, WindowStart(LatticeOf(e, p), now)))
               && current.value.periodMs == Step(e) && current.value.periodStart == e.periodStart + (now - e.periodStart) / Step(e) * Step(e)
               && w.start <= WindowStart(LatticeOf(e, p), now) <= now && IsWindowStart(LatticeOf(e, p), WindowStart(LatticeOf(e, p), now))
  {
    hide WindowStart, WindowIndex, Following, IsWindowStart, NormalizedAccount, StoredWindows, WindowIn, CurrentIn, Tracked, OnGrant, CurrentProducts, InPeriod, Regular, Sound;
    var e := Effective(raw, since);
    var p := FindProduct(Products(e), id).value;
    StoredWindowOf(raw, since, id);
    CurrentWindowOf(raw, since, now, id);
    StoredStart(e, p, now);
    StartsInOrder(LatticeOf(e, p), WindowOf(raw.windows, id).value.start, now);
  }

  /** The window that was settled: of the week the counter counts. */
  lemma StoredWindowOf(raw: Account, since: int, id: string)
    requires Sound(raw) && Tracked(raw, since) && Active(Effective(raw, since), since) && FindProduct(Products(Effective(raw, since)), id).Some?
    ensures var e := Effective(raw, since);
            var p, w := FindProduct(Products(e), id).value, WindowOf(raw.windows, id);
            && raw.windows.Some? && raw.windows.value.key == WindowKey(OnGrant(raw, since), e.plan.value.id) && w.Some?
            && w.value == Window(id, if id in e.counters then e.counters[id].weekStart else e.periodStart, p.weeklyLimit, p.weekSeconds)
  {
    hide StoredWindows, FindProduct, CurrentIn, WindowIn;
    var e := Effective(raw, since);
    CurrentIsValid(raw, since);
    CurrentProductFound(e.plan.value.products, e, id);
    StoredLookup(CurrentProducts(e.plan.value.products, e), id);
  }

  /** The window of the present, by division. */
  lemma CurrentWindowOf(raw: Account, since: int, now: int, id: string)
    requires OnItsWindows(raw, since, now, id)
    ensures var e := Effective(raw, since);
            var p, current := FindProduct(Products(e), id).value, CurrentWindows(NormalizedAccount(raw, now), now);
            && current.Some? && current.value.key == WindowKey(OnGrant(raw, since), e.plan.value.id)
            && ProductOf(current, id) == Some(CurrentProduct(id, p.weeklyLimit, p.weekSeconds, WindowStart(LatticeOf(e, p), now)))
            && current.value.periodMs == Step(e) && current.value.periodStart == e.periodStart + (now - e.periodStart) / Step(e) * Step(e)
  {
    hide WindowStart, WindowIndex, Following, Normalized, Tracked, Sound, CurrentIn;
    var e := Effective(raw, since);
    NormalizedLandsOnTheLattice(e, FindProduct(Products(e), id).value, now);
    assert Effective(NormalizedAccount(raw, now), now) == Normalized(e, now);
    CurrentProductFound(Products(e), Normalized(e, now), id);
  }

  /** The stored week stands on the lattice, not after the present. */
  lemma StoredStart(e: Entitlement, p: Product, now: int)
    requires Regular(e, p) && InPeriod(e, now) && (p.id in e.counters ==> e.counters[p.id].weekStart <= now)
    ensures var l, s := LatticeOf(e, p), if p.id in e.counters then e.counters[p.id].weekStart else e.periodStart;
            && IsWindowStart(l, s) && s <= now && WindowStart(l, now) <= now && IsWindowStart(l, WindowStart(l, now))
  {
    hide WindowStart, WindowIndex, Following;
    OriginIsAStart(LatticeOf(e, p));
    FollowingIsNext(LatticeOf(e, p), now);
  }

  lemma StartsInOrder(l: Lattice, s: int, now: int)
    requires IsWindowStart(l, s) && s <= now
    ensures s <= WindowStart(l, now)
  {
    hide WindowStart, WindowIndex, Following;
    FollowingIsNext(l, now);
    if WindowStart(l, now) < s {
      IndexIsStrict(l, WindowStart(l, now), s);
    }
  }

  /**
    A rollover of such an account: the window stays open exactly when the present is still in it.
    Otherwise the entries report what was left of it and, up to the bound of the walk, every whole
    window in between.
  */
  lemma RolloverReportsIdleWindows(raw: Account, since: int, now: int, id: string)
    requires OnItsWindows(raw, since, now, id)
    ensures WindowOf(raw.windows, id).Some? && FindProduct(Products(Effective(raw, since)), id).Some?
    ensures var e, current := Effective(raw, since), CurrentWindows(NormalizedAccount(raw, now), now);
            var w, l := WindowOf(raw.windows, id).value, LatticeOf(e, FindProduct(Products(e), id).value);
            var es := RolledOver(raw.windows, current, SettledCounters(raw), now).entries;
            && (Kept(raw.windows, current, id) <==> now < Following(l, w.start))
            && (Kept(raw.windows, current, id) ==> Total(es, Unused(id)) == Total(es, Skipped(id)) == 0)
            && (!Kept(raw.windows, current, id) ==>
                  && Total(es, Unused(id)) == Max(0, w.allowance - UsedIn(raw, id))
                  && Total(es, Skipped(id)) == Min(MAX_SKIPPED, IdleWindows(l, w.start, WindowStart(l, now))) * w.allowance)
  {
    hide WindowStart, WindowIndex, Following, MoveCounters, NormalizedAccount, StoredWindows, WindowIn, CurrentIn, RolledOver, Walk, OnItsWindows, Close, Opening;
    var e, data := Effective(raw, since), NormalizedAccount(raw, now);
    var current, counters := CurrentWindows(data, now), SettledCounters(raw);
    BothWindows(raw, since, now, id);
    SoundNow(raw, since, now, id);
    RolledTotal(raw.windows, current, counters, now, id, Unused(id));
    RolledTotal(raw.windows, current, counters, now, id, Skipped(id));
    var w, p := WindowOf(raw.windows, id).value, FindProduct(Products(e), id).value;
    var l := LatticeOf(e, p);
    WindowEnds(l, w.start, now);
    ClosesWithIdle(raw.windows.value.key, w, current.value, ProductOf(current, id).value, counters, now, l, (now - e.periodStart) / Step(e));
    OpensQuietly(raw.windows, current, now, id);
  }

  lemma SoundNow(raw: Account, since: int, now: int, id: string)
    requires OnItsWindows(raw, since, now, id)
    ensures ValidState(raw.windows) && ValidCurrent(CurrentWindows(NormalizedAccount(raw, now), now))
  {
    hide NormalizedAccount, Regular, InPeriod;
    NormalizedPlans(raw, now);
    CurrentIsValid(NormalizedAccount(raw, now), now);
  }

  /** The present is still in a window exactly when it has not reached the next. */
  lemma WindowEnds(l: Lattice, s: int, now: int)
    requires IsWindowStart(l, s) && s <= now
    ensures WindowStart(l, now) == s <==> now < Following(l, s)
  {
    hide WindowStart, WindowIndex, Following;
    FollowingIsNext(l, s);
    FollowingIsNext(l, now);
    if WindowStart(l, now) != s {
      StartsInOrder(l, s, now);
      IndexIsStrict(l, s, WindowStart(l, now));
    }
  }

  /** The expiry of a window that closed, on the lattice of the period it began in. */
  lemma ClosesWithIdle(key: WindowKey, w: Window, current: CurrentWindow, next: CurrentProduct, counters: map<string, Counter>, now: int, l: Lattice, k: int)
    requires CurrentIn(current.products, w.id) == Some(next) && w.start <= next.start
    requires IsWindowStart(l, w.start) && IsWindowStart(l, next.start)
    requires WeeksOf(current, w) == l.(origin := l.origin + k * l.period)
    ensures var e := Close(key, w, Some(current), true, counters, now);
            && (w.start == next.start ==> e.None?)
            && (w.start < next.start ==>
                  && (if e.Some? then Unused(w.id)(e.value) else 0) == Max(0, w.allowance - Used(counters, w.id, w.start))
                  && (if e.Some? then Skipped(w.id)(e.value) else 0) == Min(MAX_SKIPPED, IdleWindows(l, w.start, next.start)) * w.allowance)
  {
    hide WindowStart, WindowIndex, Following, Walk;
    ShiftedOrigin(l, k, w.start);
    ShiftedOrigin(l, k, next.start);
    if w.start < next.start {
      ExpiryCountsIdleWindows(key, w, current, next, counters, now);
      IndexIsStrict(l, w.start, next.start);
      ProductSign(Min(MAX_SKIPPED, IdleWindows(l, w.start, next.start)), w.allowance);
    }
  }

  lemma OpensQuietly(previous: Option<WindowState>, current: Option<CurrentWindow>, now: int, id: string)
    ensures var o := OpeningOf(previous, current, now, id); o.Some? ==> Unused(id)(o.value) == 0 && Skipped(id)(o.value) == 0
  {}
}
