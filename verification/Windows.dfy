/**
  Lazy renewal and window moves (`normalized` in rt-app/core-go/subscriptions/accounts.go): an
  account is brought to the present by floor division, whenever it is next looked at.
*/
module Windows {
  import opened Prelude
  import opened Plans

  /** The start of the window that holds `now`, for windows of `width` that follow `start`. */
  function Moved(start: int, width: Positive, now: int): int {
    if now >= start + width then start + (now - start) / width * width else start
  }

  function ResetDay(rates: map<string, RateCount>): map<string, RateCount> {
    map r | r in rates :: rates[r].(day := 0)
  }

  function ResetWeek(rates: map<string, RateCount>): map<string, RateCount> {
    map r | r in rates :: rates[r].(week := 0)
  }

  function ResetShort(rates: map<string, RateCount>): map<string, RateCount> {
    map r | r in rates :: if rates[r].short.Some? then rates[r].(short := Some(0)) else rates[r]
  }

  function MoveDay(p: Product, c: Counter, now: int): Counter {
    if now >= c.dayStart + p.daySeconds * 1000 then
      c.(dayStart := Moved(c.dayStart, p.daySeconds * 1000, now), day := 0, rates := ResetDay(c.rates))
    else c
  }

  function MoveWeek(p: Product, c: Counter, now: int): Counter {
    if now >= c.weekStart + p.weekSeconds * 1000 then
      c.(weekStart := Moved(c.weekStart, p.weekSeconds * 1000, now), week := 0, rates := ResetWeek(c.rates))
    else c
  }

  predicate ShortEnded(p: Product, c: Counter, now: int) {
    p.short.Some? && (c.shortStart.None? || now >= c.shortStart.value + p.short.value.seconds * 1000)
  }

  /** The short window starts with the first use after the previous one ended. */
  function MoveShort(p: Product, c: Counter, now: int): Counter {
    if ShortEnded(p, c, now) then c.(shortStart := Some(now), short := 0, rates := ResetShort(c.rates)) else c
  }

  function MoveCounter(p: Product, c: Counter, now: int): Counter {
    MoveShort(p, MoveWeek(p, MoveDay(p, c, now), now), now)
  }

  function FreshCounter(periodStart: int): Counter {
    Counter(0, 0, 0, 0, periodStart, periodStart, None, map[])
  }

  predicate Renews(e: Entitlement, now: int) {
    e.mode == Unpaid && e.plan.Some? && e.active && !e.cancelAtPeriodEnd && now >= e.periodEnd
  }

  function Step(e: Entitlement): Positive
    requires e.plan.Some?
  {
    e.plan.value.periodDays * DAY
  }

  /** An unpaid plan renews itself: the period that holds `now`, with empty counters. */
  function Renewed(e: Entitlement, now: int): Entitlement {
    if Renews(e, now) then
      var start := e.periodStart + (now - e.periodStart) / Step(e) * Step(e);
      e.(periodStart := start, periodEnd := start + Step(e), counters := map[])
    else e
  }

  function CounterOf(counters: map<string, Counter>, id: string, periodStart: int): Counter {
    if id in counters then counters[id] else FreshCounter(periodStart)
  }

  /** The counters after the first products of a plan were visited in order. */
  function MoveCounters(products: seq<Product>, counters: map<string, Counter>, periodStart: int, now: int): map<string, Counter> {
    if products == [] then counters
    else
      var before := MoveCounters(products[..|products| - 1], counters, periodStart, now);
      var p := products[|products| - 1];
      before[p.id := MoveCounter(p, CounterOf(before, p.id, periodStart), now)]
  }

  function Normalized(e: Entitlement, now: int): Entitlement {
    var r := Renewed(e, now);
    r.(counters := MoveCounters(Products(r), r.counters, r.periodStart, now))
  }

  /** The loop body of `normalized`: the windows of one product, moved in the source's order. */
  method MoveWindows(p: Product, counter: Counter, now: int) returns (c: Counter)
    ensures c == MoveCounter(p, counter, now)
  {
    c := counter;
    if now >= c.dayStart + p.daySeconds * 1000 {
      var width := p.daySeconds * 1000;
      c := c.(dayStart := c.dayStart + (now - c.dayStart) / width * width, day := 0, rates := ResetDay(c.rates));
    }
    if now >= c.weekStart + p.weekSeconds * 1000 {
      var width := p.weekSeconds * 1000;
      c := c.(weekStart := c.weekStart + (now - c.weekStart) / width * width, week := 0, rates := ResetWeek(c.rates));
    }
    if p.short.Some? && (c.shortStart.None? || now >= c.shortStart.value + p.short.value.seconds * 1000) {
      c := c.(short := 0, shortStart := Some(now), rates := ResetShort(c.rates));
    }
  }

  /** `normalized` as the source runs it: renew, then visit the products one by one. */
  method Normalize(e: Entitlement, now: int) returns (next: Entitlement)
    ensures next == Normalized(e, now)
  {
    next := e;
    if next.mode == Unpaid && next.plan.Some? && next.active && !next.cancelAtPeriodEnd && now >= next.periodEnd {
      var step := next.plan.value.periodDays * DAY;
      var periods := (now - next.periodStart) / step;
      var start := next.periodStart + periods * step;
      next := next.(periodStart := start, periodEnd := start + step, counters := map[]);
    }
    ghost var r := next;
    var products := Products(next);
    for i := 0 to |products|
      invariant next == r.(counters := MoveCounters(products[..i], r.counters, r.periodStart, now))
    {
      var p := products[i];
      assert products[..i + 1][..i] == products[..i];
      var c := MoveWindows(p, CounterOf(next.counters, p.id, next.periodStart), now);
      next := next.(counters := next.counters[p.id := c]);
    }
    assert products[..|products|] == products;
  }

  // ---- what the visit of the products computes ----

  /** One product per id: each counter moves once, the others keep their value. */
  lemma {:induction false} CountersMoveOnce(products: seq<Product>, counters: map<string, Counter>, periodStart: int, now: int, id: string)
    requires Distinct(ProductIds(products))
    ensures var after := MoveCounters(products, counters, periodStart, now);
            var p := FindProduct(products, id);
            if p.Some? then id in after && after[id] == MoveCounter(p.value, CounterOf(counters, id, periodStart), now)
            else Lookup(after, id) == Lookup(counters, id)
  {
    if products != [] {
      var n := |products| - 1;
      var front := products[..n];
      var last := products[n];
      assert forall i :: 0 <= i < n ==> ProductIds(front)[i] == ProductIds(products)[i];
      assert last.id == ProductIds(products)[n];
      assert last.id !in ProductIds(front);
      FoundInFrontOrLast(products, id);
      CountersMoveOnce(front, counters, periodStart, now, id);
      CountersMoveOnce(front, counters, periodStart, now, last.id);
    }
  }

  lemma {:induction false} FoundInFrontOrLast(products: seq<Product>, id: string)
    requires products != []
    ensures var front := products[..|products| - 1];
            FindProduct(products, id) ==
            if FindProduct(front, id).Some? then FindProduct(front, id)
            else if products[|products| - 1].id == id then Some(products[|products| - 1]) else None
  {
    if |products| > 1 {
      FoundInFrontOrLast(products[1..], id);
      assert products[1..][..|products| - 2] == products[..|products| - 1][1..];
    }
  }

  // ---- path independence ----

  lemma DivisionShifts(x: int, k: int, w: Positive)
    ensures (x - k * w) / w == x / w - k
  {
    var q, r := x / w, x % w;
    assert x - k * w == (q - k) * w + r;
    QuotientIs(x - k * w, w, q - k, r);
  }

  lemma QuotientIs(x: int, w: Positive, q: int, r: int)
    requires x == q * w + r && 0 <= r < w
    ensures x / w == q && x % w == r
  {
    var d := x / w - q;
    assert x == x / w * w + x % w;
    assert d * w == r - x % w;
    assert d >= 1 ==> d * w >= w;
    assert d <= -1 ==> d * w + w <= 0;
  }

  /** A window is moved to the one that holds the present. */
  lemma MovedBrackets(start: int, width: Positive, now: int)
    requires start <= now
    ensures Moved(start, width, now) <= now < Moved(start, width, now) + width
    ensures start <= Moved(start, width, now) && (Moved(start, width, now) - start) % width == 0
  {
    var q := (now - start) / width;
    assert now - start == q * width + (now - start) % width;
    QuotientIs(q * width, width, q, 0);
    if now >= start + width {
      assert q <= 0 ==> q * width <= 0;
      assert q * width >= 0;
    } else {
      QuotientIs(now - start, width, 0, now - start);
    }
  }

  /** Looking at a window on the way does not change where it ends up. */
  lemma MovedTwice(start: int, width: Positive, t1: int, t2: int)
    requires t1 <= t2
    ensures Moved(Moved(start, width, t1), width, t2) == Moved(start, width, t2)
    ensures (t2 >= start + width) <==>
            (t1 >= start + width || t2 >= Moved(start, width, t1) + width)
  {
    if t1 >= start + width {
      var k := (t1 - start) / width;
      var mid := start + k * width;
      MovedBrackets(start, width, t1);
      DivisionShifts(t2 - start, k, width);
      if t2 < mid + width {
        QuotientIs(t2 - start, width, k, t2 - mid);
      }
    }
  }

  lemma DayMovesOnce(p: Product, c: Counter, t1: int, t2: int)
    requires t1 <= t2
    ensures MoveDay(p, MoveDay(p, c, t1), t2) == MoveDay(p, c, t2)
  {
    MovedTwice(c.dayStart, p.daySeconds * 1000, t1, t2);
    assert ResetDay(ResetDay(c.rates)) == ResetDay(c.rates);
  }

  lemma WeekMovesOnce(p: Product, c: Counter, t1: int, t2: int)
    requires t1 <= t2
    ensures MoveWeek(p, MoveWeek(p, c, t1), t2) == MoveWeek(p, c, t2)
  {
    MovedTwice(c.weekStart, p.weekSeconds * 1000, t1, t2);
    assert ResetWeek(ResetWeek(c.rates)) == ResetWeek(c.rates);
  }

  lemma DayAndWeekCommute(p: Product, c: Counter, t1: int, t2: int)
    ensures MoveDay(p, MoveWeek(p, c, t1), t2) == MoveWeek(p, MoveDay(p, c, t2), t1)
  {
    assert ResetDay(ResetWeek(c.rates)) == ResetWeek(ResetDay(c.rates));
  }

  lemma ShortCommutes(p: Product, c: Counter, t1: int, t2: int)
    ensures MoveDay(p, MoveShort(p, c, t1), t2) == MoveShort(p, MoveDay(p, c, t2), t1)
    ensures MoveWeek(p, MoveShort(p, c, t1), t2) == MoveShort(p, MoveWeek(p, c, t2), t1)
  {
    assert ResetDay(ResetShort(c.rates)) == ResetShort(ResetDay(c.rates));
    assert ResetWeek(ResetShort(c.rates)) == ResetShort(ResetWeek(c.rates));
  }

  /** The first look opens a short window that is still open at the second. */
  predicate Straddles(p: Product, c: Counter, t1: int, t2: int) {
    ShortEnded(p, c, t1) && t1 < t2 < t1 + p.short.value.seconds * 1000
  }

  lemma ShortMovesOnce(p: Product, c: Counter, t1: int, t2: int)
    requires t1 <= t2
    ensures MoveShort(p, MoveShort(p, c, t1), t2) == MoveShort(p, c, t2) <==> !Straddles(p, c, t1, t2)
    ensures Straddles(p, c, t1, t2) ==>
              MoveShort(p, MoveShort(p, c, t1), t2).shortStart != MoveShort(p, c, t2).shortStart
  {
    assert ResetShort(ResetShort(c.rates)) == ResetShort(c.rates);
  }

  lemma CounterMovesOnce(p: Product, c: Counter, t1: int, t2: int)
    requires t1 <= t2
    ensures MoveCounter(p, MoveCounter(p, c, t1), t2) == MoveCounter(p, c, t2) <==> !Straddles(p, c, t1, t2)
  {
    var day1 := MoveDay(p, c, t1);
    var week1 := MoveWeek(p, day1, t1);
    ShortCommutes(p, week1, t1, t2);
    ShortCommutes(p, MoveDay(p, week1, t2), t1, t2);
    DayAndWeekCommute(p, day1, t1, t2);
    DayMovesOnce(p, c, t1, t2);
    WeekMovesOnce(p, MoveDay(p, c, t2), t1, t2);
    ShortMovesOnce(p, MoveWeek(p, MoveDay(p, c, t2), t2), t1, t2);
  }

  lemma CountersMoveTwice(products: seq<Product>, counters: map<string, Counter>, periodStart: int, t1: int, t2: int)
    requires Distinct(ProductIds(products)) && t1 <= t2
    ensures MoveCounters(products, MoveCounters(products, counters, periodStart, t1), periodStart, t2) ==
            MoveCounters(products, counters, periodStart, t2) <==>
            forall p :: p in products ==> !Straddles(p, CounterOf(counters, p.id, periodStart), t1, t2)
  {
    var once := MoveCounters(products, counters, periodStart, t1);
    var twice := MoveCounters(products, once, periodStart, t2);
    var direct := MoveCounters(products, counters, periodStart, t2);
    forall id: string
      ensures FindProduct(products, id).None? ==> Lookup(twice, id) == Lookup(direct, id)
      ensures FindProduct(products, id).Some? ==>
                (Lookup(twice, id) == Lookup(direct, id) <==>
                 !Straddles(FindProduct(products, id).value, CounterOf(counters, id, periodStart), t1, t2))
    {
      CountersMoveOnce(products, counters, periodStart, t1, id);
      CountersMoveOnce(products, once, periodStart, t2, id);
      CountersMoveOnce(products, counters, periodStart, t2, id);
      var p := FindProduct(products, id);
      if p.Some? {
        CounterMovesOnce(p.value, CounterOf(counters, id, periodStart), t1, t2);
      }
    }
    forall p | p in products
      ensures FindProduct(products, p.id) == Some(p)
    {
      ProductIsFound(products, p);
    }
    if forall p :: p in products ==> !Straddles(p, CounterOf(counters, p.id, periodStart), t1, t2) {
      SameLookups(twice, direct);
    }
  }

  lemma SameLookups<V>(a: map<string, V>, b: map<string, V>)
    requires forall k: string :: Lookup(a, k) == Lookup(b, k)
    ensures a == b
  {
    forall k: string
      ensures k in a <==> k in b
      ensures k in a ==> a[k] == b[k]
    {
      assert Lookup(a, k) == Lookup(b, k);
    }
  }

  /** Dividing from a multiple of the step, or from the start, leads to the same multiple. */
  lemma DividedTwice(start: int, step: Positive, t1: int, t2: int)
    requires t1 <= t2
    ensures var mid := start + (t1 - start) / step * step;
            && mid + (t2 - mid) / step * step == start + (t2 - start) / step * step
            && (t2 < mid + step ==> (t2 - start) / step * step == mid - start)
            && mid <= t1 < mid + step
  {
    var k := (t1 - start) / step;
    var mid := start + k * step;
    assert t1 - start == k * step + (t1 - start) % step;
    DivisionShifts(t2 - start, k, step);
    assert ((t2 - start) / step - k) * step == (t2 - start) / step * step - k * step;
    if t2 < mid + step {
      QuotientIs(t2 - start, step, k, t2 - mid);
    }
  }

  lemma RenewedTwice(e: Entitlement, t1: int, t2: int)
    requires Renews(e, t1) && t1 <= t2
    ensures Renews(Renewed(e, t1), t2) ==> Renewed(Renewed(e, t1), t2) == Renewed(e, t2)
    ensures !Renews(Renewed(e, t1), t2) ==> Renewed(e, t1) == Renewed(e, t2)
  {
    DividedTwice(e.periodStart, Step(e), t1, t2);
    assert Step(Renewed(e, t1)) == Step(e);
  }

  /**
    Normalizing on the way does not change the outcome: renewals, window starts, counters and
    per-rate counters depend only on the last look. The one exception is a short window that the
    first look opens and the second still finds open, because it restarts at the look itself.
  */
  lemma NormalizationIsPathIndependent(e: Entitlement, t1: int, t2: int)
    requires ValidEntitlement(e) && t1 <= t2
    ensures Normalized(Normalized(e, t1), t2) == Normalized(e, t2) <==>
            || Renews(Normalized(e, t1), t2)
            || forall p :: p in Products(e) ==>
                 !Straddles(p, CounterOf(Renewed(e, t1).counters, p.id, Renewed(e, t1).periodStart), t1, t2)
  {
    var r1 := Renewed(e, t1);
    var n1 := Normalized(e, t1);
    if Renews(e, t1) {
      RenewedTwice(e, t1, t2);
      assert Renews(n1, t2) == Renews(r1, t2);
    }
    if !Renews(n1, t2) && e.plan.Some? {
      CountersMoveTwice(Products(e), r1.counters, r1.periodStart, t1, t2);
    }
  }

  /** A window of `width` from `start` that has not ended yet; it holds the present if it has started. */
  predicate NotEnded(start: int, width: int, now: int) {
    now < start + width
  }

  /**
    After normalization no window of a product of the plan has ended, and those that had started hold
    the present; a renewed period holds it in any case.
  */
  lemma NormalizedBracketsNow(e: Entitlement, now: int, p: Product)
    requires ValidEntitlement(e) && p in Products(e)
    ensures var n := Normalized(e, now);
            p.id in n.counters &&
            var before, c := CounterOf(Renewed(e, now).counters, p.id, Renewed(e, now).periodStart), n.counters[p.id];
            && NotEnded(c.dayStart, p.daySeconds * 1000, now) && (before.dayStart <= now <==> c.dayStart <= now)
            && NotEnded(c.weekStart, p.weekSeconds * 1000, now) && (before.weekStart <= now <==> c.weekStart <= now)
            && (p.short.Some? ==>
                  && c.shortStart.Some? && NotEnded(c.shortStart.value, p.short.value.seconds * 1000, now)
                  && (before.shortStart.None? || before.shortStart.value <= now <==> c.shortStart.value <= now))
    ensures Renews(e, now) ==> var n := Normalized(e, now); n.periodStart <= now < n.periodEnd
  {
    hide MoveCounters, MoveCounter;
    var r := Renewed(e, now);
    if Renews(e, now) {
      assert now - e.periodStart == (now - e.periodStart) / Step(e) * Step(e) + (now - e.periodStart) % Step(e);
    }
    ProductIsFound(Products(e), p);
    CountersMoveOnce(Products(e), r.counters, r.periodStart, now, p.id);
    CounterBrackets(p, CounterOf(r.counters, p.id, r.periodStart), now);
  }

  lemma CounterBrackets(p: Product, c: Counter, now: int)
    ensures var d := MoveCounter(p, c, now);
            && NotEnded(d.dayStart, p.daySeconds * 1000, now) && (c.dayStart <= now <==> d.dayStart <= now)
            && NotEnded(d.weekStart, p.weekSeconds * 1000, now) && (c.weekStart <= now <==> d.weekStart <= now)
            && (p.short.Some? ==>
                  && d.shortStart.Some? && NotEnded(d.shortStart.value, p.short.value.seconds * 1000, now)
                  && (c.shortStart.None? || c.shortStart.value <= now <==> d.shortStart.value <= now))
  {
    hide Moved, ResetDay, ResetWeek, ResetShort;
    if c.dayStart <= now {
      MovedBrackets(c.dayStart, p.daySeconds * 1000, now);
    }
    if c.weekStart <= now {
      MovedBrackets(c.weekStart, p.weekSeconds * 1000, now);
    }
    assert now < c.dayStart ==> MoveDay(p, c, now) == c;
  }

  /** What a window counts after a look: nothing when it has ended, else what it counted before. */
  function UsedAfter(ended: bool, used: int): int {
    if ended then 0 else used
  }

  /**
    A window that has ended begins anew, with nothing used in it, at any rate; the others, and the use
    of the period, stay as they are. `c` is the counter before the look.
  */
  lemma EndedWindowsBeginAnew(e: Entitlement, now: int, p: Product)
    requires ValidEntitlement(e) && p in Products(e)
    requires !(e.mode == Unpaid && e.active && !e.cancelAtPeriodEnd && now >= e.periodEnd)
    ensures var after := Normalized(e, now);
            p.id in after.counters &&
            var unused := Counter(0, 0, 0, 0, e.periodStart, e.periodStart, None, map[]);
            var c, d := if p.id in e.counters then e.counters[p.id] else unused, after.counters[p.id];
            var dayEnded, weekEnded := now >= c.dayStart + p.daySeconds * 1000, now >= c.weekStart + p.weekSeconds * 1000;
            var shortEnded := p.short.Some? && (c.shortStart.None? || now >= c.shortStart.value + p.short.value.seconds * 1000);
            && d.day == UsedAfter(dayEnded, c.day) && (!dayEnded ==> d.dayStart == c.dayStart) && (d.dayStart - c.dayStart) % (p.daySeconds * 1000) == 0
            && d.week == UsedAfter(weekEnded, c.week) && (!weekEnded ==> d.weekStart == c.weekStart) && (d.weekStart - c.weekStart) % (p.weekSeconds * 1000) == 0
            && d.short == UsedAfter(shortEnded, c.short) && d.shortStart == (if shortEnded then Some(now) else c.shortStart)
            && d.period == c.period
            && d.rates.Keys == c.rates.Keys
            && forall r :: r in c.rates ==>
                 && d.rates[r].day == UsedAfter(dayEnded, c.rates[r].day)
                 && d.rates[r].week == UsedAfter(weekEnded, c.rates[r].week)
                 && d.rates[r].short == (if shortEnded && c.rates[r].short.Some? then Some(0) else c.rates[r].short)
                 && d.rates[r].period == c.rates[r].period
    ensures var after := Normalized(e, now); after == e.(counters := after.counters)
  {
    hide MoveCounters, Moved;
    ProductIsFound(Products(e), p);
    CountersMoveOnce(Products(e), e.counters, e.periodStart, now, p.id);
    CounterAfterLook(p, CounterOf(e.counters, p.id, e.periodStart), now);
  }

  lemma CounterAfterLook(p: Product, c: Counter, now: int)
    ensures var d := MoveCounter(p, c, now);
            var dayEnded, weekEnded := now >= c.dayStart + p.daySeconds * 1000, now >= c.weekStart + p.weekSeconds * 1000;
            var shortEnded := p.short.Some? && (c.shortStart.None? || now >= c.shortStart.value + p.short.value.seconds * 1000);
            && d.day == UsedAfter(dayEnded, c.day) && (!dayEnded ==> d.dayStart == c.dayStart) && (d.dayStart - c.dayStart) % (p.daySeconds * 1000) == 0
            && d.week == UsedAfter(weekEnded, c.week) && (!weekEnded ==> d.weekStart == c.weekStart) && (d.weekStart - c.weekStart) % (p.weekSeconds * 1000) == 0
            && d.short == UsedAfter(shortEnded, c.short) && d.shortStart == (if shortEnded then Some(now) else c.shortStart)
            && d.period == c.period
            && d.rates.Keys == c.rates.Keys
            && forall r :: r in c.rates ==>
                 && d.rates[r].day == UsedAfter(dayEnded, c.rates[r].day)
                 && d.rates[r].week == UsedAfter(weekEnded, c.rates[r].week)
                 && d.rates[r].short == (if shortEnded && c.rates[r].short.Some? then Some(0) else c.rates[r].short)
                 && d.rates[r].period == c.rates[r].period
  {
    hide Moved;
    if c.dayStart <= now {
      MovedBrackets(c.dayStart, p.daySeconds * 1000, now);
    }
    if c.weekStart <= now {
      MovedBrackets(c.weekStart, p.weekSeconds * 1000, now);
    }
    QuotientIs(0, p.daySeconds * 1000, 0, 0);
    QuotientIs(0, p.weekSeconds * 1000, 0, 0);
    var day := MoveDay(p, c, now);
    var week := MoveWeek(p, day, now);
    assert day.rates.Keys == c.rates.Keys && week.rates.Keys == c.rates.Keys;
  }

  /** A plan that renews itself begins a period in which nothing was used. */
  lemma RenewedPlansBeginAnew(e: Entitlement, now: int, p: Product)
    requires ValidEntitlement(e) && p in Products(e)
    requires e.mode == Unpaid && e.active && !e.cancelAtPeriodEnd && now >= e.periodEnd
    ensures var after, step := Normalized(e, now), e.plan.value.periodDays * DAY;
            && p.id in after.counters && after.counters[p.id].rates == map[]
            && (after.counters[p.id].dayStart - after.periodStart) % (p.daySeconds * 1000) == 0
            && (after.counters[p.id].weekStart - after.periodStart) % (p.weekSeconds * 1000) == 0
            && after.counters[p.id].day == after.counters[p.id].week == after.counters[p.id].period == after.counters[p.id].short == 0
            && after == e.(counters := after.counters, periodStart := after.periodStart, periodEnd := after.periodEnd)
            && after.periodStart <= now < after.periodEnd == after.periodStart + step && (after.periodStart - e.periodStart) % step == 0
  {
    hide MoveCounters;
    var step := Step(e);
    var k := (now - e.periodStart) / step;
    assert now - e.periodStart == k * step + (now - e.periodStart) % step;
    QuotientIs(k * step, step, k, 0);
    var r := Renewed(e, now);
    ProductIsFound(Products(e), p);
    CountersMoveOnce(Products(e), map[], r.periodStart, now, p.id);
    CounterAfterLook(p, FreshCounter(r.periodStart), now);
  }

  lemma {:induction false} ProductIsFound(products: seq<Product>, p: Product)
    requires Distinct(ProductIds(products)) && p in products
    ensures FindProduct(products, p.id) == Some(p)
  {
    var i :| 0 <= i < |products| && products[i] == p;
    if i > 0 {
      assert ProductIds(products)[0] != ProductIds(products)[i];
      assert forall j :: 0 <= j < |products| - 1 ==> ProductIds(products[1..])[j] == ProductIds(products)[j + 1];
      assert products[1..][i - 1] == p;
      ProductIsFound(products[1..], p);
    }
  }
}
