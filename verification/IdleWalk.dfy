/**
  Two ways through the weekly windows of a renewing plan. Usage counters jump to the present by
  floor division (accounts.go); the statement walks the same windows one by one (`following` in
  `closeWindow`, ledger.go). Here the walk is shown to visit exactly the windows that the division
  names, and to count them.
*/
module IdleWalk {
  import opened Prelude
  import opened Plans
  import opened Windows

  /** Weekly windows of `step` that restart at every period of `period`, counted from `origin`. */
  datatype Lattice = Lattice(origin: int, period: Positive, step: Positive)

  /** The end of the window that starts at `start`: after one step, or at the period boundary. */
  function Following(l: Lattice, start: int): int {
    Min(start + l.step, l.origin + ((start - l.origin) / l.period + 1) * l.period)
  }

  /** By division: the start of the window that holds t. */
  function WindowStart(l: Lattice, t: int): int {
    var x := t - l.origin;
    l.origin + x / l.period * l.period + x % l.period / l.step * l.step
  }

  function WindowsPerPeriod(l: Lattice): Positive {
    (l.period - 1) / l.step + 1
  }

  /** By division: how many windows precede the one that holds t. */
  function WindowIndex(l: Lattice, t: int): int {
    var x := t - l.origin;
    x / l.period * WindowsPerPeriod(l) + x % l.period / l.step
  }

  predicate IsWindowStart(l: Lattice, t: int) {
    WindowStart(l, t) == t
  }

  // ---- one step of the walk ----

  lemma Split(x: int, w: Positive)
    ensures x == x / w * w + x % w && 0 <= x % w < w
  {}

  /** Position j of period k, in both readings. */
  lemma At(l: Lattice, t: int, k: int, j: int, r: int)
    requires t - l.origin == k * l.period + (j * l.step + r)
    requires 0 <= j && 0 <= r < l.step && j * l.step + r < l.period
    ensures WindowStart(l, t) == l.origin + k * l.period + j * l.step
    ensures WindowIndex(l, t) == k * WindowsPerPeriod(l) + j
    ensures (t - l.origin) / l.period == k
  {
    assert j * l.step >= 0;
    QuotientIs(t - l.origin, l.period, k, j * l.step + r);
    QuotientIs(j * l.step + r, l.step, j, r);
  }

  lemma Position(l: Lattice, t: int) returns (k: int, j: int, r: int)
    ensures t - l.origin == k * l.period + (j * l.step + r)
    ensures 0 <= j && 0 <= r < l.step && j * l.step + r < l.period
  {
    var x := t - l.origin;
    Split(x, l.period);
    Split(x % l.period, l.step);
    k, j, r := x / l.period, x % l.period / l.step, x % l.period % l.step;
    assert j >= 0 by {
      assert j <= -1 ==> j * l.step + l.step <= 0;
    }
  }

  /** A period holds as many windows as the rounded-up quotient, so the last one may be short. */
  lemma LastWindow(l: Lattice, j: int)
    requires 0 <= j && j * l.step < l.period
    ensures j < WindowsPerPeriod(l)
    ensures (j + 1) * l.step >= l.period ==> j + 1 == WindowsPerPeriod(l)
  {
    var n := (l.period - 1) / l.step;
    Split(l.period - 1, l.step);
    assert (n + 1) * l.step == n * l.step + l.step;
    assert j >= n + 1 ==> j * l.step >= (n + 1) * l.step;
    assert (j + 1) * l.step == j * l.step + l.step;
    assert j + 1 <= n ==> (j + 1) * l.step <= n * l.step;
  }

  /** The window of t ends where the walk goes next; it is the next one by division too. */
  lemma FollowingIsNext(l: Lattice, t: int)
    ensures IsWindowStart(l, WindowStart(l, t))
    ensures WindowStart(l, t) <= t < Following(l, WindowStart(l, t))
    ensures WindowIndex(l, WindowStart(l, t)) == WindowIndex(l, t)
    ensures IsWindowStart(l, Following(l, WindowStart(l, t)))
    ensures WindowIndex(l, Following(l, WindowStart(l, t))) == WindowIndex(l, t) + 1
  {
    var k, j, r := Position(l, t);
    At(l, t, k, j, r);
    At(l, WindowStart(l, t), k, j, 0);
    LastWindow(l, j);
    assert (j + 1) * l.step == j * l.step + l.step;
    assert (k + 1) * l.period == k * l.period + l.period;
    var next := Following(l, WindowStart(l, t));
    if (j + 1) * l.step < l.period {
      At(l, next, k, j + 1, 0);
    } else {
      At(l, next, k + 1, 0, 0);
      assert (k + 1) * WindowsPerPeriod(l) == k * WindowsPerPeriod(l) + WindowsPerPeriod(l);
    }
  }

  /** Time and window numbers grow together. */
  lemma IndexIsMonotone(l: Lattice, s: int, t: int)
    requires s <= t
    ensures WindowIndex(l, s) <= WindowIndex(l, t)
  {
    var k, j, r := Position(l, s);
    var k', j', r' := Position(l, t);
    At(l, s, k, j, r);
    At(l, t, k', j', r');
    LastWindow(l, j) by {
      assert j * l.step <= j * l.step + r;
    }
    PositionsAreOrdered(l.period, l.step, WindowsPerPeriod(l), k, j, r, k', j', r');
  }

  lemma PositionsAreOrdered(period: Positive, step: Positive, n: int, k: int, j: int, r: int, k': int, j': int, r': int)
    requires k * period + (j * step + r) <= k' * period + (j' * step + r')
    requires 0 <= j < n && 0 <= r < step && 0 <= j * step + r < period
    requires 0 <= j' && 0 <= r' < step && 0 <= j' * step + r' < period
    ensures k * n + j <= k' * n + j'
  {
    assert k' + 1 <= k ==> (k' + 1) * period <= k * period;
    assert (k' + 1) * period == k' * period + period;
    assert k <= k';
    if k == k' {
      assert j' + 1 <= j ==> (j' + 1) * step <= j * step;
      assert (j' + 1) * step == j' * step + step;
    } else {
      assert (k + 1) * n <= k' * n;
      assert (k + 1) * n == k * n + n;
    }
  }

  /** Distinct window starts have distinct numbers. */
  lemma IndexIsStrict(l: Lattice, s: int, t: int)
    requires IsWindowStart(l, s) && IsWindowStart(l, t) && s < t
    ensures WindowIndex(l, s) < WindowIndex(l, t) && Following(l, s) <= t
  {
    FollowingIsNext(l, s);
    FollowingIsNext(l, t);
    if Following(l, s) <= t {
      IndexIsMonotone(l, Following(l, s), t);
    } else {
      // t would lie inside the window of s, so its own window would start at s
      var k, j, r := Position(l, s);
      At(l, s, k, j, r);
      assert r == 0;
      assert (k + 1) * l.period == k * l.period + l.period;
      At(l, t, k, j, t - s);
    }
  }

  // ---- the walk ----

  const MAX_SKIPPED := 520

  /** The source's loop: from `from` to the first window start at or after `to`, at most `budget`. */
  function Walk(l: Lattice, from: int, to: int, budget: nat): nat
    decreases budget
  {
    if from < to && budget > 0 then 1 + Walk(l, Following(l, from), to, budget - 1) else 0
  }

  method CountSkipped(l: Lattice, from: int, to: int) returns (skipped: nat)
    ensures skipped == Walk(l, from, to, MAX_SKIPPED)
  {
    skipped := 0;
    var start := from;
    while start < to && skipped < MAX_SKIPPED
      invariant skipped <= MAX_SKIPPED
      invariant Walk(l, from, to, MAX_SKIPPED) == skipped + Walk(l, start, to, MAX_SKIPPED - skipped)
      decreases MAX_SKIPPED - skipped
    {
      skipped := skipped + 1;
      start := Following(l, start);
    }
  }

  /** Where the walk stands after n steps. */
  function Walked(l: Lattice, from: int, n: nat): int {
    if n == 0 then from else Following(l, Walked(l, from, n - 1))
  }

  ghost predicate Meets(l: Lattice, from: int, n: nat, t: int) {
    exists i: nat :: i < n && Walked(l, from, i) == t
  }

  /**
    From a window start the walk only meets window starts, strictly later each time, and its n-th
    stop is the n-th window by division.
  */
  lemma {:induction false} WalkMeetsWindowStarts(l: Lattice, from: int, n: nat)
    requires IsWindowStart(l, from)
    ensures IsWindowStart(l, Walked(l, from, n))
    ensures WindowIndex(l, Walked(l, from, n)) == WindowIndex(l, from) + n
    ensures n > 0 ==> Walked(l, from, n - 1) < Walked(l, from, n)
  {
    hide WindowStart, WindowIndex, Following;
    if n > 0 {
      WalkMeetsWindowStarts(l, from, n - 1);
      FollowingIsNext(l, Walked(l, from, n - 1));
    }
  }

  /** And it leaves none out. */
  lemma {:induction false} WalkMissesNoWindow(l: Lattice, from: int, n: nat, t: int)
    requires IsWindowStart(l, from) && IsWindowStart(l, t) && from <= t < Walked(l, from, n)
    ensures Meets(l, from, n, t)
  {
    hide WindowStart, WindowIndex, Following;
    WalkMeetsWindowStarts(l, from, n);
    if t < Walked(l, from, n - 1) {
      WalkMissesNoWindow(l, from, n - 1, t);
    } else {
      WalkMeetsWindowStarts(l, from, n - 1);
      if Walked(l, from, n - 1) < t {
        IndexIsStrict(l, Walked(l, from, n - 1), t);
      }
      assert Walked(l, from, n - 1) == t;
    }
  }

  /** The count of the walk is the difference of the window numbers, unless it hits its bound. */
  lemma {:induction false} WalkCountsWindows(l: Lattice, from: int, to: int, budget: nat)
    requires IsWindowStart(l, from) && IsWindowStart(l, to) && from <= to
    ensures Walk(l, from, to, budget) == Min(budget, WindowIndex(l, to) - WindowIndex(l, from))
    decreases budget
  {
    hide WindowStart, WindowIndex, Following;
    if from < to {
      IndexIsStrict(l, from, to);
      FollowingIsNext(l, from);
      if budget > 0 {
        WalkCountsWindows(l, Following(l, from), to, budget - 1);
      }
    }
  }

  /** Periods that start on the same lattice walk the same windows. */
  lemma ShiftedOrigin(l: Lattice, k: int, t: int)
    ensures var m := l.(origin := l.origin + k * l.period);
            && WindowStart(m, t) == WindowStart(l, t)
            && Following(m, t) == Following(l, t)
            && WindowIndex(m, t) == WindowIndex(l, t) - k * WindowsPerPeriod(l)
  {
    var x := t - l.origin;
    var q := x / l.period;
    Split(x, l.period);
    DivisionShifts(x, k, l.period);
    assert (q - k) * l.period == q * l.period - k * l.period;
    assert (q - k + 1) * l.period == (q + 1) * l.period - k * l.period;
    QuotientIs(x - k * l.period, l.period, q - k, x % l.period);
    assert (q - k) * WindowsPerPeriod(l) == q * WindowsPerPeriod(l) - k * WindowsPerPeriod(l);
  }

  // ---- the counters jump to the same place ----

  function LatticeOf(e: Entitlement, p: Product): Lattice
    requires e.plan.Some?
  {
    Lattice(e.periodStart, Step(e), p.weekSeconds * 1000)
  }

  /** A plan whose weekly counter stands on the windows of its period. */
  predicate Regular(e: Entitlement, p: Product) {
    && ValidEntitlement(e) && p in Products(e)
    && (p.id in e.counters ==>
          var s := e.counters[p.id].weekStart;
          IsWindowStart(LatticeOf(e, p), s) && e.periodStart <= s < e.periodStart + Step(e))
  }

  /** The plan renews itself at this look, or its period is not over. */
  predicate InPeriod(e: Entitlement, now: int) {
    e.plan.Some? && e.periodStart <= now && (Renews(e, now) || now < e.periodStart + Step(e))
  }

  /**
    The floor divisions of `normalized` (to the period, then to the week) land on the window that
    holds the present, on the lattice of the period the account was last seen in; and the account
    stays regular.
  */
  lemma NormalizedLandsOnTheLattice(e: Entitlement, p: Product, now: int)
    requires Regular(e, p) && InPeriod(e, now)
    requires p.id in e.counters ==> e.counters[p.id].weekStart <= now
    ensures var n := Normalized(e, now);
            && p.id in n.counters
            && n.counters[p.id].weekStart == WindowStart(LatticeOf(e, p), now)
            && n.plan == e.plan && n.periodStart == e.periodStart + (now - e.periodStart) / Step(e) * Step(e)
            && Regular(n, p)
  {
    hide WindowStart, WindowIndex, Following, MoveCounters;
    var l := LatticeOf(e, p);
    var r := Renewed(e, now);
    var k := (now - e.periodStart) / l.period;
    PeriodLands(e, now);
    ProductIsFound(Products(e), p);
    CountersMoveOnce(Products(e), r.counters, r.periodStart, now, p.id);
    var c := CounterOf(r.counters, p.id, r.periodStart);
    var m := LatticeOf(r, p);
    ShiftedOrigin(l, k, now);
    ShiftedOrigin(l, k, c.weekStart);
    assert m == l.(origin := l.origin + k * l.period);
    OriginIsAStart(m);
    WeekLands(m, c.weekStart, now);
    FollowingIsNext(m, now);
  }

  lemma OriginIsAStart(l: Lattice)
    ensures IsWindowStart(l, l.origin)
  {
    At(l, l.origin, 0, 0, 0);
  }

  /** Renewed or not, the period start is the one found by division. */
  lemma PeriodLands(e: Entitlement, now: int)
    requires InPeriod(e, now)
    ensures var r := Renewed(e, now);
            && r.plan == e.plan && r.periodStart == e.periodStart + (now - e.periodStart) / Step(e) * Step(e)
            && r.periodStart <= now < r.periodStart + Step(e)
  {
    Split(now - e.periodStart, Step(e));
    if now < e.periodStart + Step(e) {
      QuotientIs(now - e.periodStart, Step(e), 0, now - e.periodStart);
    }
  }

  /** Within one period: dividing from any earlier window start gives the window of the present. */
  lemma WeekLands(l: Lattice, start: int, now: int)
    requires l.origin <= start <= now < l.origin + l.period && IsWindowStart(l, start)
    ensures Moved(start, l.step, now) == WindowStart(l, now)
    ensures l.origin <= WindowStart(l, now)
  {
    var k, j, r := Position(l, start);
    At(l, start, k, j, r);
    assert IsWindowStart(l, start) && WindowStart(l, start) == l.origin + k * l.period + j * l.step;
    QuotientIs(start - l.origin, l.period, 0, start - l.origin);
    assert k == 0 && r == 0;
    MovedBrackets(start, l.step, now);
    var q := (now - start) / l.step;
    Split(now - start, l.step);
    assert q * l.step + l.step > now - start;
    assert q <= -1 ==> q * l.step + l.step <= 0;
    assert (j + q) * l.step == j * l.step + q * l.step;
    At(l, now, 0, j + q, (now - start) % l.step);
    if now < start + l.step {
      QuotientIs(now - start, l.step, 0, now - start);
    }
    assert (j + q) * l.step >= 0;
  }
}
