/**
  The life of a reservation (rt-app/core-go/subscriptions/reservations.go): holds on the account and
  active receipts are the same thing, receipts only move forward, and every key is charged at most
  once, whatever is retried.
*/
module Lifecycle {
  import opened Prelude
  import opened Windows
  import opened Rollover
  import opened Accounts
  import opened Operations
  import opened Books
  import opened Statement

  /** What a hold and its receipt agree on. */
  datatype Terms = Terms(productId: string, credits: nat, at: int, expiresAt: int)

  function HoldTerms(holds: seq<Hold>, key: string): Option<Terms> {
    match FindHold(holds, key)
    case None => None
    case Some(h) => Some(Terms(h.productId, h.credits, h.at, h.expiresAt))
  }

  function TermsOf(r: Receipt): Terms {
    Terms(r.productId, r.credits, r.at, r.expiresAt)
  }

  predicate IsActive(row: Option<Data>) {
    row.Some? && row.value.ReceiptData? && row.value.receipt.status == StatusActive
  }

  function ActiveTerms(row: Option<Data>): Option<Terms> {
    if IsActive(row) then Some(TermsOf(row.value.receipt)) else None
  }

  predicate DistinctHolds(holds: seq<Hold>) {
    forall i, j :: 0 <= i < j < |holds| ==> holds[i].key != holds[j].key
  }

  function ReceiptRowOf(rows: map<RowName, Data>, key: string): Option<Data> {
    Lookup(rows, ReservationRow(key))
  }

  /**
    A hold is on the account exactly when its receipt is active, on the same terms; and the account
    never carries more than 25 of them.
  */
  ghost predicate Alive(holds: seq<Hold>, rows: map<RowName, Data>) {
    && DistinctHolds(holds)
    && |holds| <= MAX_ACTIVE_RESERVATIONS
    && (forall key: string :: ReceiptRowOf(rows, key).Some? ==> ReceiptRowOf(rows, key).value.ReceiptData?)
    && (forall key: string :: HoldTerms(holds, key) == ActiveTerms(ReceiptRowOf(rows, key)))
  }

  ghost predicate InLifecycle(book: Book) {
    Alive(AccountOf(book).holds, book.rows)
  }

  /** The moves a receipt may make; everything but status and outcome is fixed when it is made. */
  predicate Moves(before: Option<Data>, after: Option<Data>) {
    || before == after
    || (before.None? && IsActive(after))
    || (&& before.Some? && before.value.ReceiptData? && after.Some? && after.value.ReceiptData?
        && var b, c := before.value.receipt, after.value.receipt;
           && c == b.(status := c.status, releasedAt := c.releasedAt, settlement := c.settlement)
           && ((b.status == StatusActive && c.status != StatusActive) || (b.status == StatusExpired && c.status == StatusSettled))
           && (c.settlement != b.settlement ==> c.status == StatusSettled))
  }

  // ---- holds ----

  lemma {:induction false} FindInConcatenation(a: seq<Hold>, b: seq<Hold>, key: string)
    ensures FindHold(a + b, key) == if FindHold(a, key).Some? then FindHold(a, key) else FindHold(b, key)
  {
    if a == [] {
      assert a + b == b;
    } else {
      assert (a + b)[1..] == a[1..] + b;
      FindInConcatenation(a[1..], b, key);
    }
  }

  lemma {:induction false} FoundHold(holds: seq<Hold>, key: string)
    ensures FindHold(holds, key).Some? ==> FindHold(holds, key).value in holds && FindHold(holds, key).value.key == key
    ensures FindHold(holds, key).None? <==> forall h :: h in holds ==> h.key != key
  {
    if holds != [] {
      FoundHold(holds[1..], key);
      assert holds == [holds[0]] + holds[1..];
    }
  }

  /** The sweep keeps exactly the live holds and reports exactly the expired ones. */
  lemma {:induction false} SweepFinds(holds: seq<Hold>, now: int, key: string)
    requires DistinctHolds(holds)
    ensures var h := FindHold(holds, key);
            && FindHold(LiveHolds(holds, now), key) == (if h.Some? && Live(h.value, now) then h else None)
            && FindHold(ExpiredHolds(holds, now), key) == (if h.Some? && !Live(h.value, now) then h else None)
    ensures |LiveHolds(holds, now)| + |ExpiredHolds(holds, now)| == |holds|
  {
    if holds != [] {
      var front, last := holds[..|holds| - 1], holds[|holds| - 1];
      SweepFinds(front, now, key);
      SweepFinds(front, now, last.key);
      assert holds == front + [last];
      FindInConcatenation(front, [last], key);
      FindInConcatenation(LiveHolds(front, now), [last], key);
      FindInConcatenation(ExpiredHolds(front, now), [last], key);
      FoundHold(front, key);
      assert LiveHolds(front, now) + [] == LiveHolds(front, now) && ExpiredHolds(front, now) + [] == ExpiredHolds(front, now);
    }
  }

  lemma {:induction false} SweepKeepsDistinct(holds: seq<Hold>, now: int)
    requires DistinctHolds(holds)
    ensures DistinctHolds(LiveHolds(holds, now)) && DistinctHolds(ExpiredHolds(holds, now))
    ensures forall h :: h in LiveHolds(holds, now) || h in ExpiredHolds(holds, now) ==> h in holds
  {
    if holds != [] {
      var front, last := holds[..|holds| - 1], holds[|holds| - 1];
      SweepKeepsDistinct(front, now);
      forall h | h in front
        ensures h.key != last.key
      {}
    }
  }

  lemma {:induction false} WithoutFinds(holds: seq<Hold>, key: string, other: string)
    requires DistinctHolds(holds)
    ensures FindHold(WithoutHold(holds, key), other) == if other == key then None else FindHold(holds, other)
    ensures DistinctHolds(WithoutHold(holds, key)) && |WithoutHold(holds, key)| <= |holds|
    ensures forall h :: h in WithoutHold(holds, key) ==> h in holds
  {
    if holds != [] {
      var h, rest := holds[0], holds[1..];
      assert holds == [h] + rest;
      FindInConcatenation([h], rest, other);
      FindOne(h, other);
      FoundHold(rest, h.key);
      if h.key != key {
        WithoutFinds(rest, key, other);
        FindInConcatenation([h], WithoutHold(rest, key), other);
        hide FindHold;
      }
    }
  }

  // ---- receipts ----

  /** A receipt as the sweep marks it. */
  function MarkedAt(row: Data, expiresAt: int): Data
    requires row.ReceiptData?
  {
    ReceiptData(row.receipt.(status := StatusExpired, releasedAt := Some(expiresAt)))
  }

  lemma NothingMarked(base: map<RowName, Data>)
    ensures WithExpired(base, []) == base
  {}

  lemma WithOneMore(base: map<RowName, Data>, expired: seq<(string, Receipt)>, key: string, r: Receipt, row: RowName)
    ensures Lookup(WithExpired(base, expired + [(key, r)]), row) ==
            if row == ReservationRow(key) then Some(ReceiptData(r)) else Lookup(WithExpired(base, expired), row)
  {
    var all := expired + [(key, r)];
    assert all[..|all| - 1] == expired;
  }

  /** The sweep marks the receipts of the expired holds, and nothing else. */
  lemma {:induction false} ExpiredRows(rows: map<RowName, Data>, base: map<RowName, Data>, expired: seq<Hold>, skip: Option<string>, row: RowName)
    requires DistinctHolds(expired)
    ensures var marked := WithExpired(base, ExpiredReceipts(expired, ReceiptsOf(rows, expired), skip));
            Lookup(marked, row) ==
            if row.ReservationRow? && FindHold(expired, row.key).Some? && Some(row.key) != skip && IsActive(Lookup(rows, row))
            then Some(MarkedAt(Lookup(rows, row).value, FindHold(expired, row.key).value.expiresAt))
            else Lookup(base, row)
  {
    hide WithExpired, FindHold;
    var receipts := ReceiptsOf(rows, expired);
    if expired == [] {
      FoundHold([], if row.ReservationRow? then row.key else "");
      NothingMarked(base);
    } else {
      var n := |expired| - 1;
      var front, h := expired[..n], expired[n];
      assert receipts[..n] == ReceiptsOf(rows, front);
      ExpiredRows(rows, base, front, skip, row);
      assert expired == front + [h];
      FindInConcatenation(front, [h], if row.ReservationRow? then row.key else "");
      FindOne(h, if row.ReservationRow? then row.key else "");
      FoundHold(front, h.key);
      var before := ExpiredReceipts(front, ReceiptsOf(rows, front), skip);
      if IsActive(receipts[n]) && Some(h.key) != skip {
        WithOneMore(base, before, h.key, receipts[n].value.receipt.(status := StatusExpired, releasedAt := Some(h.expiresAt)), row);
      } else {
        assert before + [] == before;
      }
    }
  }

  // ---- the stages keep the holds ----

  lemma {:induction false} PostWindowsKeepsHolds(d: Draft, entries: seq<Pending>, now: int)
    ensures PostWindows(d, entries, now).account.holds == d.account.holds
  {
    hide Spendable, ApplyTotals;
    if entries != [] {
      PostWindowsKeepsHolds(d, entries[..|entries| - 1], now);
    }
  }

  lemma SettledKeepsHolds(raw: Account, data: Account, now: int)
    ensures SettleWindows(raw, data, now).account.holds == data.holds
  {
    hide RolledOver, CurrentWindows;
    var rolled := RolledOver(raw.windows, CurrentWindows(data, now), SettledCounters(raw), now);
    PostWindowsKeepsHolds(Draft(data.(windows := rolled.state), []), rolled.entries, now);
  }

  lemma {:induction false} PostExpiredKeepsHolds(d: Draft, expired: seq<Hold>, now: int)
    ensures PostExpired(d, expired, now).account.holds == d.account.holds
  {
    hide Spendable, ApplyTotals;
    if expired != [] {
      PostExpiredKeepsHolds(d, expired[..|expired| - 1], now);
    }
  }

  lemma SweptHolds(d: Draft, now: int)
    ensures Swept(d, now).account.holds == LiveHolds(d.account.holds, now)
  {
    PostExpiredKeepsHolds(d.(account := d.account.(holds := LiveHolds(d.account.holds, now))), ExpiredHolds(d.account.holds, now), now);
  }

  /** The holds after the stages of an operation on reservations. */
  lemma OpenedAndSweptHolds(raw: Account, now: int)
    ensures Opened(raw, now).account.holds == raw.holds
    ensures Swept(Opened(raw, now), now).account.holds == LiveHolds(raw.holds, now)
  {
    hide SettleWindows, Normalized, Swept;
    SettledKeepsHolds(raw, NormalizedAccount(raw, now), now);
    SweptHolds(Opened(raw, now), now);
  }

  // ---- one operation ----

  /** Operations that touch no reservation. */
  predicate Unreserved(op: Operation) {
    op.Consume? || op.Record? || op.GrantCredits? || op.GrantPlan? || op.ChangePlan?
  }

  lemma UnreservedKeeps(s: Settings, op: Operation, first: Option<Data>, account: Option<Account>, receipts: seq<Option<Data>>, now: int)
    requires Unreserved(op) && |receipts| == |ToSweep(op, account, now)|
    requires Decide(s, op, first, account, receipts, now).Commit?
    ensures var c := Decide(s, op, first, account, receipts, now);
            && c.draft.account.holds == account.GetOr(NO_ACCOUNT).holds
            && c.expired == []
    ensures FirstRow(op).Some? && !FirstRow(op).value.ReservationRow?
  {
    hide SettleWindows, Normalized, Taken, CapOf, Exceeded, FreeAllowance, FreeBalance, Blocked, ValidId, Spendable, ApplyTotals, AnyPlanHas, FindPlan;
    var raw := account.GetOr(NO_ACCOUNT);
    OpenedAndSweptHolds(raw, now);
    if op.Consume? || (op.Record? && op.credits < 0) {
      var credits := if op.Consume? then op.credits else -op.credits;
      var id := op.productId;
      var a := Opened(raw, now).account;
      var fromAllowance := Min(credits, FreeAllowance(a, id, now));
      var cap := CapOf(a, s.plans, id, if op.Consume? then op.rateId else None, now);
      TakenBooks(a, id, fromAllowance, credits - fromAllowance, cap, credits, now);
    } else if op.GrantPlan? {
      var plan := FindPlan(s.plans, op.planId).value;
      SettledKeepsHolds(raw, NormalizedAccount(raw, now).(grant := Some(Normalized(AssignedPlan(plan, now), now))), now);
    } else if op.ChangePlan? {
      var plan := FindPlan(s.plans, op.planId).value;
      SettledKeepsHolds(raw, NormalizedAccount(raw.(own := Chosen(raw.own, plan, now)), now), now);
    }
  }

  /** What an operation on reservations commits: holds, target receipt, skipped key. */
  lemma ReserveCommits(s: Settings, op: Operation, first: Option<Data>, account: Option<Account>, receipts: seq<Option<Data>>, now: int)
    returns (hold: Hold, receipt: Receipt)
    requires op.Reserve? && |receipts| == |ToSweep(op, account, now)|
    requires DecideReserve(s, op, first, account, receipts, now).Commit?
    ensures var c := DecideReserve(s, op, first, account, receipts, now);
            var raw := account.GetOr(NO_ACCOUNT);
            && first.None?
            && c.draft.account.holds == LiveHolds(raw.holds, now) + [hold]
            && |LiveHolds(raw.holds, now)| < MAX_ACTIVE_RESERVATIONS
            && c.target == Some(ReceiptData(receipt)) && receipt.status == StatusActive && receipt.settlement == None
            && hold.key == op.key && TermsOf(receipt) == Terms(hold.productId, hold.credits, hold.at, hold.expiresAt)
            && c.expired == ExpiredReceipts(ExpiredHolds(raw.holds, now), receipts, None)
  {
    hide Opened, Swept, CapOf, Exceeded, Blocked, ValidId, ValidReservationKey, Spendable, ApplyTotals, ExpiredReceipts, LiveHolds, ExpiredHolds, AmountOf;
    var raw := account.GetOr(NO_ACCOUNT);
    OpenedAndSweptHolds(raw, now);
    var holds := DecideReserve(s, op, first, account, receipts, now).draft.account.holds;
    hold := holds[|holds| - 1];
    receipt := DecideReserve(s, op, first, account, receipts, now).target.value.receipt;
  }

  lemma SettleCommits(s: Settings, op: Operation, first: Option<Data>, account: Option<Account>, receipts: seq<Option<Data>>, now: int)
    returns (r: Receipt, settlement: Settlement)
    requires op.Settle? && |receipts| == |ToSweep(op, account, now)|
    requires DecideSettle(s, op, first, account, receipts, now).Commit?
    ensures var c := DecideSettle(s, op, first, account, receipts, now);
            var raw := account.GetOr(NO_ACCOUNT);
            && first == Some(ReceiptData(r)) && r.status in {StatusActive, StatusExpired}
            && c.draft.account.holds == WithoutHold(LiveHolds(raw.holds, now), op.key)
            && c.target == Some(ReceiptData(r.(status := StatusSettled, settlement := Some(settlement))))
            && c.expired == ExpiredReceipts(ExpiredHolds(raw.holds, now), receipts, Some(op.key))
  {
    hide Opened, Swept, CapOf, Taken, ValidReservationKey, Spendable, FreeAllowance, FreeBalance, ApplyTotals, ExpiredReceipts, LiveHolds, ExpiredHolds, UsedOf, WithoutHold, FindHold;
    var raw := account.GetOr(NO_ACCOUNT);
    OpenedAndSweptHolds(raw, now);
    r := first.value.receipt;
    var used := UsedOf(s, r, op.usage).credits;
    var a := Dropped(Swept(Opened(raw, now), now).account, op.key);
    var fromAllowance := Min(used, FreeAllowance(a, r.productId, now));
    var fromBalance := Min(used - fromAllowance, FreeBalance(a, r.productId, now));
    var cap := CapOf(a, s.plans, r.productId, if r.estimate.Some? then Some(r.estimate.value.rateId) else None, now);
    TakenBooks(a, r.productId, fromAllowance, fromBalance, cap, used, now);
    settlement := DecideSettle(s, op, first, account, receipts, now).target.value.receipt.settlement.value;
  }

  lemma ReleaseCommits(s: Settings, op: Operation, first: Option<Data>, account: Option<Account>, receipts: seq<Option<Data>>, now: int)
    returns (r: Receipt, after: Receipt)
    requires op.ReleaseHold? && |receipts| == |ToSweep(op, account, now)|
    requires DecideRelease(s, op, first, account, receipts, now).Commit?
    ensures var c := DecideRelease(s, op, first, account, receipts, now);
            var raw := account.GetOr(NO_ACCOUNT);
            var live := LiveHolds(raw.holds, now);
            && first == Some(ReceiptData(r)) && r.status == StatusActive
            && c.draft.account.holds == (if FindHold(live, op.key).Some? then WithoutHold(live, op.key) else live)
            && c.target == Some(ReceiptData(after))
            && after == r.(status := after.status, releasedAt := after.releasedAt)
            && after.status == (if FindHold(live, op.key).Some? then StatusReleased else StatusExpired)
            && c.expired == ExpiredReceipts(ExpiredHolds(raw.holds, now), receipts, Some(op.key))
  {
    hide Opened, Swept, ValidReservationKey, Spendable, ApplyTotals, ExpiredReceipts, LiveHolds, ExpiredHolds, WithoutHold, FindHold;
    OpenedAndSweptHolds(account.GetOr(NO_ACCOUNT), now);
    r := first.value.receipt;
    after := DecideRelease(s, op, first, account, receipts, now).target.value.receipt;
  }

  lemma MaintainCommits(account: Option<Account>, receipts: seq<Option<Data>>, now: int)
    requires |receipts| == |ToSweep(Maintain, account, now)|
    requires DecideMaintain(account, receipts, now).Commit?
    ensures var c := DecideMaintain(account, receipts, now);
            var raw := account.GetOr(NO_ACCOUNT);
            && c.draft.account.holds == LiveHolds(raw.holds, now)
            && c.target == None
            && c.expired == ExpiredReceipts(ExpiredHolds(raw.holds, now), receipts, None)
  {
    hide SettleWindows, Normalized, Swept, ApplyTotals, ExpiredReceipts, LiveHolds, MaintenanceSource;
    var raw := account.value;
    var data := NormalizedAccount(raw.(own := MaintenanceSource(raw.own, now)), now);
    SettledKeepsHolds(raw, data, now);
    SweptHolds(SettleWindows(raw, data, now), now);
  }

  /** One reservation row before and after an operation whose sweep skips `skip`. */
  lemma RowAfter(rows: map<RowName, Data>, holds: seq<Hold>, now: int, name: Option<RowName>, target: Option<Data>, skip: Option<string>, key: string)
    requires Alive(holds, rows)
    requires name.Some? && target.Some? && name.value.ReservationRow? ==> Some(name.value.key) == skip || name.value !in rows
    ensures var expired := ExpiredHolds(holds, now);
            var after := ReceiptRowOf(WithExpired(WithTarget(rows, name, target), ExpiredReceipts(expired, ReceiptsOf(rows, expired), skip)), key);
            var before := ReceiptRowOf(rows, key);
            var h := FindHold(holds, key);
            && (name == Some(ReservationRow(key)) && target.Some? ==> after == target)
            && (!(name == Some(ReservationRow(key)) && target.Some?) ==>
                  after == if h.Some? && !Live(h.value, now) && Some(key) != skip
                           then Some(MarkedAt(before.value, h.value.expiresAt))
                           else before)
            && (h.Some? ==> IsActive(before))
  {
    var expired := ExpiredHolds(holds, now);
    SweepFinds(holds, now, key);
    SweepKeepsDistinct(holds, now);
    assert HoldTerms(holds, key) == ActiveTerms(ReceiptRowOf(rows, key));
    ExpiredRows(rows, WithTarget(rows, name, target), expired, skip, ReservationRow(key));
  }

  /** Every operation keeps the lifecycle and only makes moves that it allows. */
  lemma OperationKeepsLifecycle(s: Settings, book: Book, op: Operation, now: int)
    requires InLifecycle(book)
    ensures InLifecycle(Apply(s, book, op, now))
    ensures forall key: string :: Moves(ReceiptRowOf(book.rows, key), ReceiptRowOf(Apply(s, book, op, now).rows, key))
  {
    hide Decide;
    var c := DecideOn(s, book, op, now);
    if c.Commit? {
      if Unreserved(op) {
        UnreservedStep(s, book, op, now);
      } else if op.Reserve? {
        ReserveStep(s, book, op, now);
      } else if op.Settle? {
        SettleStep(s, book, op, now);
      } else if op.ReleaseHold? {
        ReleaseStep(s, book, op, now);
      } else {
        MaintainStep(s, book, op, now);
      }
    }
  }

  ghost predicate GoodStep(book: Book, after: Book) {
    InLifecycle(after) && forall key: string :: Moves(ReceiptRowOf(book.rows, key), ReceiptRowOf(after.rows, key))
  }

  lemma UnreservedStep(s: Settings, book: Book, op: Operation, now: int)
    requires InLifecycle(book) && Unreserved(op) && DecideOn(s, book, op, now).Commit?
    ensures GoodStep(book, Apply(s, book, op, now))
  {
    hide Decide, FirstRow;
    UnreservedKeeps(s, op, RowOf(book, FirstRow(op)), book.account, ReceiptsOf(book.rows, ToSweep(op, book.account, now)), now);
    var after := Apply(s, book, op, now);
    forall key: string
      ensures ReceiptRowOf(after.rows, key) == ReceiptRowOf(book.rows, key)
    {}
  }

  lemma ReserveStep(s: Settings, book: Book, op: Operation, now: int)
    requires InLifecycle(book) && op.Reserve? && DecideOn(s, book, op, now).Commit?
    ensures GoodStep(book, Apply(s, book, op, now))
  {
    hide DecideReserve, WithExpired, ExpiredReceipts, LiveHolds, ExpiredHolds, FindHold;
    var holds := AccountOf(book).holds;
    var receipts := ReceiptsOf(book.rows, ToSweep(op, book.account, now));
    var hold, receipt := ReserveCommits(s, op, RowOf(book, FirstRow(op)), book.account, receipts, now);
    var after := Apply(s, book, op, now);
    SweepKeepsDistinct(holds, now);
    assert HoldTerms(holds, op.key) == ActiveTerms(ReceiptRowOf(book.rows, op.key));
    var live := LiveHolds(holds, now);
    SweepFinds(holds, now, op.key);
    FoundHold(live, op.key);
    forall key: string
      ensures HoldTerms(AccountOf(after).holds, key) == ActiveTerms(ReceiptRowOf(after.rows, key))
      ensures ReceiptRowOf(after.rows, key).Some? ==> ReceiptRowOf(after.rows, key).value.ReceiptData?
      ensures Moves(ReceiptRowOf(book.rows, key), ReceiptRowOf(after.rows, key))
    {
      RowAfter(book.rows, holds, now, Some(ReservationRow(op.key)), Some(ReceiptData(receipt)), None, key);
      SweepFinds(holds, now, key);
      FindInConcatenation(live, [hold], key);
      FindOne(hold, key);
      assert HoldTerms(holds, key) == ActiveTerms(ReceiptRowOf(book.rows, key));
    }
  }

  lemma FindOne(h: Hold, key: string)
    ensures FindHold([h], key) == if h.key == key then Some(h) else None
  {}

  lemma SettleStep(s: Settings, book: Book, op: Operation, now: int)
    requires InLifecycle(book) && op.Settle? && DecideOn(s, book, op, now).Commit?
    ensures GoodStep(book, Apply(s, book, op, now))
  {
    hide DecideSettle, WithExpired, ExpiredReceipts, LiveHolds, ExpiredHolds, FindHold, WithoutHold;
    var holds := AccountOf(book).holds;
    var receipts := ReceiptsOf(book.rows, ToSweep(op, book.account, now));
    var r, settlement := SettleCommits(s, op, RowOf(book, FirstRow(op)), book.account, receipts, now);
    var target := ReceiptData(r.(status := StatusSettled, settlement := Some(settlement)));
    var after := Apply(s, book, op, now);
    SweepKeepsDistinct(holds, now);
    SweepFinds(holds, now, op.key);
    WithoutFinds(LiveHolds(holds, now), op.key, op.key);
    forall key: string
      ensures HoldTerms(AccountOf(after).holds, key) == ActiveTerms(ReceiptRowOf(after.rows, key))
      ensures ReceiptRowOf(after.rows, key).Some? ==> ReceiptRowOf(after.rows, key).value.ReceiptData?
      ensures Moves(ReceiptRowOf(book.rows, key), ReceiptRowOf(after.rows, key))
    {
      RowAfter(book.rows, holds, now, Some(ReservationRow(op.key)), Some(target), Some(op.key), key);
      SweepFinds(holds, now, key);
      WithoutFinds(LiveHolds(holds, now), op.key, key);
      assert HoldTerms(holds, key) == ActiveTerms(ReceiptRowOf(book.rows, key));
    }
  }

  lemma ReleaseStep(s: Settings, book: Book, op: Operation, now: int)
    requires InLifecycle(book) && op.ReleaseHold? && DecideOn(s, book, op, now).Commit?
    ensures GoodStep(book, Apply(s, book, op, now))
  {
    hide DecideRelease, WithExpired, ExpiredReceipts, LiveHolds, ExpiredHolds, FindHold, WithoutHold;
    var holds := AccountOf(book).holds;
    var receipts := ReceiptsOf(book.rows, ToSweep(op, book.account, now));
    var r, target := ReleaseCommits(s, op, RowOf(book, FirstRow(op)), book.account, receipts, now);
    var after := Apply(s, book, op, now);
    SweepKeepsDistinct(holds, now);
    SweepFinds(holds, now, op.key);
    WithoutFinds(LiveHolds(holds, now), op.key, op.key);
    forall key: string
      ensures HoldTerms(AccountOf(after).holds, key) == ActiveTerms(ReceiptRowOf(after.rows, key))
      ensures ReceiptRowOf(after.rows, key).Some? ==> ReceiptRowOf(after.rows, key).value.ReceiptData?
      ensures Moves(ReceiptRowOf(book.rows, key), ReceiptRowOf(after.rows, key))
    {
      RowAfter(book.rows, holds, now, Some(ReservationRow(op.key)), Some(ReceiptData(target)), Some(op.key), key);
      SweepFinds(holds, now, key);
      WithoutFinds(LiveHolds(holds, now), op.key, key);
      assert HoldTerms(holds, key) == ActiveTerms(ReceiptRowOf(book.rows, key));
    }
  }

  lemma MaintainStep(s: Settings, book: Book, op: Operation, now: int)
    requires InLifecycle(book) && op.Maintain? && DecideOn(s, book, op, now).Commit?
    ensures GoodStep(book, Apply(s, book, op, now))
  {
    hide DecideMaintain, WithExpired, ExpiredReceipts, LiveHolds, ExpiredHolds, FindHold;
    var holds := AccountOf(book).holds;
    MaintainCommits(book.account, ReceiptsOf(book.rows, ToSweep(op, book.account, now)), now);
    var after := Apply(s, book, op, now);
    SweepKeepsDistinct(holds, now);
    SweepFinds(holds, now, "");
    forall key: string
      ensures HoldTerms(AccountOf(after).holds, key) == ActiveTerms(ReceiptRowOf(after.rows, key))
      ensures ReceiptRowOf(after.rows, key).Some? ==> ReceiptRowOf(after.rows, key).value.ReceiptData?
      ensures Moves(ReceiptRowOf(book.rows, key), ReceiptRowOf(after.rows, key))
    {
      RowAfter(book.rows, holds, now, None, None, None, key);
      SweepFinds(holds, now, key);
      assert HoldTerms(holds, key) == ActiveTerms(ReceiptRowOf(book.rows, key));
    }
  }
}
