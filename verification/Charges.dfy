/**
  Every key is charged at most once. Apart from housekeeping (windows that roll over, holds that
  expire), an entry is posted exactly when the row of its key is written for the first time or
  closed, so the rows and the statement count the same charges.
*/
module Charges {
  import opened Prelude
  import opened Windows
  import opened Rollover
  import opened Accounts
  import opened Operations
  import opened Books
  import opened Statement
  import opened Lifecycle
  import opened Histories

  /** Entries that no caller asks for. */
  predicate Housekeeping(seed: Seed) {
    seed.WindowSeed? || seed.ExpireSeed? || seed.ResetSeed?
  }

  function CountOf(seed: Seed): Posted -> int {
    (p: Posted) => if p.seed == seed then 1 else 0
  }

  function ChargeOf(seed: Seed): Posted -> int {
    (p: Posted) => if p.seed == seed then ConsumedBy(p.entry) else 0
  }

  // ---- what the rows say was posted ----

  datatype Mark = Mark(count: nat, charge: int)

  const UNMARKED := Mark(0, 0)

  /** The row that shows whether the entry of a seed was posted. */
  function RowOfSeed(seed: Seed): RowName
    requires !Housekeeping(seed)
  {
    match seed
    case UsageSeed(key) => UsageRow(key)
    case RecordSeed(key) => RecordRow(key)
    case GrantSeed(key) => GrantRow(key)
    case PlanSeed(key) => PlanRow(key)
    case ReserveSeed(key) => ReservationRow(key)
    case SettleSeed(key) => ReservationRow(key)
    case ReleaseSeed(key) => ReservationRow(key)
  }

  function MarkIn(row: Option<Data>, seed: Seed): Mark
    requires !Housekeeping(seed)
  {
    match row
    case None => UNMARKED
    case Some(data) =>
      if seed.SettleSeed? then
        if data.ReceiptData? && data.receipt.status == StatusSettled
        then Mark(1, if data.receipt.settlement.Some? then data.receipt.settlement.value.charged else 0) else UNMARKED
      else if seed.ReleaseSeed? then
        if data.ReceiptData? && data.receipt.status == StatusReleased then Mark(1, 0) else UNMARKED
      else Mark(1, if data.UsageData? then data.fromAllowance + data.fromBalance else 0)
  }

  function MarkOf(rows: map<RowName, Data>, seed: Seed): Mark
    requires !Housekeeping(seed)
  {
    MarkIn(Lookup(rows, RowOfSeed(seed)), seed)
  }

  ghost predicate Accounted(book: Book) {
    && (forall key: string :: UsageRow(key) in book.rows ==> book.rows[UsageRow(key)].UsageData?)
    && forall seed: Seed :: !Housekeeping(seed) ==>
         && Total(book.statement, CountOf(seed)) == MarkOf(book.rows, seed).count
         && Total(book.statement, ChargeOf(seed)) == MarkOf(book.rows, seed).charge
  }

  // ---- what one operation posts ----

  predicate Housework(posted: seq<Posted>) {
    forall p :: p in posted ==> Housekeeping(p.seed)
  }

  lemma {:induction false} WindowsAreHousework(d: Draft, entries: seq<Pending>, now: int)
    requires Housework(d.posted)
    ensures Housework(PostWindows(d, entries, now).posted)
  {
    hide Spendable, ApplyTotals;
    if entries != [] {
      WindowsAreHousework(d, entries[..|entries| - 1], now);
    }
  }

  lemma SettlingIsHousework(raw: Account, data: Account, now: int)
    ensures Housework(SettleWindows(raw, data, now).posted)
  {
    hide RolledOver, CurrentWindows;
    var rolled := RolledOver(raw.windows, CurrentWindows(data, now), SettledCounters(raw), now);
    WindowsAreHousework(Draft(data.(windows := rolled.state), []), rolled.entries, now);
  }

  lemma {:induction false} ExpiringIsHousework(d: Draft, expired: seq<Hold>, now: int)
    requires Housework(d.posted)
    ensures Housework(PostExpired(d, expired, now).posted)
  {
    hide Spendable, ApplyTotals;
    if expired != [] {
      ExpiringIsHousework(d, expired[..|expired| - 1], now);
    }
  }

  lemma OpeningIsHousework(raw: Account, now: int)
    ensures Housework(Opened(raw, now).posted) && Housework(Swept(Opened(raw, now), now).posted)
  {
    hide SettleWindows, Normalized;
    SettlingIsHousework(raw, NormalizedAccount(raw, now), now);
    var d := Opened(raw, now);
    ExpiringIsHousework(d.(account := d.account.(holds := LiveHolds(d.account.holds, now))), ExpiredHolds(d.account.holds, now), now);
  }

  /** The seed of the one entry an operation posts for itself. */
  function SeedOf(op: Operation): Option<Seed> {
    match op
    case Consume(requestId, _, _, _, _, _) => Some(UsageSeed(requestId))
    case Record(requestId, _, credits, _, _, _, _) => Some(if credits < 0 then UsageSeed(requestId) else RecordSeed(requestId))
    case Reserve(key, _, _, _, _) => Some(ReserveSeed(key))
    case Settle(key, _, _) => Some(SettleSeed(key))
    case ReleaseHold(key, _) => Some(ReleaseSeed(key))
    case Maintain => None
    case GrantCredits(requestId, _, _, _, _) => Some(GrantSeed(requestId))
    case GrantPlan(requestId, _, _, _) => Some(GrantSeed(requestId))
    case ChangePlan(requestId, _) => Some(PlanSeed(requestId))
  }

  /** The entries of a commit: after the housework, the entry of the operation, or nothing. */
  ghost predicate Shaped(op: Operation, first: Option<Data>, c: Decision, house: seq<Posted>) {
    && c.Commit? && Housework(house) && house <= c.draft.posted
    && match SeedOf(op)
       case None => c.draft.posted == house && c.target == None
       case Some(seed) =>
         && c.target.Some?
         && var mark := MarkIn(c.target, seed);
            && |c.draft.posted| == |house| + mark.count && mark.count <= 1
            && (mark.count == 1 ==> c.draft.posted[|house|].seed == seed && ConsumedBy(c.draft.posted[|house|].entry) == mark.charge)
            && (mark.count == 0 ==> mark.charge == 0)
            && (seed.UsageSeed? ==> c.target.value.UsageData?)
            && MarkIn(first, seed) == UNMARKED
  }

  lemma RequestShape(s: Settings, op: Operation, first: Option<Data>, account: Option<Account>, receipts: seq<Option<Data>>, now: int)
    requires Unreserved(op) && !op.GrantPlan? && !op.ChangePlan? && |receipts| == |ToSweep(op, account, now)|
    requires Decide(s, op, first, account, receipts, now).Commit?
    ensures Shaped(op, first, Decide(s, op, first, account, receipts, now), Opened(account.GetOr(NO_ACCOUNT), now).posted)
  {
    hide SettleWindows, Normalized, Opened, Swept, Taken, CapOf, Exceeded, FreeAllowance, FreeBalance, Blocked, ValidId, Spendable, ApplyTotals, AnyPlanHas, ToSweep;
    OpeningIsHousework(account.GetOr(NO_ACCOUNT), now);
  }

  lemma PlanShape(s: Settings, op: Operation, first: Option<Data>, account: Option<Account>, receipts: seq<Option<Data>>, now: int)
    returns (house: seq<Posted>)
    requires (op.GrantPlan? || op.ChangePlan?) && |receipts| == |ToSweep(op, account, now)|
    requires Decide(s, op, first, account, receipts, now).Commit?
    ensures Shaped(op, first, Decide(s, op, first, account, receipts, now), house)
  {
    hide SettleWindows, Normalized, ValidId, Spendable, ApplyTotals, FindPlan, ToSweep;
    var raw := account.GetOr(NO_ACCOUNT);
    var plan := FindPlan(s.plans, op.planId).value;
    var data := if op.GrantPlan? then NormalizedAccount(raw, now).(grant := Some(Normalized(AssignedPlan(plan, now), now)))
                else NormalizedAccount(raw.(own := Chosen(raw.own, plan, now)), now);
    SettlingIsHousework(raw, data, now);
    house := SettleWindows(raw, data, now).posted;
  }

  lemma ReservationShape(s: Settings, op: Operation, first: Option<Data>, account: Option<Account>, receipts: seq<Option<Data>>, now: int)
    requires (op.Reserve? || op.Settle? || op.ReleaseHold?) && |receipts| == |ToSweep(op, account, now)|
    requires Decide(s, op, first, account, receipts, now).Commit?
    ensures Shaped(op, first, Decide(s, op, first, account, receipts, now), Swept(Opened(account.GetOr(NO_ACCOUNT), now), now).posted)
  {
    hide Opened, Swept, Taken, CapOf, Exceeded, FreeAllowance, FreeBalance, Blocked, ValidId, ValidReservationKey, Spendable, ApplyTotals,
         ExpiredReceipts, FindHold, WithoutHold, UsedOf, AmountOf, ToSweep;
    OpeningIsHousework(account.GetOr(NO_ACCOUNT), now);
  }

  lemma RowOfOperation(op: Operation)
    ensures FirstRow(op) == if SeedOf(op).Some? then Some(RowOfSeed(SeedOf(op).value)) else None
  {}

  lemma PostedShape(s: Settings, op: Operation, first: Option<Data>, account: Option<Account>, receipts: seq<Option<Data>>, now: int)
    returns (house: seq<Posted>)
    requires |receipts| == |ToSweep(op, account, now)|
    requires Decide(s, op, first, account, receipts, now).Commit?
    ensures Shaped(op, first, Decide(s, op, first, account, receipts, now), house)
    ensures FirstRow(op) == if SeedOf(op).Some? then Some(RowOfSeed(SeedOf(op).value)) else None
  {
    hide Decide, ToSweep, Opened, Swept;
    RowOfOperation(op);
    var raw := account.GetOr(NO_ACCOUNT);
    match op
    case GrantPlan(_, _, _, _) => house := PlanShape(s, op, first, account, receipts, now);
    case ChangePlan(_, _) => house := PlanShape(s, op, first, account, receipts, now);
    case Maintain =>
      MaintainShape(s, first, account, receipts, now);
      house := Decide(s, op, first, account, receipts, now).draft.posted;
    case Reserve(_, _, _, _, _) =>
      ReservationShape(s, op, first, account, receipts, now);
      house := Swept(Opened(raw, now), now).posted;
    case Settle(_, _, _) =>
      ReservationShape(s, op, first, account, receipts, now);
      house := Swept(Opened(raw, now), now).posted;
    case ReleaseHold(_, _) =>
      ReservationShape(s, op, first, account, receipts, now);
      house := Swept(Opened(raw, now), now).posted;
    case _ =>
      RequestShape(s, op, first, account, receipts, now);
      house := Opened(raw, now).posted;
  }

  lemma MaintainShape(s: Settings, first: Option<Data>, account: Option<Account>, receipts: seq<Option<Data>>, now: int)
    requires |receipts| == |ToSweep(Maintain, account, now)|
    requires Decide(s, Maintain, first, account, receipts, now).Commit?
    ensures var c := Decide(s, Maintain, first, account, receipts, now); Shaped(Maintain, first, c, c.draft.posted)
  {
    hide SettleWindows, Normalized, MaintenanceSource, ExpiredReceipts, PostExpired, LiveHolds, ExpiredHolds;
    var raw := account.value;
    var data := NormalizedAccount(raw.(own := MaintenanceSource(raw.own, now)), now);
    SettlingIsHousework(raw, data, now);
    var d := SettleWindows(raw, data, now);
    ExpiringIsHousework(d.(account := d.account.(holds := LiveHolds(d.account.holds, now))), ExpiredHolds(d.account.holds, now), now);
  }

  // ---- what one operation writes ----

  /** The receipts the sweep marks are chosen as ExpiredReceipts does, never the caller's own. */
  lemma CommitExpires(s: Settings, op: Operation, first: Option<Data>, account: Option<Account>, receipts: seq<Option<Data>>, now: int)
    returns (skip: Option<string>)
    requires |receipts| == |ToSweep(op, account, now)|
    requires Decide(s, op, first, account, receipts, now).Commit?
    ensures Decide(s, op, first, account, receipts, now).expired == ExpiredReceipts(ToSweep(op, account, now), receipts, skip)
    ensures FirstRow(op).Some? && FirstRow(op).value.ReservationRow? ==> first.None? || skip == Some(FirstRow(op).value.key)
  {
    hide SettleWindows, Normalized, Opened, Swept, Taken, CapOf, Exceeded, FreeAllowance, FreeBalance, Blocked, ValidId, ValidReservationKey,
         Spendable, ApplyTotals, AnyPlanHas, FindPlan, FindHold, WithoutHold, UsedOf, AmountOf, MaintenanceSource, ExpiredHolds;
    skip := if op.Settle? || op.ReleaseHold? then Some(op.key) else None;
  }

  /** A receipt whose hold expired. */
  predicate Lapsed(before: Option<Data>, after: Option<Data>) {
    IsActive(before) && after.Some? && after.value.ReceiptData? && after.value == MarkedAt(before.value, after.value.receipt.releasedAt.GetOr(0))
  }

  lemma LifecycleFacts(book: Book, key: string)
    requires InLifecycle(book)
    ensures DistinctHolds(AccountOf(book).holds)
    ensures var row := ReceiptRowOf(book.rows, key); row.Some? ==> row.value.ReceiptData?
  {}

  lemma RowAfterCommit(s: Settings, book: Book, op: Operation, now: int, row: RowName)
    requires InLifecycle(book) && DecideOn(s, book, op, now).Commit?
    ensures var c, after, before := DecideOn(s, book, op, now), Lookup(Apply(s, book, op, now).rows, row), Lookup(book.rows, row);
            if FirstRow(op) == Some(row) && c.target.Some? then after == c.target
            else after == before || (row.ReservationRow? && Lapsed(before, after))
  {
    hide Decide, ExpiredReceipts, WithExpired, FindHold, LiveHolds, ExpiredHolds, Alive;
    var c := DecideOn(s, book, op, now);
    var first := RowOf(book, FirstRow(op));
    var expired := ToSweep(op, book.account, now);
    var receipts := ReceiptsOf(book.rows, expired);
    var skip := CommitExpires(s, op, first, book.account, receipts, now);
    LifecycleFacts(book, "");
    SweepKeepsDistinct(AccountOf(book).holds, now);
    ExpiredRows(book.rows, WithTarget(book.rows, FirstRow(op), c.target), expired, skip, row);
  }

  lemma MarkAfterCommit(s: Settings, book: Book, op: Operation, now: int, seed: Seed)
    requires InLifecycle(book) && DecideOn(s, book, op, now).Commit? && !Housekeeping(seed)
    ensures MarkOf(Apply(s, book, op, now).rows, seed) ==
            if SeedOf(op) == Some(seed) then MarkIn(DecideOn(s, book, op, now).target, seed)
            else MarkOf(book.rows, seed)
  {
    hide Decide, Apply, ToSweep, Alive;
    var first := RowOf(book, FirstRow(op));
    var house := PostedShape(s, op, first, book.account, ReceiptsOf(book.rows, ToSweep(op, book.account, now)), now);
    RowAfterCommit(s, book, op, now, RowOfSeed(seed));
    if FirstRow(op) == Some(RowOfSeed(seed)) && SeedOf(op) != Some(seed) {
      if RowOfSeed(seed).ReservationRow? {
        LifecycleFacts(book, RowOfSeed(seed).key);
      }
      OtherSeedsOfTheRow(s, op, first, book.account, ReceiptsOf(book.rows, ToSweep(op, book.account, now)), now, seed);
    }
  }

  /** An operation on a reservation changes the mark of its own entry only. */
  lemma OtherSeedsOfTheRow(s: Settings, op: Operation, first: Option<Data>, account: Option<Account>, receipts: seq<Option<Data>>, now: int, seed: Seed)
    requires |receipts| == |ToSweep(op, account, now)|
    requires Decide(s, op, first, account, receipts, now).Commit? && !Housekeeping(seed)
    requires FirstRow(op) == Some(RowOfSeed(seed)) && SeedOf(op) != Some(seed)
    requires first.Some? && RowOfSeed(seed).ReservationRow? ==> first.value.ReceiptData?
    ensures MarkIn(Decide(s, op, first, account, receipts, now).target, seed) == MarkIn(first, seed)
  {
    hide SettleWindows, Normalized, Opened, Swept, Taken, CapOf, Exceeded, FreeAllowance, FreeBalance, Blocked, ValidId, ValidReservationKey,
         Spendable, ApplyTotals, AnyPlanHas, FindPlan, FindHold, WithoutHold, UsedOf, AmountOf, MaintenanceSource, ExpiredHolds, ExpiredReceipts, ToSweep;
  }

  // ---- every history ----

  lemma {:induction false} HouseworkTotals(house: seq<Posted>, seed: Seed)
    requires Housework(house) && !Housekeeping(seed)
    ensures Total(house, CountOf(seed)) == 0 && Total(house, ChargeOf(seed)) == 0
  {
    if house != [] {
      var n := |house| - 1;
      assert house[n] in house;
      HouseworkTotals(house[..n], seed);
    }
  }

  lemma CommitTotals(st: seq<Posted>, posted: seq<Posted>, house: seq<Posted>, seed: Seed)
    requires Housework(house) && house <= posted && |posted| <= |house| + 1 && !Housekeeping(seed)
    ensures Total(st + posted, CountOf(seed)) == Total(st, CountOf(seed)) + if |posted| > |house| && posted[|house|].seed == seed then 1 else 0
    ensures Total(st + posted, ChargeOf(seed)) ==
            Total(st, ChargeOf(seed)) + if |posted| > |house| && posted[|house|].seed == seed then ConsumedBy(posted[|house|].entry) else 0
  {
    HouseworkTotals(house, seed);
    TotalOfConcatenation(st, posted, CountOf(seed));
    TotalOfConcatenation(st, posted, ChargeOf(seed));
    if |posted| > |house| {
      assert posted == house + [posted[|house|]];
      TotalOfPosted(house, posted[|house|], CountOf(seed));
      TotalOfPosted(house, posted[|house|], ChargeOf(seed));
    } else {
      assert posted == house;
    }
  }

  lemma OperationKeepsAccounted(s: Settings, book: Book, op: Operation, now: int)
    requires InLifecycle(book) && Accounted(book)
    ensures Accounted(Apply(s, book, op, now))
  {
    hide Decide, ToSweep, Alive;
    var c := DecideOn(s, book, op, now);
    if c.Commit? {
      var after := Apply(s, book, op, now);
      var first := RowOf(book, FirstRow(op));
      var house := PostedShape(s, op, first, book.account, ReceiptsOf(book.rows, ToSweep(op, book.account, now)), now);
      forall seed: Seed | !Housekeeping(seed)
        ensures Total(after.statement, CountOf(seed)) == MarkOf(after.rows, seed).count
        ensures Total(after.statement, ChargeOf(seed)) == MarkOf(after.rows, seed).charge
      {
        MarkAfterCommit(s, book, op, now, seed);
        CommitTotals(book.statement, c.draft.posted, house, seed);
      }
      forall key: string | UsageRow(key) in after.rows
        ensures after.rows[UsageRow(key)].UsageData?
      {
        RowAfterCommit(s, book, op, now, UsageRow(key));
        UsageRowsComeFromCharges(s, op, key);
      }
    }
  }

  lemma UsageRowsComeFromCharges(s: Settings, op: Operation, key: string)
    ensures FirstRow(op) == Some(UsageRow(key)) ==> SeedOf(op) == Some(UsageSeed(key))
  {}

  lemma {:induction false} HistoryIsAccounted(s: Settings, calls: seq<Call>)
    ensures Accounted(Run(s, calls))
  {
    if calls == [] {
    } else {
      var n := |calls| - 1;
      HistoryIsAccounted(s, calls[..n]);
      StatementDeterminesTheAccount(s, calls[..n]);
      OperationKeepsAccounted(s, Run(s, calls[..n]), calls[n].op, calls[n].now);
    }
  }

  /** A settled receipt says how it was settled. */
  predicate SaysHow(row: Option<Data>) {
    row.Some? && row.value.ReceiptData? && row.value.receipt.status == StatusSettled ==> row.value.receipt.settlement.Some?
  }

  lemma TargetSaysHow(s: Settings, op: Operation, first: Option<Data>, account: Option<Account>, receipts: seq<Option<Data>>, now: int)
    requires |receipts| == |ToSweep(op, account, now)|
    requires Decide(s, op, first, account, receipts, now).Commit?
    requires FirstRow(op).Some? && FirstRow(op).value.ReservationRow?
    ensures SaysHow(Decide(s, op, first, account, receipts, now).target)
  {
    hide SettleWindows, Normalized, Opened, Swept, Taken, CapOf, Exceeded, FreeAllowance, FreeBalance, Blocked, ValidId, ValidReservationKey,
         Spendable, ApplyTotals, ExpiredReceipts, FindHold, WithoutHold, UsedOf, AmountOf, ToSweep;
  }

  lemma {:induction false} SettledReceiptsSayHow(s: Settings, calls: seq<Call>, key: string)
    ensures SaysHow(ReceiptRowOf(Run(s, calls).rows, key))
  {
    hide Decide, ToSweep, InLifecycle;
    if calls != [] {
      var n := |calls| - 1;
      var book, call := Run(s, calls[..n]), calls[n];
      SettledReceiptsSayHow(s, calls[..n], key);
      StatementDeterminesTheAccount(s, calls[..n]);
      if DecideOn(s, book, call.op, call.now).Commit? {
        RowAfterCommit(s, book, call.op, call.now, ReservationRow(key));
        if FirstRow(call.op) == Some(ReservationRow(key)) {
          TargetSaysHow(s, call.op, RowOf(book, FirstRow(call.op)), book.account, ReceiptsOf(book.rows, ToSweep(call.op, book.account, call.now)), call.now);
        }
      }
    }
  }

  /**
    In every history a key is charged at most once: its usage entry stands exactly when its usage
    row does and charges what the row says; a reservation is settled by one entry exactly when its
    receipt is settled, which charges what the receipt says; a released one is never charged.
  */
  lemma ChargedAtMostOnce(s: Settings, calls: seq<Call>, key: string)
    ensures var book := Run(s, calls);
            var usage, receipt := Lookup(book.rows, UsageRow(key)), ReceiptRowOf(book.rows, key);
            && Total(book.statement, CountOf(UsageSeed(key))) == (if usage.Some? then 1 else 0)
            && (usage.Some? ==> usage.value.UsageData?)
            && (usage.Some? ==> Total(book.statement, ChargeOf(UsageSeed(key))) == usage.value.fromAllowance + usage.value.fromBalance)
            && Total(book.statement, CountOf(ReserveSeed(key))) == (if receipt.Some? then 1 else 0)
            && (receipt.Some? ==> receipt.value.ReceiptData?)
            && Total(book.statement, CountOf(SettleSeed(key))) ==
               (if receipt.Some? && receipt.value.receipt.status == StatusSettled then 1 else 0)
            && Total(book.statement, CountOf(ReleaseSeed(key))) ==
               (if receipt.Some? && receipt.value.receipt.status == StatusReleased then 1 else 0)
            && (receipt.Some? && receipt.value.receipt.status != StatusSettled ==> Total(book.statement, ChargeOf(SettleSeed(key))) == 0)
            && (receipt.Some? && receipt.value.receipt.status == StatusSettled ==>
                  && receipt.value.receipt.settlement.Some?
                  && Total(book.statement, ChargeOf(SettleSeed(key))) == receipt.value.receipt.settlement.value.charged)
  {
    hide Run, Total;
    HistoryIsAccounted(s, calls);
    StatementDeterminesTheAccount(s, calls);
    SettledReceiptsSayHow(s, calls, key);
    var book := Run(s, calls);
    assert MarkOf(book.rows, UsageSeed(key)).count == Total(book.statement, CountOf(UsageSeed(key)));
    assert MarkOf(book.rows, ReserveSeed(key)).count == Total(book.statement, CountOf(ReserveSeed(key)));
    assert MarkOf(book.rows, SettleSeed(key)).count == Total(book.statement, CountOf(SettleSeed(key)));
    assert MarkOf(book.rows, ReleaseSeed(key)).count == Total(book.statement, CountOf(ReleaseSeed(key)));
    assert MarkOf(book.rows, UsageSeed(key)).charge == Total(book.statement, ChargeOf(UsageSeed(key)));
    assert MarkOf(book.rows, SettleSeed(key)).charge == Total(book.statement, ChargeOf(SettleSeed(key)));
  }
}
