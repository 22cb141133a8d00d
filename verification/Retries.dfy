/**
  A call may be repeated with the same key at any later time, whatever else happened in between:
  once it committed, the repetition changes nothing and gives the first answer.
*/
module Retries {
  import opened Prelude
  import opened Windows
  import opened Accounts
  import opened Operations
  import opened Books
  import opened Lifecycle
  import opened Histories
  import opened Charges

  /** Requests write their row once; only receipts are ever rewritten. */
  lemma FreshRow(s: Settings, op: Operation, first: Option<Data>, account: Option<Account>, receipts: seq<Option<Data>>, now: int)
    requires |receipts| == |ToSweep(op, account, now)|
    requires Decide(s, op, first, account, receipts, now).Commit?
    ensures FirstRow(op).Some? && !FirstRow(op).value.ReservationRow? ==> first.None?
  {
    hide SettleWindows, Normalized, Opened, Taken, CapOf, Exceeded, FreeAllowance, FreeBalance, Blocked, ValidId, Spendable, AnyPlanHas, FindPlan,
         DecideReserve, DecideSettle, DecideRelease, DecideMaintain, ToSweep;
  }

  lemma {:induction false} RequestRowsStay(s: Settings, calls: seq<Call>, more: seq<Call>, row: RowName)
    requires !row.ReservationRow? && row in Run(s, calls).rows
    ensures Lookup(Run(s, calls + more).rows, row) == Lookup(Run(s, calls).rows, row)
  {
    hide Apply, Decide, ToSweep, InLifecycle;
    RunExtends(s, calls, more);
    if more != [] {
      var front, last := more[..|more| - 1], more[|more| - 1];
      RequestRowsStay(s, calls, front, row);
      StatementDeterminesTheAccount(s, calls + front);
      var book := Run(s, calls + front);
      if DecideOn(s, book, last.op, last.now).Commit? {
        RowAfterCommit(s, book, last.op, last.now, row);
        FreshRow(s, last.op, RowOf(book, FirstRow(last.op)), book.account, ReceiptsOf(book.rows, ToSweep(last.op, book.account, last.now)), last.now);
      } else {
        NothingApplied(s, book, last.op, last.now);
      }
    }
  }

  lemma NothingApplied(s: Settings, book: Book, op: Operation, now: int)
    requires !DecideOn(s, book, op, now).Commit?
    ensures Apply(s, book, op, now) == book
  {
    hide Decide;
  }

  /** The row that an attempt finds after the same call committed earlier. */
  predicate Follows(written: Data, found: Option<Data>) {
    found.Some? && Progress(Some(written), found) && (!written.ReceiptData? ==> found.value == written)
  }

  lemma RowStillThere(s: Settings, calls: seq<Call>, op: Operation, now: int, more: seq<Call>)
    requires DecideOn(s, Run(s, calls), op, now).Commit? && SeedOf(op).Some?
    ensures DecideOn(s, Run(s, calls), op, now).target.Some?
    ensures Follows(DecideOn(s, Run(s, calls), op, now).target.value, RowOf(Run(s, calls + [Call(op, now)] + more), FirstRow(op)))
  {
    hide Apply, Decide, ToSweep, InLifecycle;
    var book, called := Run(s, calls), calls + [Call(op, now)];
    RunExtends(s, calls, [Call(op, now)]);
    assert calls + [Call(op, now)][..0] == calls;
    StatementDeterminesTheAccount(s, calls);
    var house := PostedShape(s, op, RowOf(book, FirstRow(op)), book.account, ReceiptsOf(book.rows, ToSweep(op, book.account, now)), now);
    RowAfterCommit(s, book, op, now, FirstRow(op).value);
    if FirstRow(op).value.ReservationRow? {
      ReceiptsMoveForward(s, called, more, FirstRow(op).value.key);
    } else {
      RequestRowsStay(s, called, more, FirstRow(op).value);
    }
  }

  /** An answer that was given already. */
  predicate Answers(op: Operation, c: Decision) {
    c.Replayed? || (op.ReleaseHold? && c == Refused(AlreadySettled))
  }

  lemma RepeatedDecision(s: Settings, op: Operation, first: Option<Data>, account: Option<Account>, receipts: seq<Option<Data>>, now: int,
                         first': Option<Data>, account': Option<Account>, receipts': seq<Option<Data>>, now': int)
    requires |receipts| == |ToSweep(op, account, now)| && |receipts'| == |ToSweep(op, account', now')|
    requires Decide(s, op, first, account, receipts, now).Commit? && SeedOf(op).Some?
    requires Decide(s, op, first, account, receipts, now).target.Some?
    requires Follows(Decide(s, op, first, account, receipts, now).target.value, first')
    ensures Answers(op, Decide(s, op, first', account', receipts', now'))
  {
    hide SettleWindows, Normalized, Opened, Swept, Taken, CapOf, Exceeded, FreeAllowance, FreeBalance, Blocked, ValidId, ValidReservationKey,
         Spendable, ApplyTotals, AnyPlanHas, FindPlan, ExpiredReceipts, FindHold, WithoutHold, UsedOf, AmountOf, ToSweep, MaintenanceSource;
  }

  /**
    At most once: after an operation committed, calling it again at any later point of any history
    commits nothing. It repeats the first answer; only a release that found its hold expired may
    meanwhile have been overtaken by a late settlement.
  */
  lemma RepeatedCallIsReplayed(s: Settings, calls: seq<Call>, op: Operation, now: int, more: seq<Call>, now': int)
    requires DecideOn(s, Run(s, calls), op, now).Commit? && SeedOf(op).Some?
    ensures var later := Run(s, calls + [Call(op, now)] + more);
            && Answers(op, DecideOn(s, later, op, now'))
            && Apply(s, later, op, now') == later
  {
    hide Apply, Decide, ToSweep;
    var book, later := Run(s, calls), Run(s, calls + [Call(op, now)] + more);
    RowStillThere(s, calls, op, now, more);
    RepeatedDecision(s, op,
                     RowOf(book, FirstRow(op)), book.account, ReceiptsOf(book.rows, ToSweep(op, book.account, now)), now,
                     RowOf(later, FirstRow(op)), later.account, ReceiptsOf(later.rows, ToSweep(op, later.account, now')), now');
    NothingApplied(s, later, op, now');
  }

  /** Another request under the same key: what the row of the key keeps of the two is not the same. */
  predicate Differs(s: Settings, op: Operation, other: Operation) {
    if SeedOf(other).Some? && SeedOf(other).value.UsageSeed? then
      (op.Consume? || op.Record?) && (op.productId != other.productId || UsageCredits(op) != UsageCredits(other))
    else if other.Reserve? then op.Reserve? && (op.productId != other.productId || AmountOf(s, op.amount) != AmountOf(s, other.amount))
    else !other.Settle? && !other.ReleaseHold? && other != op
  }

  /** The credits of a charge, or of a debit recorded on the statement. */
  function UsageCredits(op: Operation): int
    requires op.Consume? || op.Record?
  {
    if op.Consume? then op.credits else -op.credits
  }

  /**
    A key is never used for two requests: at any later point of any history another request under the
    key of a committed one is refused, whatever its kind - with a conflict, unless it is malformed or
    asks for something that does not exist - and commits nothing.
  */
  lemma ReusedKeyConflicts(s: Settings, calls: seq<Call>, op: Operation, now: int, more: seq<Call>, other: Operation, now': int)
    requires DecideOn(s, Run(s, calls), op, now).Commit? && SeedOf(op).Some?
    requires FirstRow(other) == FirstRow(op) && Differs(s, op, other)
    ensures var c := DecideOn(s, Run(s, calls + [Call(op, now)] + more), other, now');
            c.Refused? && c.why in {KeyConflict, BadRequest, NotFound}
  {
    hide Run, Decide, ToSweep;
    var book, later := Run(s, calls), Run(s, calls + [Call(op, now)] + more);
    RowStillThere(s, calls, op, now, more);
    OtherDecision(s, op, RowOf(book, FirstRow(op)), book.account, ReceiptsOf(book.rows, ToSweep(op, book.account, now)), now,
                  other, RowOf(later, FirstRow(op)), later.account, ReceiptsOf(later.rows, ToSweep(other, later.account, now')), now');
  }

  lemma OtherDecision(s: Settings, op: Operation, first: Option<Data>, account: Option<Account>, receipts: seq<Option<Data>>, now: int,
                      other: Operation, first': Option<Data>, account': Option<Account>, receipts': seq<Option<Data>>, now': int)
    requires |receipts| == |ToSweep(op, account, now)| && |receipts'| == |ToSweep(other, account', now')|
    requires Decide(s, op, first, account, receipts, now).Commit? && SeedOf(op).Some?
    requires FirstRow(other) == FirstRow(op) && Differs(s, op, other)
    requires Decide(s, op, first, account, receipts, now).target.Some?
    requires Follows(Decide(s, op, first, account, receipts, now).target.value, first')
    ensures var c := Decide(s, other, first', account', receipts', now'); c.Refused? && c.why in {KeyConflict, BadRequest, NotFound}
  {
    hide SettleWindows, Normalized, Opened, Swept, Taken, CapOf, Exceeded, FreeAllowance, FreeBalance, Blocked, ValidId, ValidReservationKey,
         Spendable, ApplyTotals, AnyPlanHas, FindPlan, ExpiredReceipts, FindHold, WithoutHold, UsedOf, AmountOf, ToSweep, MaintenanceSource;
    if other.Reserve? {
      UnsizedAmounts(s, other.amount);
    }
  }

  lemma UnsizedAmounts(s: Settings, amount: Amount)
    ensures AmountOf(s, amount).Unsized? ==> AmountOf(s, amount).why in {BadRequest, NotFound}
  {}
}
