/**
  Whole histories of one user: whatever operations are called, in whatever order and with whatever
  clocks, the statement determines the account, receipts only move forward, every key is charged
  at most once and for what its receipt says, and a repeated call changes nothing.
*/
module Histories {
  import opened Prelude
  import opened Windows
  import opened Accounts
  import opened Operations
  import opened Books
  import opened Statement
  import opened Lifecycle

  // ---- the statement determines the account ----

  /** A live hold names the product of its receipt. */
  lemma HoldOfReceipt(book: Book, key: string, now: int)
    requires InLifecycle(book) && ReceiptRowOf(book.rows, key).Some?
    ensures HoldMatches(LiveHolds(AccountOf(book).holds, now), key, ReceiptRowOf(book.rows, key).value.receipt.productId)
  {
    SweepFinds(AccountOf(book).holds, now, key);
    assert HoldTerms(AccountOf(book).holds, key) == ActiveTerms(ReceiptRowOf(book.rows, key));
  }

  lemma DecisionAgrees(s: Settings, book: Book, op: Operation, now: int)
    requires Determined(book) && InLifecycle(book) && DecideOn(s, book, op, now).Commit?
    ensures var d := DecideOn(s, book, op, now).draft;
            Agrees(book.statement + d.posted, d.account, [])
  {
    hide Agrees, DecideConsume, DecideReserve, DecideSettle, DecideRelease, DecideMaintain, SettleWindows, Normalized, Opened, FindPlan,
         ValidId, Balance, HoldCredits, LiveHolds, FindHold, Alive, AnyPlanHas;
    var st, raw, account := book.statement, AccountOf(book), book.account;
    var first := RowOf(book, FirstRow(op));
    var receipts := ReceiptsOf(book.rows, ToSweep(op, account, now));
    match op
    case Consume(requestId, id, credits, kind, source, rateId) =>
      ConsumeAgrees(s, requestId, id, credits, kind, source, rateId, first, account, now, st);
    case Record(requestId, id, credits, kind, source, amountMinor, currency) =>
      if credits < 0 {
        ConsumeAgrees(s, requestId, id, -credits, kind, source, None, first, account, now, st);
      } else {
        var e := PlainEntry(now, kind, source, credits, Some(id), Some(requestId)).(amountMinor := amountMinor, currency := currency);
        AddAgrees(st, raw, id, e, RecordSeed(requestId), now);
      }
    case Reserve(_, _, _, _, _) =>
      ReserveAgrees(s, op, first, account, receipts, now, st);
    case Settle(key, _, _) =>
      if first.Some? { HoldOfReceipt(book, key, now); }
      SettleAgrees(s, op, first, account, receipts, now, st);
    case ReleaseHold(key, _) =>
      if first.Some? { HoldOfReceipt(book, key, now); }
      ReleaseAgrees(s, op, first, account, receipts, now, st);
    case Maintain =>
      MaintainAgrees(account, receipts, now, st);
    case GrantCredits(requestId, id, credits, amountMinor, currency) =>
      var e := PlainEntry(now, KindGrant, ByAdmin, credits, Some(id), Some(requestId)).(amountMinor := amountMinor, currency := currency);
      AddAgrees(st, raw, id, e, GrantSeed(requestId), now);
    case GrantPlan(requestId, planId, amountMinor, currency) =>
      var data := NormalizedAccount(raw, now).(grant := Some(Normalized(AssignedPlan(FindPlan(s.plans, planId).value, now), now)));
      var e := PlainEntry(now, KindPlan, ByAdmin, 0, None, Some(requestId)).(amountMinor := amountMinor, currency := currency);
      PlanAgrees(st, raw, data, e, GrantSeed(requestId), now);
    case ChangePlan(requestId, planId) =>
      var data := NormalizedAccount(raw.(own := Chosen(raw.own, FindPlan(s.plans, planId).value, now)), now);
      PlanAgrees(st, raw, data, PlainEntry(now, KindPlan, ByUser, 0, None, Some(requestId)), PlanSeed(requestId), now);
  }

  lemma OperationKeepsBooks(s: Settings, book: Book, op: Operation, now: int)
    requires Determined(book) && InLifecycle(book)
    ensures Determined(Apply(s, book, op, now)) && InLifecycle(Apply(s, book, op, now))
  {
    hide Agrees, Decide, Alive;
    OperationKeepsLifecycle(s, book, op, now);
    if DecideOn(s, book, op, now).Commit? {
      DecisionAgrees(s, book, op, now);
    }
  }

  lemma EmptyBook()
    ensures Determined(EMPTY_BOOK) && InLifecycle(EMPTY_BOOK)
  {}

  /**
    In every history: the sequence is the number of entries and numbers them, the running totals are
    the entries folded, every balance is the sum of what was added less what was taken from it, the
    consumed total is the sum of the charges, and the holds add up to the entries' held credits;
    and holds and active receipts are the same thing, never more than 25.
  */
  lemma {:induction false} StatementDeterminesTheAccount(s: Settings, calls: seq<Call>)
    ensures Determined(Run(s, calls)) && InLifecycle(Run(s, calls))
  {
    if calls == [] {
      EmptyBook();
    } else {
      var n := |calls| - 1;
      StatementDeterminesTheAccount(s, calls[..n]);
      OperationKeepsBooks(s, Run(s, calls[..n]), calls[n].op, calls[n].now);
    }
  }

  // ---- rows and receipts over time ----

  /** How far a receipt may have come: what is settled or released is final. */
  predicate Progress(before: Option<Data>, after: Option<Data>) {
    || before.None?
    || before == after
    || (&& before.value.ReceiptData? && after.Some? && after.value.ReceiptData?
        && var b, c := before.value.receipt, after.value.receipt;
           && TermsOf(b) == TermsOf(c) && b.source == c.source && b.estimate == c.estimate
           && (b.status == StatusActive || (b.status == StatusExpired && c.status == StatusSettled)))
  }

  lemma {:induction false} RunExtends(s: Settings, calls: seq<Call>, more: seq<Call>)
    ensures Run(s, calls + more) == if more == [] then Run(s, calls)
                                    else Apply(s, Run(s, calls + more[..|more| - 1]), more[|more| - 1].op, more[|more| - 1].now)
  {
    hide Apply;
    if more == [] {
      assert calls + more == calls;
    } else {
      assert (calls + more)[..|calls + more| - 1] == calls + more[..|more| - 1];
    }
  }

  lemma {:induction false} ReceiptsMoveForward(s: Settings, calls: seq<Call>, more: seq<Call>, key: string)
    ensures Progress(ReceiptRowOf(Run(s, calls).rows, key), ReceiptRowOf(Run(s, calls + more).rows, key))
  {
    hide Apply, Alive;
    RunExtends(s, calls, more);
    if more != [] {
      var front, last := more[..|more| - 1], more[|more| - 1];
      ReceiptsMoveForward(s, calls, front, key);
      StatementDeterminesTheAccount(s, calls + front);
      OperationKeepsLifecycle(s, Run(s, calls + front), last.op, last.now);
      assert Moves(ReceiptRowOf(Run(s, calls + front).rows, key), ReceiptRowOf(Run(s, calls + more).rows, key));
    }
  }

  /**
    In every history the totals are sums over the statement: credits that came in, that went out and
    that expired, and the money granted and paid in each currency.
  */
  lemma TotalsAreTheSums(s: Settings, calls: seq<Call>, currency: string)
    requires currency != ""
    ensures var book := Run(s, calls);
            var t, st := AccountOf(book).totals, book.statement;
            && t.creditsIn == Total(st, CreditsGained()) && t.creditsOut == Total(st, CreditsSpent()) && t.expired == Total(st, ExpiredCredits())
            && Lookup(t.granted, currency).GetOr(0) == Total(st, GrantedIn(currency))
            && Lookup(t.paid, currency).GetOr(0) == Total(st, PaidIn(currency))
  {
    hide Run, FoldTotals;
    StatementDeterminesTheAccount(s, calls);
    FoldedTotalsAreSums(Run(s, calls).statement, currency);
  }
}
