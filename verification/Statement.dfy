/**
  The statement determines the account: in every history the sequence counter, the running totals,
  the balances, the consumed total and the held credits are all functions of the entries.
*/
module Statement {
  import opened Prelude
  import opened Plans
  import opened Windows
  import opened Rollover
  import opened Accounts
  import opened Operations
  import opened Books

  // ---- what an entry means ----

  predicate AddsCredits(k: Kind) {
    k == KindGrant || k == KindPurchase || k == KindAdjustment || k == KindUsage
  }

  /** What an entry does to the additional credits of a product. */
  function Net(e: Entry, id: string): int {
    if e.productId != Some(id) then 0
    else (if AddsCredits(e.kind) && e.credits > 0 then e.credits else 0) - e.fromBalance
  }

  function HeldBy(e: Entry, id: string): int {
    if e.productId == Some(id) then e.held else 0
  }

  function ConsumedBy(e: Entry): int {
    e.fromAllowance + e.fromBalance
  }

  function NetOf(id: string): Posted -> int {
    (p: Posted) => Net(p.entry, id)
  }

  function HeldOf(id: string): Posted -> int {
    (p: Posted) => HeldBy(p.entry, id)
  }

  function Consumption(): Posted -> int {
    (p: Posted) => ConsumedBy(p.entry)
  }

  function FoldTotals(statement: seq<Posted>): Totals {
    if statement == [] then ZERO_TOTALS
    else ApplyTotals(FoldTotals(statement[..|statement| - 1]), statement[|statement| - 1].entry)
  }

  // ---- what the running totals are ----

  /** Credits gained, spent and lapsed, and money paid and granted, by one entry. */
  function CreditsGained(): Posted -> int {
    (p: Posted) => if p.entry.kind != KindExpiry && p.entry.credits > 0 then p.entry.credits else 0
  }

  function CreditsSpent(): Posted -> int {
    (p: Posted) => if p.entry.kind != KindExpiry && p.entry.credits < 0 then -p.entry.credits else 0
  }

  function ExpiredCredits(): Posted -> int {
    (p: Posted) => if p.entry.kind == KindExpiry then -p.entry.credits else 0
  }

  function GrantedIn(currency: string): Posted -> int {
    (p: Posted) => if p.entry.currency == currency && (p.entry.kind == KindGrant || p.entry.source == ByAdmin) then p.entry.amountMinor else 0
  }

  function PaidIn(currency: string): Posted -> int {
    (p: Posted) => if p.entry.currency == currency && p.entry.kind != KindGrant && p.entry.source != ByAdmin then p.entry.amountMinor else 0
  }

  /** The running totals are the sums over the entries, money per currency; amounts without one are not counted. */
  lemma {:induction false} FoldedTotalsAreSums(st: seq<Posted>, currency: string)
    ensures var t := FoldTotals(st);
            && t.creditsIn == Total(st, CreditsGained()) && t.creditsOut == Total(st, CreditsSpent()) && t.expired == Total(st, ExpiredCredits())
            && Lookup(t.granted, currency).GetOr(0) == (if currency == "" then 0 else Total(st, GrantedIn(currency)))
            && Lookup(t.paid, currency).GetOr(0) == (if currency == "" then 0 else Total(st, PaidIn(currency)))
  {
    if st != [] {
      FoldedTotalsAreSums(st[..|st| - 1], currency);
    }
  }

  /** The credits of all holds of a product on the row, expired ones included. */
  function HoldCredits(holds: seq<Hold>, id: string): nat {
    if holds == [] then 0
    else HoldCredits(holds[..|holds| - 1], id) + if holds[|holds| - 1].productId == id then holds[|holds| - 1].credits else 0
  }

  /** The account agrees with the statement, `owed` being holds already dropped but not yet posted. */
  ghost predicate Agrees(st: seq<Posted>, a: Account, owed: seq<Hold>) {
    && a.sequence == |st|
    && (forall i :: 0 <= i < |st| ==> st[i].sequence == i + 1)
    && a.totals == FoldTotals(st)
    && a.consumed == Total(st, Consumption())
    && (forall id: string :: Balance(a, id) == Total(st, NetOf(id)))
    && (forall id: string :: HoldCredits(a.holds, id) + HoldCredits(owed, id) == Total(st, HeldOf(id)))
  }

  ghost predicate Determined(book: Book) {
    Agrees(book.statement, AccountOf(book), [])
  }

  // ---- posting one entry ----

  lemma TotalOfPosted(st: seq<Posted>, p: Posted, f: Posted -> int)
    ensures Total(st + [p], f) == Total(st, f) + f(p)
  {
    TotalOfOne(p, f);
    TotalOfConcatenation(st, [p], f);
  }

  /** A change of the account and the entry that says so keep the two in agreement. */
  lemma PostAgrees(st: seq<Posted>, d: Draft, b: Account, owed: seq<Hold>, owed': seq<Hold>, e: Entry, seed: Seed, now: int)
    requires Agrees(st + d.posted, d.account, owed)
    requires b.sequence == d.account.sequence && b.totals == d.account.totals
    requires b.consumed == d.account.consumed + ConsumedBy(e)
    requires forall id: string :: Balance(b, id) == Balance(d.account, id) + Net(e, id)
    requires forall id: string :: HoldCredits(b.holds, id) + HoldCredits(owed', id) ==
                                  HoldCredits(d.account.holds, id) + HoldCredits(owed, id) + HeldBy(e, id)
    ensures var d' := Post(d.(account := b), e, seed, now);
            Agrees(st + d'.posted, d'.account, owed')
  {
    hide Spendable, AddsCredits, ApplyTotals, Balance, HoldCredits;
    var before := st + d.posted;
    var d' := Post(d.(account := b), e, seed, now);
    var p := d'.posted[|d.posted|];
    assert st + d'.posted == before + [p];
    TotalOfPosted(before, p, Consumption());
    forall id: string
      ensures Total(before + [p], NetOf(id)) == Total(before, NetOf(id)) + Net(e, id)
      ensures Total(before + [p], HeldOf(id)) == Total(before, HeldOf(id)) + HeldBy(e, id)
    {
      TotalOfPosted(before, p, NetOf(id));
      TotalOfPosted(before, p, HeldOf(id));
    }
    forall id: string
      ensures Balance(d'.account, id) == Balance(b, id)
    {
      SameBalances(d'.account, b, id);
    }
    assert (before + [p])[..|before|] == before;
  }

  lemma SameBalances(a: Account, b: Account, id: string)
    requires a.balances == b.balances
    ensures Balance(a, id) == Balance(b, id)
  {}

  // ---- the stages every operation goes through ----

  /** Fields the statement determines. */
  predicate SameBooks(a: Account, b: Account) {
    a.sequence == b.sequence && a.totals == b.totals && a.consumed == b.consumed && a.balances == b.balances && a.holds == b.holds
  }

  lemma AgreesWithSameBooks(st: seq<Posted>, a: Account, b: Account, owed: seq<Hold>)
    requires Agrees(st, a, owed) && SameBooks(a, b)
    ensures Agrees(st, b, owed)
  {
    forall id: string
      ensures Balance(b, id) == Balance(a, id)
    {}
  }

  lemma {:induction false} PostWindowsAgrees(st: seq<Posted>, d: Draft, entries: seq<Pending>, now: int)
    requires Agrees(st + d.posted, d.account, [])
    ensures var d' := PostWindows(d, entries, now); Agrees(st + d'.posted, d'.account, [])
    ensures var d' := PostWindows(d, entries, now);
            d'.account.holds == d.account.holds && d'.account.balances == d.account.balances
  {
    hide Agrees, Spendable, ApplyTotals;
    if entries != [] {
      var front, last := entries[..|entries| - 1], entries[|entries| - 1];
      PostWindowsAgrees(st, d, front, now);
      var mid := PostWindows(d, front, now);
      PostAgrees(st, mid, mid.account, [], [], WindowEntry(last), WindowSeedOf(last), now);
      assert mid.(account := mid.account) == mid;
    }
  }

  lemma SettledAgrees(st: seq<Posted>, raw: Account, data: Account, now: int)
    requires Agrees(st, raw, []) && SameBooks(raw, data)
    ensures var d := SettleWindows(raw, data, now);
            && Agrees(st + d.posted, d.account, [])
            && d.account.holds == raw.holds && d.account.balances == raw.balances
  {
    hide Agrees, RolledOver, Normalized, CurrentWindows;
    var rolled := RolledOver(raw.windows, CurrentWindows(data, now), SettledCounters(raw), now);
    var start := data.(windows := rolled.state);
    AgreesWithSameBooks(st, raw, start, []);
    assert st + [] == st;
    PostWindowsAgrees(st, Draft(start, []), rolled.entries, now);
  }

  lemma OpenedAgrees(st: seq<Posted>, raw: Account, now: int)
    requires Agrees(st, raw, [])
    ensures var d := Opened(raw, now);
            && Agrees(st + d.posted, d.account, [])
            && d.account.holds == raw.holds && d.account.balances == raw.balances
  {
    hide Agrees, SettleWindows, Normalized;
    SettledAgrees(st, raw, NormalizedAccount(raw, now), now);
  }

  lemma {:induction false} HoldCreditsSplit(holds: seq<Hold>, id: string, now: int)
    ensures HoldCredits(holds, id) == HoldCredits(LiveHolds(holds, now), id) + HoldCredits(ExpiredHolds(holds, now), id)
  {
    if holds != [] {
      var front, last := holds[..|holds| - 1], holds[|holds| - 1];
      HoldCreditsSplit(front, id, now);
      var live, expired := LiveHolds(front, now), ExpiredHolds(front, now);
      assert (live + [last])[..|live|] == live;
      assert (expired + [last])[..|expired|] == expired;
      assert live + [] == live && expired + [] == expired;
    }
  }

  lemma {:induction false} HoldCreditsOfConcatenation(a: seq<Hold>, b: seq<Hold>, id: string)
    ensures HoldCredits(a + b, id) == HoldCredits(a, id) + HoldCredits(b, id)
  {
    if b == [] {
      assert a + b == a;
    } else {
      assert (a + b)[..|a + b| - 1] == a + b[..|b| - 1];
      HoldCreditsOfConcatenation(a, b[..|b| - 1], id);
    }
  }

  lemma HoldCreditsOfOne(h: Hold, id: string)
    ensures HoldCredits([h], id) == if h.productId == id then h.credits else 0
  {
    assert [h][..0] == [];
  }

  lemma {:induction false} PostExpiredAgrees(st: seq<Posted>, d: Draft, expired: seq<Hold>, more: seq<Hold>, now: int)
    requires Agrees(st + d.posted, d.account, expired + more)
    ensures var d' := PostExpired(d, expired, now);
            && Agrees(st + d'.posted, d'.account, more)
            && d'.account.holds == d.account.holds && d'.account.balances == d.account.balances
  {
    hide Agrees, Spendable, ApplyTotals, HoldCredits;
    if expired == [] {
      assert expired + more == more;
    } else {
      var n := |expired| - 1;
      var h := expired[n];
      assert expired + more == expired[..n] + ([h] + more);
      PostExpiredAgrees(st, d, expired[..n], [h] + more, now);
      var mid := PostExpired(d, expired[..n], now);
      assert mid.(account := mid.account) == mid;
      forall id: string
        ensures HoldCredits([h] + more, id) == HoldCredits(more, id) - HeldBy(ExpireEntry(h), id)
      {
        HoldCreditsOfConcatenation([h], more, id);
        HoldCreditsOfOne(h, id);
      }
      PostAgrees(st, mid, mid.account, [h] + more, more, ExpireEntry(h), ExpireSeed(h.key), now);
    }
  }

  lemma SweptAgrees(st: seq<Posted>, d: Draft, now: int)
    requires Agrees(st + d.posted, d.account, [])
    ensures var d' := Swept(d, now);
            && Agrees(st + d'.posted, d'.account, [])
            && d'.account.holds == LiveHolds(d.account.holds, now) && d'.account.balances == d.account.balances
  {
    hide PostExpired, LiveHolds, ExpiredHolds, ApplyTotals;
    var live := d.account.(holds := LiveHolds(d.account.holds, now));
    var expired := ExpiredHolds(d.account.holds, now);
    forall id: string
      ensures HoldCredits(live.holds, id) + HoldCredits(expired, id) == Total(st + d.posted, HeldOf(id))
    {
      HoldCreditsSplit(d.account.holds, id, now);
      assert HoldCredits([], id) == 0;
      assert HoldCredits(d.account.holds, id) + HoldCredits([], id) == Total(st + d.posted, HeldOf(id));
    }
    forall id: string
      ensures Balance(live, id) == Total(st + d.posted, NetOf(id))
    {
      SameBalances(live, d.account, id);
    }
    assert Agrees(st + d.posted, live, expired);
    hide Agrees;
    assert expired + [] == expired;
    PostExpiredAgrees(st, d.(account := live), expired, [], now);
  }

  // ---- the change each operation makes ----

  lemma TakenBooks(a: Account, id: string, fromAllowance: int, fromBalance: int, cap: Option<RateCap>, counted: int, now: int)
    ensures var b := Taken(a, id, fromAllowance, fromBalance, cap, counted, now);
            && b.sequence == a.sequence && b.totals == a.totals && b.holds == a.holds && b.windows == a.windows
            && b.consumed == a.consumed + fromAllowance + fromBalance
            && forall other: string :: Balance(b, other) == Balance(a, other) - if other == id then fromBalance else 0
  {
    hide Effective, Active, Charged, Counted;
  }

  lemma {:induction false} DroppedCredits(holds: seq<Hold>, key: string, id: string)
    ensures HoldCredits(WithoutHold(holds, key), id) ==
            HoldCredits(holds, id) - if FindHold(holds, key).Some? && FindHold(holds, key).value.productId == id then FindHold(holds, key).value.credits else 0
  {
    if holds != [] {
      var h, rest := holds[0], holds[1..];
      assert holds == [h] + rest;
      HoldCreditsOfConcatenation([h], rest, id);
      HoldCreditsOfOne(h, id);
      if h.key != key {
        DroppedCredits(rest, key, id);
        HoldCreditsOfConcatenation([h], WithoutHold(rest, key), id);
      }
    }
  }

  lemma ConsumeAgrees(s: Settings, requestId: string, id: string, credits: int, kind: Kind, source: Source, rateId: Option<string>,
                      first: Option<Data>, account: Option<Account>, now: int, st: seq<Posted>)
    requires Agrees(st, account.GetOr(NO_ACCOUNT), [])
    requires DecideConsume(s, requestId, id, credits, kind, source, rateId, first, account, now).Commit?
    ensures var d := DecideConsume(s, requestId, id, credits, kind, source, rateId, first, account, now).draft;
            Agrees(st + d.posted, d.account, [])
  {
    hide Agrees, Opened, Taken, CapOf, Exceeded, FreeAllowance, FreeBalance, Blocked, ValidId, HoldCredits, Balance;
    var raw := account.GetOr(NO_ACCOUNT);
    var d := Opened(raw, now);
    OpenedAgrees(st, raw, now);
    var a := d.account;
    var fromAllowance := Min(credits, FreeAllowance(a, id, now));
    var fromBalance := credits - fromAllowance;
    var cap := CapOf(a, s.plans, id, rateId, now);
    TakenBooks(a, id, fromAllowance, fromBalance, cap, credits, now);
    var e := PlainEntry(now, kind, source, -credits, Some(id), Some(requestId)).(fromAllowance := fromAllowance, fromBalance := fromBalance);
    PostAgrees(st, d, Taken(a, id, fromAllowance, fromBalance, cap, credits, now), [], [], e, UsageSeed(requestId), now);
  }

  lemma AddAgrees(st: seq<Posted>, raw: Account, id: string, e: Entry, seed: Seed, now: int)
    requires Agrees(st, raw, [])
    requires e.productId == Some(id) && AddsCredits(e.kind) && e.credits > 0 && e.fromAllowance == e.fromBalance == e.held == 0
    ensures var d := Opened(raw, now);
            var d' := Post(d.(account := WithBalance(d.account, id, Balance(d.account, id) + e.credits)), e, seed, now);
            Agrees(st + d'.posted, d'.account, [])
  {
    hide Agrees, Opened, HoldCredits, Post;
    var d := Opened(raw, now);
    OpenedAgrees(st, raw, now);
    PostAgrees(st, d, WithBalance(d.account, id, Balance(d.account, id) + e.credits), [], [], e, seed, now);
  }

  lemma PlanAgrees(st: seq<Posted>, raw: Account, data: Account, e: Entry, seed: Seed, now: int)
    requires Agrees(st, raw, []) && SameBooks(raw, data)
    requires e.productId == None && e.fromAllowance == e.fromBalance == 0
    ensures var d' := Post(SettleWindows(raw, data, now), e, seed, now);
            Agrees(st + d'.posted, d'.account, [])
  {
    hide Agrees, SettleWindows, HoldCredits, Balance, Post;
    var d := SettleWindows(raw, data, now);
    SettledAgrees(st, raw, data, now);
    assert d.(account := d.account) == d;
    PostAgrees(st, d, d.account, [], [], e, seed, now);
  }

  lemma ReserveAgrees(s: Settings, op: Operation, first: Option<Data>, account: Option<Account>, receipts: seq<Option<Data>>, now: int, st: seq<Posted>)
    requires op.Reserve? && |receipts| == |ToSweep(op, account, now)|
    requires Agrees(st, account.GetOr(NO_ACCOUNT), [])
    requires DecideReserve(s, op, first, account, receipts, now).Commit?
    ensures var d := DecideReserve(s, op, first, account, receipts, now).draft;
            Agrees(st + d.posted, d.account, [])
  {
    hide Agrees, Opened, Swept, CapOf, Exceeded, Spendable, Blocked, ValidId, ValidReservationKey, HoldCredits, Balance, ExpiredReceipts, ToSweep, AmountOf;
    var raw := account.GetOr(NO_ACCOUNT);
    OpenedAgrees(st, raw, now);
    SweptAgrees(st, Opened(raw, now), now);
    var d := Swept(Opened(raw, now), now);
    var credits := AmountOf(s, op.amount).credits;
    var rateId := if op.amount.Priced? then Some(op.amount.estimate.rateId) else None;
    var cap := CapOf(d.account, s.plans, op.productId, rateId, now);
    var hold := Hold(op.key, op.productId, credits, now, now + op.ttl.GetOr(DEFAULT_TTL), if cap.Some? then Some(cap.value.rateId) else None);
    var b := d.account.(holds := d.account.holds + [hold]);
    var e := PlainEntry(now, KindReservation, op.source, 0, Some(op.productId), Some(op.key)).(held := credits);
    forall id: string
      ensures HoldCredits(b.holds, id) == HoldCredits(d.account.holds, id) + HeldBy(e, id)
      ensures Balance(b, id) == Balance(d.account, id)
    {
      HoldCreditsOfConcatenation(d.account.holds, [hold], id);
      HoldCreditsOfOne(hold, id);
      SameBalances(b, d.account, id);
    }
    PostAgrees(st, d, b, [], [], e, ReserveSeed(op.key), now);
  }

  /** The hold of a receipt is the receipt's own: same product (a fact of the lifecycle). */
  predicate HoldMatches(holds: seq<Hold>, key: string, productId: string) {
    FindHold(holds, key).Some? ==> FindHold(holds, key).value.productId == productId
  }

  lemma SettleAgrees(s: Settings, op: Operation, first: Option<Data>, account: Option<Account>, receipts: seq<Option<Data>>, now: int, st: seq<Posted>)
    requires op.Settle? && |receipts| == |ToSweep(op, account, now)|
    requires Agrees(st, account.GetOr(NO_ACCOUNT), [])
    requires DecideSettle(s, op, first, account, receipts, now).Commit?
    requires ReceiptOf(first, op.source).Some? ==>
               HoldMatches(LiveHolds(account.GetOr(NO_ACCOUNT).holds, now), op.key, ReceiptOf(first, op.source).value.productId)
    ensures var d := DecideSettle(s, op, first, account, receipts, now).draft;
            Agrees(st + d.posted, d.account, [])
  {
    hide Agrees, Opened, Swept, Taken, CapOf, FreeAllowance, FreeBalance, ValidReservationKey, HoldCredits, Balance, ExpiredReceipts, ToSweep, UsedOf, WithoutHold, FindHold, LiveHolds;
    var raw := account.GetOr(NO_ACCOUNT);
    OpenedAgrees(st, raw, now);
    SweptAgrees(st, Opened(raw, now), now);
    var d := Swept(Opened(raw, now), now);
    var r := ReceiptOf(first, op.source).value;
    var id := r.productId;
    var used := UsedOf(s, r, op.usage).credits;
    var hold := FindHold(d.account.holds, op.key);
    var a := Dropped(d.account, op.key);
    var fromAllowance := Min(used, FreeAllowance(a, id, now));
    var fromBalance := Min(used - fromAllowance, FreeBalance(a, id, now));
    var charged := fromAllowance + fromBalance;
    var cap := CapOf(a, s.plans, id, if r.estimate.Some? then Some(r.estimate.value.rateId) else None, now);
    var b := Taken(a, id, fromAllowance, fromBalance, cap, used, now);
    TakenBooks(a, id, fromAllowance, fromBalance, cap, used, now);
    var e := PlainEntry(now, KindSettlement, op.source, -charged, Some(id), Some(op.key))
               .(fromAllowance := fromAllowance, fromBalance := fromBalance, held := if hold.Some? then -(hold.value.credits as int) else 0,
                 details := Details.Settled(r.credits, used, used - charged));
    forall other: string
      ensures HoldCredits(b.holds, other) == HoldCredits(d.account.holds, other) + HeldBy(e, other)
      ensures Balance(b, other) == Balance(d.account, other) + Net(e, other)
    {
      DroppedCredits(d.account.holds, op.key, other);
      SameBalances(a, d.account, other);
    }
    PostAgrees(st, d, b, [], [], e, SettleSeed(op.key), now);
  }

  lemma ReleaseAgrees(s: Settings, op: Operation, first: Option<Data>, account: Option<Account>, receipts: seq<Option<Data>>, now: int, st: seq<Posted>)
    requires op.ReleaseHold? && |receipts| == |ToSweep(op, account, now)|
    requires Agrees(st, account.GetOr(NO_ACCOUNT), [])
    requires DecideRelease(s, op, first, account, receipts, now).Commit?
    requires ReceiptOf(first, op.source).Some? ==>
               HoldMatches(LiveHolds(account.GetOr(NO_ACCOUNT).holds, now), op.key, ReceiptOf(first, op.source).value.productId)
    ensures var d := DecideRelease(s, op, first, account, receipts, now).draft;
            Agrees(st + d.posted, d.account, [])
  {
    hide Agrees, Opened, Swept, ValidReservationKey, HoldCredits, Balance, ExpiredReceipts, ToSweep, WithoutHold, FindHold, LiveHolds;
    var raw := account.GetOr(NO_ACCOUNT);
    OpenedAgrees(st, raw, now);
    SweptAgrees(st, Opened(raw, now), now);
    var d := Swept(Opened(raw, now), now);
    var r := ReceiptOf(first, op.source).value;
    var hold := FindHold(d.account.holds, op.key);
    if hold.Some? {
      var b := Dropped(d.account, op.key);
      var e := PlainEntry(now, KindRelease, op.source, 0, Some(r.productId), Some(op.key)).(held := -(hold.value.credits as int));
      forall id: string
        ensures HoldCredits(b.holds, id) == HoldCredits(d.account.holds, id) + HeldBy(e, id)
        ensures Balance(b, id) == Balance(d.account, id)
      {
        DroppedCredits(d.account.holds, op.key, id);
        SameBalances(b, d.account, id);
      }
      PostAgrees(st, d, b, [], [], e, ReleaseSeed(op.key), now);
    }
  }

  lemma MaintainAgrees(account: Option<Account>, receipts: seq<Option<Data>>, now: int, st: seq<Posted>)
    requires |receipts| == |ToSweep(Maintain, account, now)|
    requires Agrees(st, account.GetOr(NO_ACCOUNT), [])
    requires DecideMaintain(account, receipts, now).Commit?
    ensures var d := DecideMaintain(account, receipts, now).draft;
            Agrees(st + d.posted, d.account, [])
  {
    hide Agrees, Swept, SettleWindows, Normalized, MaintenanceSource, ExpiredReceipts, ToSweep;
    var raw := account.value;
    var data := NormalizedAccount(raw.(own := MaintenanceSource(raw.own, now)), now);
    SettledAgrees(st, raw, data, now);
    SweptAgrees(st, SettleWindows(raw, data, now), now);
  }
}
