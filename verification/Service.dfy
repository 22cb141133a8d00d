/**
  The operations as the service runs them (rt-app/core-go/subscriptions): read rows, change the
  account step by step, send one guarded transaction, and try again on a conflict. On rows that
  record the books of a user, each leaves rows that record what the operation does to them.
*/
module Service {
  import opened Prelude
  import opened Store
  import opened Plans
  import opened Windows
  import opened Accounts
  import opened Operations
  import opened Books
  import opened Statement
  import opened Lifecycle
  import opened Histories
  import opened Transactions
  import opened Interleavings
  import opened Progress
  import opened Drafts

  /** What a caller is told. */
  datatype Outcome = Failed(why: Refusal) | Repeated | Done

  function OutcomeOf(c: Decision): Outcome {
    match c
    case Refused(why) => Failed(why)
    case Replayed => Repeated
    case Commit(_, _, _) => Done
  }

  // ---- one attempt, from rows to a decision ----

  /** `chargeable`, on an account brought to the present. */
  method CheckChargeable(s: Settings, data: Account, id: string, now: int) returns (refusal: Option<Refusal>)
    ensures refusal == Blocked(s, data, id, now)
  {
    var e := if OnGrant(data, now) then data.grant.value else data.own;
    if e.plan.None? || !e.active || now >= e.periodEnd {
      return Some(Inactive);
    }
    if s.paymentRequired && e.mode != Admin && !(s.provider.Some? && e.mode == Provider(s.provider.value)) {
      return Some(PaymentRequired);
    }
    if FindProduct(e.plan.value.products, id).None? {
      return Some(NotInPlan);
    }
    refusal := None;
  }

  method AttemptConsume(s: Settings, requestId: string, id: string, credits: int, kind: Kind, source: Source, rateId: Option<string>,
                        first: Option<Data>, account: Option<Account>, now: int)
    returns (c: Decision)
    ensures c == DecideConsume(s, requestId, id, credits, kind, source, rateId, first, account, now)
  {
    hide SettleWindows, NormalizedAccount, ChargedUsage, Blocked, ValidId;
    if !ValidId(requestId) || !ValidCredits(credits) {
      return Refused(BadRequest);
    }
    if first.Some? {
      if first.value.UsageData? && first.value.productId == id && first.value.credits == credits {
        return Replayed;
      }
      return Refused(KeyConflict);
    }
    var raw := account.GetOr(NO_ACCOUNT);
    var data := NormalizeAccount(raw, now);
    var blocked := CheckChargeable(s, data, id, now);
    if blocked.Some? {
      return Refused(blocked.value);
    }
    var d := new AccountDraft(data);
    d.Settle(raw, now);
    c := ChargeUsage(s, d, requestId, id, credits, kind, source, rateId, now);
  }

  method ChargeUsage(s: Settings, d: AccountDraft, requestId: string, id: string, credits: int, kind: Kind, source: Source, rateId: Option<string>, now: int)
    returns (c: Decision)
    requires credits >= 0
    modifies d
    ensures c == ChargedUsage(s, old(d.Value()), requestId, id, credits, kind, source, rateId, now)
  {
    hide Taken, CapOf, Exceeded, FreeAllowance, FreeBalance, FullWindow, Post;
    var allowance, balance := d.Free(id, now);
    var fromAllowance := Min(credits, allowance);
    var fromBalance := credits - fromAllowance;
    if fromBalance > balance {
      return Refused(LimitReached(FullWindow(d.account, id, now)));
    }
    var cap := CapOf(d.account, s.plans, id, rateId, now);
    var over := d.Overflow(id, cap, credits, now);
    if over.Some? {
      return Refused(ModelLimit(over.value));
    }
    d.Charge(id, fromAllowance, fromBalance, cap, credits, now);
    var e := PlainEntry(now, kind, source, -credits, Some(id), Some(requestId)).(fromAllowance := fromAllowance, fromBalance := fromBalance);
    d.Append(e, UsageSeed(requestId), now);
    c := Commit(Draft(d.account, d.posted), Some(UsageData(id, credits, fromAllowance, fromBalance, now)), []);
  }

  /** Additional credits: what Record and Grant have in common once the request is known to be new. */
  method AttemptAdd(s: Settings, op: Operation, id: string, credits: nat, e: Entry, seed: Seed, account: Option<Account>, now: int)
    returns (c: Decision)
    ensures c == (
      if !AnyPlanHas(s.plans, id) then Refused(NotFound)
      else
        var d := Opened(account.GetOr(NO_ACCOUNT), now);
        var balance := Balance(d.account, id) + credits;
        if balance < 0 || balance > MAX_CREDITS then Refused(BadRequest)
        else Commit(Post(d.(account := WithBalance(d.account, id, balance)), e, seed, now), Some(RequestData(op)), []))
  {
    hide SettleWindows, NormalizedAccount, FindProduct, Post;
    var known := false;
    for i := 0 to |s.plans|
      invariant known <==> exists j :: 0 <= j < i && FindProduct(s.plans[j].products, id).Some?
    {
      if FindProduct(s.plans[i].products, id).Some? {
        known := true;
      }
    }
    if !known {
      return Refused(NotFound);
    }
    var raw := account.GetOr(NO_ACCOUNT);
    var data := NormalizeAccount(raw, now);
    var d := new AccountDraft(data);
    d.Settle(raw, now);
    var balance := Balance(d.account, id) + credits;
    if balance < 0 || balance > MAX_CREDITS {
      return Refused(BadRequest);
    }
    d.account := d.account.(balances := d.account.balances[id := balance]);
    d.Append(e, seed, now);
    c := Commit(Draft(d.account, d.posted), Some(RequestData(op)), []);
  }

  method AttemptRecord(s: Settings, op: Operation, first: Option<Data>, account: Option<Account>, now: int) returns (c: Decision)
    requires op.Record?
    ensures c == DecideRecord(s, op, first, account, now)
  {
    hide Opened, Post, ValidId, AnyPlanHas, Balance, WithBalance, FindProduct;
    if !ValidId(op.requestId) || !ValidId(op.productId) || !RecordKind(op.kind) || !ValidCredits(op.credits) || op.amountMinor < 0 {
      return Refused(BadRequest);
    }
    if first.Some? {
      return if first.value == RequestData(op) then Replayed else Refused(KeyConflict);
    }
    var e := PlainEntry(now, op.kind, op.source, op.credits, Some(op.productId), Some(op.requestId)).(amountMinor := op.amountMinor, currency := op.currency);
    c := AttemptAdd(s, op, op.productId, op.credits, e, RecordSeed(op.requestId), account, now);
  }

  method AttemptGrantCredits(s: Settings, op: Operation, first: Option<Data>, account: Option<Account>, now: int) returns (c: Decision)
    requires op.GrantCredits?
    ensures c == DecideGrantCredits(s, op, first, account, now)
  {
    hide Opened, Post, ValidId, AnyPlanHas, Balance, WithBalance, FindProduct;
    if !ValidId(op.requestId) || !ValidId(op.productId) || !ValidCredits(op.credits) || op.amountMinor < 0 {
      return Refused(BadRequest);
    }
    if first.Some? {
      return if first.value == RequestData(op) then Replayed else Refused(KeyConflict);
    }
    var e := PlainEntry(now, KindGrant, ByAdmin, op.credits, Some(op.productId), Some(op.requestId)).(amountMinor := op.amountMinor, currency := op.currency);
    c := AttemptAdd(s, op, op.productId, op.credits, e, GrantSeed(op.requestId), account, now);
  }

  method AttemptGrantPlan(s: Settings, op: Operation, first: Option<Data>, account: Option<Account>, now: int) returns (c: Decision)
    requires op.GrantPlan?
    ensures c == DecideGrantPlan(s, op, first, account, now)
  {
    if !ValidId(op.requestId) || !ValidId(op.planId) || op.amountMinor < 0 {
      return Refused(BadRequest);
    }
    if first.Some? {
      return if first.value == RequestData(op) then Replayed else Refused(KeyConflict);
    }
    var plan := FindPlan(s.plans, op.planId);
    if plan.None? {
      return Refused(NotFound);
    }
    var raw := account.GetOr(NO_ACCOUNT);
    var data := NormalizeAccount(raw, now);
    var grant := Normalize(AssignedPlan(plan.value, now), now);
    var d := new AccountDraft(data.(grant := Some(grant)));
    d.Settle(raw, now);
    var e := PlainEntry(now, KindPlan, ByAdmin, 0, None, Some(op.requestId)).(amountMinor := op.amountMinor, currency := op.currency);
    d.Append(e, GrantSeed(op.requestId), now);
    c := Commit(Draft(d.account, d.posted), Some(RequestData(op)), []);
  }

  method AttemptChange(s: Settings, op: Operation, first: Option<Data>, account: Option<Account>, now: int) returns (c: Decision)
    requires op.ChangePlan?
    ensures c == DecideChange(s, op, first, account, now)
  {
    if !ValidId(op.requestId) {
      return Refused(BadRequest);
    }
    var plan := FindPlan(s.plans, op.planId);
    if plan.None? {
      return Refused(NotFound);
    }
    if first.Some? {
      return if first.value == RequestData(op) then Replayed else Refused(KeyConflict);
    }
    var raw := account.GetOr(NO_ACCOUNT);
    if raw.own.active && now < raw.own.periodEnd && raw.own.plan.Some? && raw.own.plan.value.id == op.planId {
      return Refused(AlreadySubscribed);
    }
    var data := NormalizeAccount(raw.(own := Chosen(raw.own, plan.value, now)), now);
    var d := new AccountDraft(data);
    d.Settle(raw, now);
    d.Append(PlainEntry(now, KindPlan, ByUser, 0, None, Some(op.requestId)), PlanSeed(op.requestId), now);
    c := Commit(Draft(d.account, d.posted), Some(RequestData(op)), []);
  }

  method AttemptReserve(s: Settings, op: Operation, first: Option<Data>, account: Option<Account>, receipts: seq<Option<Data>>, now: int) returns (c: Decision)
    requires op.Reserve? && |receipts| == |ToSweep(op, account, now)|
    ensures c == DecideReserve(s, op, first, account, receipts, now)
  {
    hide SettleWindows, NormalizedAccount, CapOf, Exceeded, Spendable, Blocked, ValidId, ValidReservationKey, AmountOf, Post, Swept, ExpiredHolds, ExpiredReceipts, LiveHolds;
    var amount := AmountOf(s, op.amount);
    var ttl := op.ttl.GetOr(DEFAULT_TTL);
    if !ValidReservationKey(op.key) || !ValidId(op.productId) {
      return Refused(BadRequest);
    }
    if amount.Unsized? {
      return Refused(amount.why);
    }
    if !(MIN_TTL <= ttl <= MAX_TTL) {
      return Refused(BadRequest);
    }
    if first.Some? {
      if first.value.ReceiptData? && first.value.receipt.productId == op.productId && first.value.receipt.credits == amount.credits {
        return Replayed;
      }
      return Refused(KeyConflict);
    }
    var raw := account.GetOr(NO_ACCOUNT);
    var data := NormalizeAccount(raw, now);
    var blocked := CheckChargeable(s, data, op.productId, now);
    if blocked.Some? {
      return Refused(blocked.value);
    }
    var d := new AccountDraft(data);
    d.Settle(raw, now);
    SettledKeepsHolds(raw, data, now);
    var expired := d.Sweep(now);
    var marked := MarkReceipts(expired, receipts, None);
    if |d.account.holds| >= MAX_ACTIVE_RESERVATIONS {
      return Refused(TooManyReservations);
    }
    var available := d.Available(op.productId, now);
    if amount.credits > available {
      return Refused(NotEnough(amount.credits - available));
    }
    var rateId := if op.amount.Priced? then Some(op.amount.estimate.rateId) else None;
    var cap := CapOf(d.account, s.plans, op.productId, rateId, now);
    var over := d.Overflow(op.productId, cap, amount.credits, now);
    if over.Some? {
      return Refused(ModelLimit(over.value));
    }
    var hold := Hold(op.key, op.productId, amount.credits, now, now + ttl, if cap.Some? then Some(cap.value.rateId) else None);
    d.account := d.account.(holds := d.account.holds + [hold]);
    d.Append(PlainEntry(now, KindReservation, op.source, 0, Some(op.productId), Some(op.key)).(held := amount.credits), ReserveSeed(op.key), now);
    var receipt := Receipt(op.productId, amount.credits, now, now + ttl, StatusActive, op.source,
                           if op.amount.Priced? then Some(op.amount.estimate) else None, None, None);
    c := Commit(Draft(d.account, d.posted), Some(ReceiptData(receipt)), marked);
  }

  method AttemptSettle(s: Settings, op: Operation, first: Option<Data>, account: Option<Account>, receipts: seq<Option<Data>>, now: int) returns (c: Decision)
    requires op.Settle? && |receipts| == |ToSweep(op, account, now)|
    ensures c == DecideSettle(s, op, first, account, receipts, now)
  {
    hide SettleWindows, NormalizedAccount, Taken, CapOf, FreeAllowance, FreeBalance, Spendable, ValidReservationKey, ValidUsage, UsedOf, Post, Swept, ExpiredHolds, ExpiredReceipts, LiveHolds, FindHold, WithoutHold;
    if !ValidReservationKey(op.key) || !ValidUsage(op.usage) {
      return Refused(BadRequest);
    }
    var row := ReceiptOf(first, op.source);
    if row.None? {
      return Refused(NotFound);
    }
    var r := row.value;
    if r.status == StatusSettled {
      if r.settlement.Some? && r.settlement.value.usage == op.usage {
        return Replayed;
      }
      return Refused(AlreadySettled);
    }
    if r.status == StatusReleased {
      return Refused(AlreadyReleased);
    }
    var used := UsedOf(s, r, op.usage);
    if used.Unsized? {
      return Refused(used.why);
    }
    var raw := account.GetOr(NO_ACCOUNT);
    var data := NormalizeAccount(raw, now);
    var d := new AccountDraft(data);
    d.Settle(raw, now);
    SettledKeepsHolds(raw, data, now);
    var expired := d.Sweep(now);
    var marked := MarkReceipts(expired, receipts, Some(op.key));
    var hold := d.TakeHold(op.key);
    var allowance, balance := d.Free(r.productId, now);
    var fromAllowance := Min(used.credits, allowance);
    var fromBalance := Min(used.credits - fromAllowance, balance);
    var charged := fromAllowance + fromBalance;
    var uncovered := used.credits - charged;
    var cap := CapOf(d.account, s.plans, r.productId, if r.estimate.Some? then Some(r.estimate.value.rateId) else None, now);
    d.Charge(r.productId, fromAllowance, fromBalance, cap, used.credits, now);
    var held: int := if hold.Some? then -(hold.value.credits as int) else 0;
    var e := PlainEntry(now, KindSettlement, op.source, -charged, Some(r.productId), Some(op.key))
               .(fromAllowance := fromAllowance, fromBalance := fromBalance, held := held, details := Details.Settled(r.credits, used.credits, uncovered));
    d.Append(e, SettleSeed(op.key), now);
    var settlement := Settlement(used.credits, charged, fromAllowance, fromBalance, uncovered, hold.None?, now, op.usage);
    c := Commit(Draft(d.account, d.posted), Some(ReceiptData(r.(status := StatusSettled, settlement := Some(settlement)))), marked);
  }

  method AttemptRelease(s: Settings, op: Operation, first: Option<Data>, account: Option<Account>, receipts: seq<Option<Data>>, now: int) returns (c: Decision)
    requires op.ReleaseHold? && |receipts| == |ToSweep(op, account, now)|
    ensures c == DecideRelease(s, op, first, account, receipts, now)
  {
    hide SettleWindows, NormalizedAccount, ValidReservationKey, Post, Swept, ExpiredHolds, ExpiredReceipts, LiveHolds, FindHold, WithoutHold;
    if !ValidReservationKey(op.key) {
      return Refused(BadRequest);
    }
    var row := ReceiptOf(first, op.source);
    if row.None? {
      return Refused(NotFound);
    }
    var r := row.value;
    if r.status == StatusSettled {
      return Refused(AlreadySettled);
    }
    if r.status != StatusActive {
      return Replayed;
    }
    var raw := account.GetOr(NO_ACCOUNT);
    var data := NormalizeAccount(raw, now);
    var d := new AccountDraft(data);
    d.Settle(raw, now);
    SettledKeepsHolds(raw, data, now);
    var expired := d.Sweep(now);
    var marked := MarkReceipts(expired, receipts, Some(op.key));
    ghost var swept := d.account;
    var hold := d.TakeHold(op.key);
    if hold.Some? {
      var e := PlainEntry(now, KindRelease, op.source, 0, Some(r.productId), Some(op.key)).(held := -(hold.value.credits as int));
      d.Append(e, ReleaseSeed(op.key), now);
      c := Commit(Draft(d.account, d.posted), Some(ReceiptData(r.(status := StatusReleased, releasedAt := Some(now)))), marked);
    } else {
      NothingToDrop(swept.holds, op.key);
      c := Commit(Draft(d.account, d.posted), Some(ReceiptData(r.(status := StatusExpired, releasedAt := Some(r.expiresAt)))), marked);
    }
  }

  lemma {:induction false} NothingToDrop(holds: seq<Hold>, key: string)
    requires FindHold(holds, key).None?
    ensures WithoutHold(holds, key) == holds
  {
    if holds != [] {
      NothingToDrop(holds[1..], key);
    }
  }

  method AttemptMaintain(account: Option<Account>, receipts: seq<Option<Data>>, now: int) returns (c: Decision)
    requires |receipts| == |ToSweep(Maintain, account, now)|
    ensures c == DecideMaintain(account, receipts, now)
  {
    if account.None? {
      return Replayed;
    }
    var raw := account.value;
    if raw.own.plan.None? && |receipts| == 0 {
      assert ExpiredHolds(raw.holds, now) == [];
      return Replayed;
    }
    var source := raw.(own := MaintenanceSource(raw.own, now));
    var data := NormalizeAccount(source, now);
    var d := new AccountDraft(data);
    d.Settle(raw, now);
    SettledKeepsHolds(raw, data, now);
    var expired := d.Sweep(now);
    var marked := MarkReceipts(expired, receipts, None);
    if !MaintenanceRenews(raw.own, now) && |d.posted| == 0 {
      return Replayed;
    }
    c := Commit(Draft(d.account, d.posted), None, marked);
  }

  method Attempt(s: Settings, op: Operation, first: Option<Data>, account: Option<Account>, receipts: seq<Option<Data>>, now: int) returns (c: Decision)
    requires |receipts| == |ToSweep(op, account, now)|
    ensures c == Decide(s, op, first, account, receipts, now)
  {
    hide DecideConsume, DecideRecord, DecideGrantCredits, DecideGrantPlan, DecideChange, DecideReserve, DecideSettle, DecideRelease, DecideMaintain, ToSweep, ValidId;
    match op
    case Consume(requestId, id, credits, kind, source, rateId) =>
      c := AttemptConsume(s, requestId, id, credits, kind, source, rateId, first, account, now);
    case Record(requestId, id, credits, kind, source, _, _) =>
      if credits >= 0 {
        c := AttemptRecord(s, op, first, account, now);
      } else if !ValidId(id) || !RecordKind(kind) {
        c := Refused(BadRequest);
      } else {
        c := AttemptConsume(s, requestId, id, -credits, kind, source, None, first, account, now);
      }
    case Reserve(_, _, _, _, _) => c := AttemptReserve(s, op, first, account, receipts, now);
    case Settle(_, _, _) => c := AttemptSettle(s, op, first, account, receipts, now);
    case ReleaseHold(_, _) => c := AttemptRelease(s, op, first, account, receipts, now);
    case Maintain => c := AttemptMaintain(account, receipts, now);
    case GrantCredits(_, _, _, _, _) => c := AttemptGrantCredits(s, op, first, account, now);
    case GrantPlan(_, _, _, _) => c := AttemptGrantPlan(s, op, first, account, now);
    case ChangePlan(_, _) => c := AttemptChange(s, op, first, account, now);
  }

  // ---- the service ----

  /** Only rows of one user differ. */
  ghost predicate OnlyChanged(before: Rows, after: Rows, user: string) {
    forall key: Key :: key.user != user ==> Lookup(after, key) == Lookup(before, key)
  }

  class Subscriptions {
    const settings: Settings
    const store: MemoryStore<Key, Data>

    constructor (settings: Settings, store: MemoryStore<Key, Data>)
      ensures this.settings == settings && this.store == store
    {
      this.settings := settings;
      this.store := store;
    }

    /** The expired holds whose receipts the sweep of an operation reads. */
    method HoldsToSweep(op: Operation, account: Option<Account>, now: int) returns (holds: seq<Hold>)
      ensures holds == ToSweep(op, account, now)
    {
      holds := [];
      if op.Reserve? || op.Settle? || op.ReleaseHold? || op.Maintain? {
        var all := account.GetOr(NO_ACCOUNT).holds;
        for i := 0 to |all|
          invariant holds == ExpiredHolds(all[..i], now)
        {
          assert all[..i + 1][..i] == all[..i];
          if now >= all[i].expiresAt {
            holds := holds + [all[i]];
          }
        }
        assert all[..|all|] == all;
      }
    }

    method ReadReceipts(user: string, holds: seq<Hold>) returns (receipts: seq<Read>)
      ensures |receipts| == |holds|
      ensures forall i :: 0 <= i < |holds| ==> Current(store.rows, ReceiptKey(user, holds[i]), receipts[i])
    {
      receipts := [];
      for i := 0 to |holds|
        invariant |receipts| == i
        invariant forall j :: 0 <= j < i ==> Current(store.rows, ReceiptKey(user, holds[j]), receipts[j])
      {
        var row := store.Get(ReceiptKey(user, holds[i]));
        receipts := receipts + [row];
      }
    }

    /** The writes of a commit: the account, the operation's own row, the swept receipts, the entries. */
    method Writes(user: string, op: Operation, seen: Seen, c: Decision, now: int) returns (writes: seq<Write<Key, Data>>)
      requires c.Commit? && |seen.receipts| == |ToSweep(op, AccountIn(seen.account), now)|
      ensures writes == WritesOf(user, op, seen, c, now)
    {
      hide PriorOf, ExpiredHolds;
      var holds := HoldsToSweep(op, AccountIn(seen.account), now);
      writes := [Put(seen.account, AccountKey(user), AccountData(c.draft.account))];
      if FirstRow(op).Some? && c.target.Some? {
        writes := writes + [Put(seen.first, OperationKey(user, FirstRow(op).value), c.target.value)];
      }
      ghost var head := writes;
      var all := ReceiptWrites(user, c.expired, holds, seen.receipts);
      for i := 0 to |c.expired|
        invariant writes == head + all[..i]
      {
        writes := writes + [all[i]];
      }
      assert all[..|all|] == all;
      head := writes;
      var entries := LedgerWrites(user, c.draft.posted);
      for i := 0 to |c.draft.posted|
        invariant writes == head + entries[..i]
      {
        writes := writes + [Put(None, LedgerKeyOf(user, c.draft.posted[i]), EntryData(c.draft.posted[i].entry))];
      }
      assert entries[..|entries|] == entries;
    }

    /**
      One attempt of an operation on rows that record the books of its user, and nobody in between:
      the caller learns what was decided, and the rows record what the operation, run alone, does to
      the books.
    */
    method Perform(user: string, op: Operation, now: int, ghost book: Book) returns (outcome: Outcome)
      requires Records(store.rows, user, book) && Determined(book) && InLifecycle(book)
      modifies store
      ensures outcome == OutcomeOf(DecideOn(settings, book, op, now))
      ensures Records(store.rows, user, Apply(settings, book, op, now))
      ensures OnlyChanged(old(store.rows), store.rows, user)
    {
      hide Decide, ToSweep, Records, Determined, InLifecycle, WritesOf, FirstRow;
      var first: Read := None;
      if FirstRow(op).Some? {
        first := store.Get(FirstKey(user, op));
      }
      var account := store.Get(AccountKey(user));
      var holds := HoldsToSweep(op, AccountIn(account), now);
      var receipts := ReadReceipts(user, holds);
      var seen := Seen(first, account, receipts);
      var c := Attempt(settings, op, if FirstRow(op).Some? then DataOf(first) else None, AccountIn(account), DataOfAll(receipts), now);
      ghost var client := Working(user, op, 1, Some(first), Some(account), Some(now), receipts);
      assert Ready(client) && SeenBy(client) == seen && DecisionOf(settings, client) == c;
      assert Undisturbed(store.rows, book, client);
      CurrentReadsDecideAlone(settings, store.rows, client, book);
      if !c.Commit? {
        return OutcomeOf(c);
      }
      var writes := Writes(user, op, seen, c, now);
      assert writes == Sent(settings, client);
      UndisturbedIsRecorded(settings, store.rows, book, client);
      OnlyTheUserChanges(store.rows, user, op, seen, c, now);
      var answer := store.Transact(writes);
      assert answer == Committed;
      outcome := Done;
    }
  }

  lemma OnlyTheUserChanges(rows: Rows, user: string, op: Operation, seen: Seen, c: Decision, now: int)
    requires c.Commit? && |seen.receipts| == |ToSweep(op, AccountIn(seen.account), now)|
    ensures OnlyChanged(rows, After(rows, WritesOf(user, op, seen, c, now)), user)
  {
    hide ToSweep, PriorOf, ApplyAll, FirstRow, GuardsHold;
    var writes := WritesOf(user, op, seen, c, now);
    forall key: Key | key.user != user
      ensures Lookup(After(rows, writes), key) == Lookup(rows, key)
    {
      OtherKeysKeepTheirRow(rows, writes, key);
    }
  }
}
