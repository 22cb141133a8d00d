/**
  One attempt of every account operation (rt-app/core-go/subscriptions/usage.go, reservations.go,
  accounts.go, overview.go): from the rows it read and one reading of the clock to what it commits.
*/
module Operations {
  import opened Prelude
  import opened Plans
  import opened Windows
  import opened Accounts
  import opened Pricing

  const MAX_CREDITS := 1_000_000_000
  const DEFAULT_TTL := 900_000
  const MIN_TTL := 1_000
  const MAX_TTL := 86_400_000
  const MAX_ACTIVE_RESERVATIONS := 25

  // ---- rows ----

  datatype Estimate = Estimate(rateId: string, input: int, output: int)

  /** What a settlement reports: credits, or tokens priced at the reserved rate. */
  datatype Reported = InCredits(credits: int) | InTokens(input: int, output: int)

  datatype Status = StatusActive | StatusSettled | StatusReleased | StatusExpired

  datatype Settlement = Settlement(used: int, charged: int, fromAllowance: int, fromBalance: int, uncovered: int, late: bool, at: int, usage: Reported)

  datatype Receipt = Receipt(
    productId: string, credits: nat, at: int, expiresAt: int, status: Status, source: Source,
    estimate: Option<Estimate>, releasedAt: Option<int>, settlement: Option<Settlement>)

  /** A row of the user besides the account and the statement. */
  datatype RowName = ReservationRow(key: string) | UsageRow(key: string) | RecordRow(key: string) | GrantRow(key: string) | PlanRow(key: string)

  datatype Key = AccountKey(user: string) | OperationKey(user: string, row: RowName) | LedgerKey(user: string, at: int, sequence: nat, seed: Seed)

  datatype Data = AccountData(account: Account)
                | ReceiptData(receipt: Receipt)
                | UsageData(productId: string, credits: int, fromAllowance: int, fromBalance: int, at: int)
                | RequestData(request: Operation)
                | EntryData(entry: Entry)

  // ---- operations ----

  datatype Amount = Fixed(credits: int) | Priced(estimate: Estimate)

  datatype Operation =
    | Consume(requestId: string, productId: string, credits: int, kind: Kind, source: Source, rateId: Option<string>)
    | Record(requestId: string, productId: string, credits: int, kind: Kind, source: Source, amountMinor: int, currency: string)
    | Reserve(key: string, productId: string, amount: Amount, ttl: Option<int>, source: Source)
    | Settle(key: string, usage: Reported, source: Source)
    | ReleaseHold(key: string, source: Source)
    | Maintain
    | GrantCredits(requestId: string, productId: string, credits: int, amountMinor: int, currency: string)
    | GrantPlan(requestId: string, planId: string, amountMinor: int, currency: string)
    | ChangePlan(requestId: string, planId: string)

  /** The settings, constant during a run. */
  datatype Settings = Settings(paymentRequired: bool, provider: Option<string>, plans: seq<Plan>, rates: seq<CreditRate>)

  predicate ValidSettings(s: Settings) {
    forall plan :: plan in s.plans ==> ValidPlan(plan)
  }

  datatype Refusal = BadRequest | KeyConflict | NotFound | Inactive | PaymentRequired | NotInPlan | TooManyReservations
                   | NotEnough(missing: int) | LimitReached(window: WindowName) | ModelLimit(window: WindowName)
                   | AlreadySettled | AlreadyReleased | AlreadySubscribed

  /** What an attempt does: refuse, repeat an earlier answer without writing, or commit. */
  datatype Decision =
    | Refused(why: Refusal)
    | Replayed
    | Commit(draft: Draft, target: Option<Data>, expired: seq<(string, Receipt)>)

  // ---- validation ----

  predicate IdChar(c: char) {
    'a' <= c <= 'z' || 'A' <= c <= 'Z' || '0' <= c <= '9' || c == '_' || c == '-'
  }

  predicate ValidId(s: string) {
    1 <= |s| <= 100 && forall i :: 0 <= i < |s| ==> IdChar(s[i])
  }

  predicate ValidReservationKey(s: string) {
    1 <= |s| <= 128 && forall i :: 0 <= i < |s| ==> IdChar(s[i]) || s[i] == '.' || s[i] == ':'
  }

  predicate ValidCredits(n: int) {
    1 <= n <= MAX_CREDITS
  }

  // ---- who may be charged ----

  /** `chargeable`: an active entitlement, paid for when payment is required, with the product. */
  function Blocked(s: Settings, data: Account, id: string, now: int): Option<Refusal> {
    var e := Effective(data, now);
    if !Active(e, now) then Some(Inactive)
    else if s.paymentRequired && e.mode != Admin && !(s.provider.Some? && e.mode == Provider(s.provider.value)) then Some(PaymentRequired)
    else if FindProduct(Products(e), id).None? then Some(NotInPlan)
    else None
  }

  predicate AnyPlanHas(plans: seq<Plan>, id: string) {
    exists i :: 0 <= i < |plans| && FindProduct(plans[i].products, id).Some?
  }

  // ---- Consume ----

  function FullWindow(data: Account, id: string, now: int): WindowName {
    var e := Effective(data, now);
    var p := FindProduct(Products(e), id);
    if p.None? || id !in e.counters then Period
    else
      var c := e.counters[id];
      if p.value.short.Some? && c.short >= p.value.short.value.limit then Short
      else if c.day >= p.value.dailyLimit then Day
      else if c.week >= p.value.weeklyLimit then Week
      else Period
  }

  /** The account after a charge: the counters, the balance, the rate counters and the total. */
  function Taken(a: Account, id: string, fromAllowance: int, fromBalance: int, cap: Option<RateCap>, counted: int, now: int): Account {
    var b := CountRate(TakeAllowance(a, id, fromAllowance, now), id, cap, counted, now);
    b.(balances := b.balances[id := Balance(a, id) - fromBalance], consumed := b.consumed + fromAllowance + fromBalance)
  }

  /** A charge on an account whose windows are settled: refused, or taken from what is free. */
  function ChargedUsage(s: Settings, d: Draft, requestId: string, id: string, credits: int, kind: Kind, source: Source, rateId: Option<string>, now: int): Decision
    requires credits >= 0
  {
    var a := d.account;
    var fromAllowance := Min(credits, FreeAllowance(a, id, now));
    var fromBalance := credits - fromAllowance;
    if fromBalance > FreeBalance(a, id, now) then Refused(LimitReached(FullWindow(a, id, now)))
    else
      var cap := CapOf(a, s.plans, id, rateId, now);
      var over := if cap.Some? then Exceeded(a, id, cap.value, credits, now) else None;
      if over.Some? then Refused(ModelLimit(over.value))
      else
        var b := Taken(a, id, fromAllowance, fromBalance, cap, credits, now);
        var e := PlainEntry(now, kind, source, -credits, Some(id), Some(requestId)).(fromAllowance := fromAllowance, fromBalance := fromBalance);
        Commit(Post(d.(account := b), e, UsageSeed(requestId), now),
               Some(UsageData(id, credits, fromAllowance, fromBalance, now)), [])
  }

  function DecideConsume(s: Settings, requestId: string, id: string, credits: int, kind: Kind, source: Source, rateId: Option<string>,
                         first: Option<Data>, account: Option<Account>, now: int): Decision
  {
    if !ValidId(requestId) || !ValidCredits(credits) then Refused(BadRequest)
    else if first.Some? then
      if first.value.UsageData? && first.value.productId == id && first.value.credits == credits then Replayed else Refused(KeyConflict)
    else
      var raw := account.GetOr(NO_ACCOUNT);
      var blocked := Blocked(s, NormalizedAccount(raw, now), id, now);
      if blocked.Some? then Refused(blocked.value)
      else
        ChargedUsage(s, Opened(raw, now), requestId, id, credits, kind, source, rateId, now)
  }

  // ---- additional credits ----

  predicate RecordKind(k: Kind) {
    k == KindPurchase || k == KindAdjustment || k == KindGrant || k == KindUsage
  }

  function WithBalance(a: Account, id: string, balance: int): Account {
    a.(balances := a.balances[id := balance])
  }

  /** A credit recorded on the statement (a debit is a charge, see Decide). */
  function DecideRecord(s: Settings, op: Operation, first: Option<Data>, account: Option<Account>, now: int): Decision
    requires op.Record?
  {
    if !ValidId(op.requestId) || !ValidId(op.productId) || !RecordKind(op.kind) || !ValidCredits(op.credits) || op.amountMinor < 0 then Refused(BadRequest)
    else if first.Some? then
      if first.value == RequestData(op) then Replayed else Refused(KeyConflict)
    else if !AnyPlanHas(s.plans, op.productId) then Refused(NotFound)
    else
      var d := Opened(account.GetOr(NO_ACCOUNT), now);
      var balance := Balance(d.account, op.productId) + op.credits;
      if balance < 0 || balance > MAX_CREDITS then Refused(BadRequest)
      else
        var e := PlainEntry(now, op.kind, op.source, op.credits, Some(op.productId), Some(op.requestId))
                   .(amountMinor := op.amountMinor, currency := op.currency);
        Commit(Post(d.(account := WithBalance(d.account, op.productId, balance)), e, RecordSeed(op.requestId), now), Some(RequestData(op)), [])
  }

  function DecideGrantCredits(s: Settings, op: Operation, first: Option<Data>, account: Option<Account>, now: int): Decision
    requires op.GrantCredits?
  {
    if !ValidId(op.requestId) || !ValidId(op.productId) || !ValidCredits(op.credits) || op.amountMinor < 0 then Refused(BadRequest)
    else if first.Some? then
      if first.value == RequestData(op) then Replayed else Refused(KeyConflict)
    else if !AnyPlanHas(s.plans, op.productId) then Refused(NotFound)
    else
      var d := Opened(account.GetOr(NO_ACCOUNT), now);
      var balance := Balance(d.account, op.productId) + op.credits;
      if balance < 0 || balance > MAX_CREDITS then Refused(BadRequest)
      else
        var e := PlainEntry(now, KindGrant, ByAdmin, op.credits, Some(op.productId), Some(op.requestId))
                   .(amountMinor := op.amountMinor, currency := op.currency);
        Commit(Post(d.(account := WithBalance(d.account, op.productId, balance)), e, GrantSeed(op.requestId), now), Some(RequestData(op)), [])
  }

  // ---- plans ----

  function AssignedPlan(plan: Plan, now: int): Entitlement {
    Entitlement(Admin, true, Some(plan), false, now, now + plan.periodDays * DAY, map[])
  }

  function DecideGrantPlan(s: Settings, op: Operation, first: Option<Data>, account: Option<Account>, now: int): Decision
    requires op.GrantPlan?
  {
    var plan := FindPlan(s.plans, op.planId);
    if !ValidId(op.requestId) || !ValidId(op.planId) || op.amountMinor < 0 then Refused(BadRequest)
    else if first.Some? then
      if first.value == RequestData(op) then Replayed else Refused(KeyConflict)
    else if plan.None? then Refused(NotFound)
    else
      var raw := account.GetOr(NO_ACCOUNT);
      var data := NormalizedAccount(raw, now).(grant := Some(Normalized(AssignedPlan(plan.value, now), now)));
      var e := PlainEntry(now, KindPlan, ByAdmin, 0, None, Some(op.requestId)).(amountMinor := op.amountMinor, currency := op.currency);
      Commit(Post(SettleWindows(raw, data, now), e, GrantSeed(op.requestId), now), Some(RequestData(op)), [])
  }

  /** An unpaid plan chosen by the user: a running period and its counters go on under the new plan. */
  function Chosen(previous: Entitlement, plan: Plan, now: int): Entitlement {
    if previous.active && now < previous.periodEnd then
      Entitlement(Unpaid, true, Some(plan), false, previous.periodStart, previous.periodEnd, previous.counters)
    else Entitlement(Unpaid, true, Some(plan), false, now, now + plan.periodDays * DAY, map[])
  }

  function DecideChange(s: Settings, op: Operation, first: Option<Data>, account: Option<Account>, now: int): Decision
    requires op.ChangePlan?
  {
    var plan := FindPlan(s.plans, op.planId);
    var raw := account.GetOr(NO_ACCOUNT);
    if !ValidId(op.requestId) then Refused(BadRequest)
    else if plan.None? then Refused(NotFound)
    else if first.Some? then
      if first.value == RequestData(op) then Replayed else Refused(KeyConflict)
    else if raw.own.active && now < raw.own.periodEnd && raw.own.plan.Some? && raw.own.plan.value.id == op.planId then Refused(AlreadySubscribed)
    else
      var data := NormalizedAccount(raw.(own := Chosen(raw.own, plan.value, now)), now);
      var e := PlainEntry(now, KindPlan, ByUser, 0, None, Some(op.requestId));
      Commit(Post(SettleWindows(raw, data, now), e, PlanSeed(op.requestId), now), Some(RequestData(op)), [])
  }

  // ---- reservations ----

  /** The receipts of expired holds that the sweep marks, save the one the caller writes itself. */
  function ExpiredReceipts(expired: seq<Hold>, receipts: seq<Option<Data>>, skip: Option<string>): seq<(string, Receipt)>
    requires |receipts| == |expired|
  {
    if expired == [] then []
    else
      var n := |expired| - 1;
      var h, row := expired[n], receipts[n];
      ExpiredReceipts(expired[..n], receipts[..n], skip) +
      if row.Some? && row.value.ReceiptData? && Some(h.key) != skip && row.value.receipt.status == StatusActive
      then [(h.key, row.value.receipt.(status := StatusExpired, releasedAt := Some(h.expiresAt)))]
      else []
  }

  /** The holds whose receipts an attempt receipts. */
  function ToSweep(op: Operation, account: Option<Account>, now: int): seq<Hold> {
    if op.Reserve? || op.Settle? || op.ReleaseHold? || op.Maintain? then ExpiredHolds(account.GetOr(NO_ACCOUNT).holds, now) else []
  }

  function AmountOf(s: Settings, amount: Amount): Sizing {
    match amount
    case Fixed(n) => if ValidCredits(n) then Sized(n) else Unsized(BadRequest)
    case Priced(e) =>
      match Estimated(s.rates, e.rateId, e.input, e.output)
      case NoRate => Unsized(NotFound)
      case BadTokens => Unsized(BadRequest)
      case Quoted(n) => Sized(n)
  }

  datatype Sizing = Sized(credits: nat) | Unsized(why: Refusal)

  function DecideReserve(s: Settings, op: Operation, first: Option<Data>, account: Option<Account>, receipts: seq<Option<Data>>, now: int): Decision
    requires op.Reserve? && |receipts| == |ToSweep(op, account, now)|
  {
    var amount := AmountOf(s, op.amount);
    var ttl := op.ttl.GetOr(DEFAULT_TTL);
    if !ValidReservationKey(op.key) || !ValidId(op.productId) then Refused(BadRequest)
    else if amount.Unsized? then Refused(amount.why)
    else if !(MIN_TTL <= ttl <= MAX_TTL) then Refused(BadRequest)
    else if first.Some? then
      if first.value.ReceiptData? && first.value.receipt.productId == op.productId && first.value.receipt.credits == amount.credits
      then Replayed else Refused(KeyConflict)
    else
      var raw := account.GetOr(NO_ACCOUNT);
      var blocked := Blocked(s, NormalizedAccount(raw, now), op.productId, now);
      if blocked.Some? then Refused(blocked.value)
      else
        var d := Swept(Opened(raw, now), now);
        var available := Spendable(d.account, op.productId, now);
        if |d.account.holds| >= MAX_ACTIVE_RESERVATIONS then Refused(TooManyReservations)
        else if amount.credits > available then Refused(NotEnough(amount.credits - available))
        else
          var rateId := if op.amount.Priced? then Some(op.amount.estimate.rateId) else None;
          var cap := CapOf(d.account, s.plans, op.productId, rateId, now);
          var over := if cap.Some? then Exceeded(d.account, op.productId, cap.value, amount.credits, now) else None;
          if over.Some? then Refused(ModelLimit(over.value))
          else
            var hold := Hold(op.key, op.productId, amount.credits, now, now + ttl, if cap.Some? then Some(cap.value.rateId) else None);
            var b := d.account.(holds := d.account.holds + [hold]);
            var e := PlainEntry(now, KindReservation, op.source, 0, Some(op.productId), Some(op.key)).(held := amount.credits);
            var receipt := Receipt(op.productId, amount.credits, now, now + ttl, StatusActive, op.source,
                                   if op.amount.Priced? then Some(op.amount.estimate) else None, None, None);
            Commit(Post(d.(account := b), e, ReserveSeed(op.key), now), Some(ReceiptData(receipt)),
                   ExpiredReceipts(ToSweep(op, account, now), receipts, None))
  }

  /** A receipt the caller may see: users reach only the reservations they made. */
  function ReceiptOf(first: Option<Data>, source: Source): Option<Receipt> {
    if first.Some? && first.value.ReceiptData? && (source == ByUser ==> first.value.receipt.source == ByUser)
    then Some(first.value.receipt) else None
  }

  /** What the reported usage costs at the reserved rate. */
  function UsedOf(s: Settings, r: Receipt, usage: Reported): Sizing {
    match usage
    case InCredits(n) => if 0 <= n <= MAX_CREDITS then Sized(n) else Unsized(BadRequest)
    case InTokens(input, output) =>
      if r.estimate.None? then Unsized(BadRequest)
      else
        match Estimated(s.rates, r.estimate.value.rateId, input, output)
        case NoRate => Unsized(NotFound)
        case BadTokens => Unsized(BadRequest)
        case Quoted(n) => Sized(n)
  }

  predicate ValidUsage(usage: Reported) {
    match usage
    case InCredits(n) => 0 <= n <= MAX_CREDITS
    case InTokens(input, output) => 0 <= input <= MAX_TOKENS && 0 <= output <= MAX_TOKENS
  }

  /** The account without the hold of a key. */
  function Dropped(a: Account, key: string): Account {
    a.(holds := WithoutHold(a.holds, key))
  }

  function DecideSettle(s: Settings, op: Operation, first: Option<Data>, account: Option<Account>, receipts: seq<Option<Data>>, now: int): Decision
    requires op.Settle? && |receipts| == |ToSweep(op, account, now)|
  {
    var row := ReceiptOf(first, op.source);
    if !ValidReservationKey(op.key) || !ValidUsage(op.usage) then Refused(BadRequest)
    else if row.None? then Refused(NotFound)
    else
      var r := row.value;
      if r.status == StatusSettled then
        if r.settlement.Some? && r.settlement.value.usage == op.usage then Replayed else Refused(AlreadySettled)
      else if r.status == StatusReleased then Refused(AlreadyReleased)
      else
        var used := UsedOf(s, r, op.usage);
        if used.Unsized? then Refused(used.why)
        else
          var d := Swept(Opened(account.GetOr(NO_ACCOUNT), now), now);
          var hold := FindHold(d.account.holds, op.key);
          var a := Dropped(d.account, op.key);
          var id := r.productId;
          var fromAllowance := Min(used.credits, FreeAllowance(a, id, now));
          var fromBalance := Min(used.credits - fromAllowance, FreeBalance(a, id, now));
          var charged := fromAllowance + fromBalance;
          var cap := CapOf(a, s.plans, id, if r.estimate.Some? then Some(r.estimate.value.rateId) else None, now);
          var b := Taken(a, id, fromAllowance, fromBalance, cap, used.credits, now);
          var e := PlainEntry(now, KindSettlement, op.source, -charged, Some(id), Some(op.key))
                     .(fromAllowance := fromAllowance, fromBalance := fromBalance, held := if hold.Some? then -(hold.value.credits as int) else 0,
                       details := Details.Settled(r.credits, used.credits, used.credits - charged));
          var settlement := Settlement(used.credits, charged, fromAllowance, fromBalance, used.credits - charged, hold.None?, now, op.usage);
          Commit(Post(d.(account := b), e, SettleSeed(op.key), now),
                 Some(ReceiptData(r.(status := StatusSettled, settlement := Some(settlement)))),
                 ExpiredReceipts(ToSweep(op, account, now), receipts, Some(op.key)))
  }

  function DecideRelease(s: Settings, op: Operation, first: Option<Data>, account: Option<Account>, receipts: seq<Option<Data>>, now: int): Decision
    requires op.ReleaseHold? && |receipts| == |ToSweep(op, account, now)|
  {
    var row := ReceiptOf(first, op.source);
    if !ValidReservationKey(op.key) then Refused(BadRequest)
    else if row.None? then Refused(NotFound)
    else if row.value.status == StatusSettled then Refused(AlreadySettled)
    else if row.value.status != StatusActive then Replayed
    else
      var r := row.value;
      var d := Swept(Opened(account.GetOr(NO_ACCOUNT), now), now);
      var hold := FindHold(d.account.holds, op.key);
      var expired := ExpiredReceipts(ToSweep(op, account, now), receipts, Some(op.key));
      if hold.Some? then
        var e := PlainEntry(now, KindRelease, op.source, 0, Some(r.productId), Some(op.key)).(held := -(hold.value.credits as int));
        Commit(Post(d.(account := Dropped(d.account, op.key)), e, ReleaseSeed(op.key), now),
               Some(ReceiptData(r.(status := StatusReleased, releasedAt := Some(now)))), expired)
      else
        Commit(d, Some(ReceiptData(r.(status := StatusExpired, releasedAt := Some(r.expiresAt)))), expired)
  }

  // ---- maintenance ----

  /** Maintenance renews by the same division as `normalized`, but does not look at the status. */
  predicate MaintenanceRenews(e: Entitlement, now: int) {
    e.plan.Some? && e.mode == Unpaid && !e.cancelAtPeriodEnd && now >= e.periodEnd
  }

  function MaintenanceSource(e: Entitlement, now: int): Entitlement {
    if MaintenanceRenews(e, now) then
      var periods := (now - e.periodStart) / Step(e);
      e.(periodStart := e.periodStart + periods * Step(e), periodEnd := e.periodStart + (periods + 1) * Step(e), counters := map[])
    else e
  }

  function DecideMaintain(account: Option<Account>, receipts: seq<Option<Data>>, now: int): Decision
    requires |receipts| == |ToSweep(Maintain, account, now)|
  {
    if account.None? then Replayed
    else
      var raw := account.value;
      if raw.own.plan.None? && ExpiredHolds(raw.holds, now) == [] then Replayed
      else
        var source := raw.(own := MaintenanceSource(raw.own, now));
        var d := Swept(SettleWindows(raw, NormalizedAccount(source, now), now), now);
        if MaintenanceRenews(raw.own, now) || d.posted != [] then
          Commit(d, None, ExpiredReceipts(ToSweep(Maintain, account, now), receipts, None))
        else Replayed
  }

  // ---- one attempt ----

  /** The row an attempt receipts besides the account, and writes when it commits. */
  function FirstRow(op: Operation): Option<RowName> {
    match op
    case Consume(requestId, _, _, _, _, _) => Some(UsageRow(requestId))
    case Record(requestId, _, credits, _, _, _, _) => Some(if credits < 0 then UsageRow(requestId) else RecordRow(requestId))
    case Reserve(key, _, _, _, _) => Some(ReservationRow(key))
    case Settle(key, _, _) => Some(ReservationRow(key))
    case ReleaseHold(key, _) => Some(ReservationRow(key))
    case Maintain => None
    case GrantCredits(requestId, _, _, _, _) => Some(GrantRow(requestId))
    case GrantPlan(requestId, _, _, _) => Some(GrantRow(requestId))
    case ChangePlan(requestId, _) => Some(PlanRow(requestId))
  }

  function Decide(s: Settings, op: Operation, first: Option<Data>, account: Option<Account>, receipts: seq<Option<Data>>, now: int): Decision
    requires |receipts| == |ToSweep(op, account, now)|
  {
    match op
    case Consume(requestId, id, credits, kind, source, rateId) =>
      DecideConsume(s, requestId, id, credits, kind, source, rateId, first, account, now)
    case Record(requestId, id, credits, kind, source, _, _) =>
      if credits >= 0 then DecideRecord(s, op, first, account, now)
      else if !ValidId(id) || !RecordKind(kind) then Refused(BadRequest)
      else DecideConsume(s, requestId, id, -credits, kind, source, None, first, account, now)
    case Reserve(_, _, _, _, _) => DecideReserve(s, op, first, account, receipts, now)
    case Settle(_, _, _) => DecideSettle(s, op, first, account, receipts, now)
    case ReleaseHold(_, _) => DecideRelease(s, op, first, account, receipts, now)
    case Maintain => DecideMaintain(account, receipts, now)
    case GrantCredits(_, _, _, _, _) => DecideGrantCredits(s, op, first, account, now)
    case GrantPlan(_, _, _, _) => DecideGrantPlan(s, op, first, account, now)
    case ChangePlan(_, _) => DecideChange(s, op, first, account, now)
  }
}
