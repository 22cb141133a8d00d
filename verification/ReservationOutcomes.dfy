/**
  What reserving, settling and releasing answer and commit
  (rt-app/core-go/subscriptions/reservations.go), in the plain terms of module Present.
*/
module ReservationOutcomes {
  import opened Prelude
  import opened Plans
  import opened Accounts
  import opened Pricing
  import opened Operations
  import opened Books
  import opened Lifecycle
  import opened Coverage
  import opened ModelCaps
  import opened Preflight
  import opened Present
  import opened Outcomes

  // ---- prices ----

  /** The rate that an id names: the first one. */
  predicate NamesRate(rates: seq<CreditRate>, id: string, i: nat) {
    i < |rates| && rates[i].id == id && forall j :: 0 <= j < i ==> rates[j].id != id
  }

  predicate NoSuchRate(rates: seq<CreditRate>, id: string) {
    forall i :: 0 <= i < |rates| ==> rates[i].id != id
  }

  predicate ValidTokens(input: int, output: int) {
    0 <= input <= 10_000_000_000 && 0 <= output <= 10_000_000_000
  }

  /** A fair price of some tokens at the rate that an id names. */
  ghost predicate IsFairAt(rates: seq<CreditRate>, id: string, input: int, output: int, credits: nat) {
    ValidTokens(input, output) && exists i: nat :: NamesRate(rates, id, i) && FairPrice(rates[i], input, output, credits)
  }

  lemma {:induction false} RateIsNamed(rates: seq<CreditRate>, id: string) returns (i: nat)
    ensures FindRate(rates, id).None? <==> NoSuchRate(rates, id)
    ensures FindRate(rates, id).Some? ==> NamesRate(rates, id, i) && FindRate(rates, id) == Some(rates[i])
  {
    i := 0;
    if rates != [] && rates[0].id != id {
      var k := RateIsNamed(rates[1..], id);
      i := k + 1;
      assert rates == [rates[0]] + rates[1..];
    }
  }

  /** An estimate is refused without its rate, or for impossible tokens; else it costs the fair price. */
  lemma EstimatesAreFair(rates: seq<CreditRate>, id: string, input: int, output: int)
    ensures var quote := Estimated(rates, id, input, output);
            && (quote == NoRate <==> NoSuchRate(rates, id))
            && (quote == BadTokens <==> !NoSuchRate(rates, id) && !ValidTokens(input, output))
            && (quote.Quoted? ==> IsFairAt(rates, id, input, output, quote.credits))
  {
    hide FindRate, NoSuchRate, RateCredits, FairPrice;
    var i := RateIsNamed(rates, id);
    if ValidTokens(input, output) && FindRate(rates, id).Some? {
      ChargeCoversThePrice(rates[i], input, output);
    }
  }

  /** What a reservation asks for: a number of credits, or the fair price of an estimate. */
  ghost predicate AsksFor(s: Settings, amount: Amount, credits: nat) {
    match amount
    case Fixed(n) => credits == n
    case Priced(e) => IsFairAt(s.rates, e.rateId, e.input, e.output, credits)
  }

  /** What a settlement reports: a number of credits, or the fair price of the tokens at the reserved rate. */
  ghost predicate Reports(s: Settings, r: Receipt, usage: Reported, used: nat) {
    match usage
    case InCredits(n) => used == n
    case InTokens(input, output) => r.estimate.Some? && IsFairAt(s.rates, r.estimate.value.rateId, input, output, used)
  }

  lemma SizesAreFair(s: Settings, amount: Amount)
    ensures var sizing := AmountOf(s, amount);
            if amount.Fixed? then (if 1 <= amount.credits <= 1_000_000_000 then sizing == Sized(amount.credits) else sizing == Unsized(BadRequest))
            else if NoSuchRate(s.rates, amount.estimate.rateId) then sizing == Unsized(NotFound)
            else if !ValidTokens(amount.estimate.input, amount.estimate.output) then sizing == Unsized(BadRequest)
            else sizing.Sized? && AsksFor(s, amount, sizing.credits)
    ensures AmountOf(s, amount).Sized? ==> AsksFor(s, amount, AmountOf(s, amount).credits)
  {
    hide Estimated, NoSuchRate, IsFairAt, ValidTokens;
    if amount.Priced? {
      EstimatesAreFair(s.rates, amount.estimate.rateId, amount.estimate.input, amount.estimate.output);
    }
  }

  lemma UsageIsFair(s: Settings, r: Receipt, usage: Reported)
    requires ValidUsage(usage)
    ensures var sizing := UsedOf(s, r, usage);
            if usage.InCredits? then sizing == Sized(usage.credits)
            else if r.estimate.None? then sizing == Unsized(BadRequest)
            else if NoSuchRate(s.rates, r.estimate.value.rateId) then sizing == Unsized(NotFound)
            else sizing.Sized? && Reports(s, r, usage, sizing.credits)
    ensures UsedOf(s, r, usage).Sized? ==> Reports(s, r, usage, UsedOf(s, r, usage).credits)
  {
    hide Estimated, NoSuchRate, IsFairAt;
    if usage.InTokens? && r.estimate.Some? {
      EstimatesAreFair(s.rates, r.estimate.value.rateId, usage.input, usage.output);
    }
  }

  // ---- reserving ----

  /** The account at present, without the holds that expired. */
  function Unexpired(raw: Account, now: int): Account {
    NormalizedAccount(raw, now).(holds := LiveHolds(raw.holds, now))
  }

  /** Settling windows and sweeping lead to an account that offers the same. */
  lemma SweptOffersTheSame(raw: Account, id: string, plans: seq<Plan>, rateId: Option<string>, cap: RateCap, n: int, now: int)
    ensures var a, d := NormalizedAccount(raw, now), Swept(Opened(raw, now), now).account;
            && SameButRecords(Unexpired(raw, now), d)
            && AllowanceLeft(d, id, now) == AllowanceLeft(a, id, now)
            && Spendable(d, id, now) == Spendable(a, id, now)
            && CapOf(d, plans, id, rateId, now) == CapOf(a, plans, id, rateId, now)
            && Exceeded(d, id, cap, n, now) == Exceeded(a, id, cap, n, now)
            && Effective(d, now) == Effective(a, now) && OnGrant(d, now) == OnGrant(a, now)
  {
    hide NormalizedAccount, SettleWindows, Swept, LiveHolds, Held, HeldAtRate, CapOf, Exceeded, Spendable, AllowanceLeft, FullWindow, Effective, OnGrant;
    var a := NormalizedAccount(raw, now);
    NormalizedHolds(raw, now);
    SettlingOnlyRecords(raw, a, now);
    var o := Opened(raw, now);
    SweepingOnlyDropsExpired(o, now);
    LiveHoldsAreHeld(raw.holds, id, now);
    LiveHoldsAtRate(raw.holds, id, cap.rateId, now);
    SameOffer(a, Swept(o, now).account, id, plans, rateId, cap, n, now);
  }

  /**
    A valid reservation under a new key is made exactly when the plan that serves is running, paid for
    and has the product, fewer than 25 holds are live, the credits are available beside them, and the
    cap of the rate has room. Otherwise it is refused for the first of these that fails.
  */
  lemma ReserveIsAnswered(s: Settings, book: Book, op: Operation, credits: nat, now: int)
    requires op.Reserve? && ValidReservationKey(op.key) && ValidId(op.productId) && 1_000 <= op.ttl.GetOr(15 * 60 * 1000) <= 24 * 60 * 60 * 1000
    requires AmountOf(s, op.amount) == Sized(credits) && ReservationRow(op.key) !in book.rows
    ensures var raw, c := AccountOf(book), DecideOn(s, book, op, now);
            var why := Objection(s, raw, op.productId, now);
            var available := Available(raw, op.productId, HeldNow(raw, op.productId, now), now);
            var rateId := if op.amount.Priced? then Some(op.amount.estimate.rateId) else None;
            if why.Some? then c == Refused(why.value)
            else if |LiveHolds(raw.holds, now)| >= 25 then c == Refused(TooManyReservations)
            else if credits > available then c == Refused(NotEnough(credits - available))
            else if !CapHasRoom(s, raw, op.productId, rateId, credits, now) then c.Refused? && c.why.ModelLimit? && OverflowsFirst(s, raw, op.productId, rateId, credits, c.why.window, now)
            else c.Commit?
  {
    hide NormalizedAccount, SettleWindows, Swept, LiveHolds, ExpiredHolds, ExpiredReceipts, CapOf, Exceeded, HasRoom, Post, Spendable, AllowanceLeft, Available, Serving, Objection, Blocked, ValidId, ValidReservationKey, AmountOf, Running;
    var raw := AccountOf(book);
    var a, id := NormalizedAccount(raw, now), op.productId;
    ObjectionsBlock(s, raw, id, now);
    AvailableIsSpendable(raw, id, now);
    if Objection(s, raw, id, now).None? {
      var rateId := if op.amount.Priced? then Some(op.amount.estimate.rateId) else None;
      var cap := CapOf(a, s.plans, id, rateId, now);
      var some := cap.GetOr(RateCap("", None, None, None, None));
      SweptOffersTheSame(raw, id, s.plans, rateId, some, credits, now);
      UnobjectedIsRunning(s, raw, id, now);
      CapAdmitsWhatFits(a, id, some, credits, now);
    }
  }

  /** The same reservation again is repeated, another one under its key refused; so is what asks for too little, too much, or for too short or too long. */
  lemma ReserveIsChecked(s: Settings, book: Book, op: Operation, now: int)
    requires op.Reserve?
    ensures var c, row, sizing := DecideOn(s, book, op, now), Lookup(book.rows, ReservationRow(op.key)), AmountOf(s, op.amount);
            if !ValidReservationKey(op.key) || !ValidId(op.productId) then c == Refused(BadRequest)
            else if sizing.Unsized? then c == Refused(sizing.why)
            else if !(1_000 <= op.ttl.GetOr(15 * 60 * 1000) <= 24 * 60 * 60 * 1000) then c == Refused(BadRequest)
            else row.Some? ==>
              c == if row.value.ReceiptData? && row.value.receipt.productId == op.productId && row.value.receipt.credits == sizing.credits
                   then Replayed else Refused(KeyConflict)
  {
    hide ValidId, ValidReservationKey, AmountOf, Opened, Swept, NormalizedAccount, Blocked, ExpiredReceipts;
  }

  lemma HoldingLeaves(a: Account, hold: Hold, now: int)
    requires now < hold.expiresAt && hold.credits <= Spendable(a, hold.productId, now)
    ensures var b := a.(holds := a.holds + [hold]);
            Spendable(b, hold.productId, now) == Spendable(a, hold.productId, now) - hold.credits
  {
    hide Held, AllowanceLeft;
    var b := a.(holds := a.holds + [hold]);
    HeldOfConcatenation(a.holds, [hold], hold.productId, now);
    HeldOfOne(hold, hold.productId, now);
    SameLeft(a, b, now);
  }

  /**
    A committed reservation holds what it asks for, until its time is up: 15 minutes unless said
    otherwise. The hold, the receipt and the entry say the same, the receipt whose it is; nothing else
    changes.
  */
  lemma ReserveHolds(s: Settings, book: Book, op: Operation, now: int)
    requires op.Reserve? && DecideOn(s, book, op, now).Commit?
    ensures var raw, c := AccountOf(book), DecideOn(s, book, op, now);
            var id, expiresAt := op.productId, now + op.ttl.GetOr(15 * 60 * 1000);
            var estimate := if op.amount.Priced? then Some(op.amount.estimate) else None;
            && c.target.Some? && c.target.value.ReceiptData?
            && var n := c.target.value.receipt.credits;
               && AsksFor(s, op.amount, n)
               && c.target.value.receipt == Receipt(id, n, now, expiresAt, StatusActive, op.source, estimate, None, None)
               && SameButRecords(Unexpired(raw, now).(holds := LiveHolds(raw.holds, now) +
                    [Hold(op.key, id, n, now, expiresAt, CappedRate(s, raw, id, if estimate.Some? then Some(estimate.value.rateId) else None, now))]),
                                 c.draft.account)
               && Ends(c.draft, Entry(now, KindReservation, op.source, 0, Some(id), Some(op.key), 0, "", 0, 0, n,
                                      Some(Available(raw, id, HeldNow(raw, id, now), now) - n), NoDetails), ReserveSeed(op.key))
  {
    hide NormalizedAccount, SettleWindows, Swept, LiveHolds, ExpiredHolds, ExpiredReceipts, CapOf, Exceeded, Spendable, AllowanceLeft, Available, Serving, Objection, Blocked, ValidId, ValidReservationKey, AmountOf, AsksFor, Running, ApplyTotals;
    var raw := AccountOf(book);
    var id := op.productId;
    AvailableIsSpendable(raw, id, now);
    SizesAreFair(s, op.amount);
    var rateId := if op.amount.Priced? then Some(op.amount.estimate.rateId) else None;
    var d := Swept(Opened(raw, now), now);
    var cap := CapOf(d.account, s.plans, id, rateId, now);
    var n := AmountOf(s, op.amount).credits;
    SweptOffersTheSame(raw, id, s.plans, rateId, cap.GetOr(RateCap("", None, None, None, None)), n, now);
    HoldingLeaves(d.account, Hold(op.key, id, n, now, now + op.ttl.GetOr(DEFAULT_TTL), if cap.Some? then Some(cap.value.rateId) else None), now);
  }

  // ---- who may settle or release ----

  /** A receipt that the caller may see: a user sees the receipts of reservations that users made. */
  predicate Reachable(row: Option<Data>, source: Source) {
    row.Some? && row.value.ReceiptData? && (source == ByUser ==> row.value.receipt.source == ByUser)
  }

  function TargetRow(book: Book, op: Operation): Option<Data>
    requires op.Settle? || op.ReleaseHold?
  {
    Lookup(book.rows, ReservationRow(op.key))
  }

  /**
    A valid settlement of a receipt within reach is repeated when it was settled with the same usage,
    refused when it was settled with another or released, or when it reports tokens that have no rate;
    otherwise it commits, also when the reservation has expired.
  */
  lemma SettleIsAnswered(s: Settings, book: Book, op: Operation, now: int)
    requires op.Settle? && ValidReservationKey(op.key) && ValidUsage(op.usage)
    ensures var row, c := TargetRow(book, op), DecideOn(s, book, op, now);
            if !Reachable(row, op.source) then c == Refused(NotFound)
            else
              var r := row.value.receipt;
              if r.status == StatusSettled then c == if r.settlement.Some? && r.settlement.value.usage == op.usage then Replayed else Refused(AlreadySettled)
              else if r.status == StatusReleased then c == Refused(AlreadyReleased)
              else if op.usage.InTokens? && r.estimate.None? then c == Refused(BadRequest)
              else if op.usage.InTokens? && NoSuchRate(s.rates, r.estimate.value.rateId) then c == Refused(NotFound)
              else c.Commit?
  {
    hide NormalizedAccount, Opened, Swept, ExpiredReceipts, ToSweep, CapOf, FreeAllowance, FreeBalance, Taken, Post, UsedOf, ValidReservationKey, ValidUsage, NoSuchRate, FindHold, WithoutHold;
    var row := TargetRow(book, op);
    if row.Some? && row.value.ReceiptData? {
      UsageIsFair(s, row.value.receipt, op.usage);
    }
  }

  /** A valid release of a receipt within reach commits exactly when the reservation is still active. */
  lemma ReleaseIsAnswered(s: Settings, book: Book, op: Operation, now: int)
    requires op.ReleaseHold? && ValidReservationKey(op.key)
    ensures var row, c := TargetRow(book, op), DecideOn(s, book, op, now);
            if !Reachable(row, op.source) then c == Refused(NotFound)
            else if row.value.receipt.status == StatusSettled then c == Refused(AlreadySettled)
            else if row.value.receipt.status == StatusActive then c.Commit?
            else c == Replayed
  {
    hide NormalizedAccount, Opened, Swept, ExpiredReceipts, ToSweep, Post, ValidReservationKey, FindHold, Dropped;
  }

  /**
    Nobody reaches a reservation that is not there, and no user one that another source made: those
    are not found, whatever is asked of them. A reservation within reach is found, save that tokens
    may be reported at a rate that is no longer there.
  */
  lemma UsersReachTheirOwn(s: Settings, book: Book, op: Operation, now: int)
    requires (op.Settle? && ValidUsage(op.usage)) || op.ReleaseHold?
    requires ValidReservationKey(op.key)
    ensures var row := Lookup(book.rows, ReservationRow(op.key));
            DecideOn(s, book, op, now) == Refused(NotFound) <==>
            || row.None? || !row.value.ReceiptData?
            || (op.source == ByUser && row.value.receipt.source != ByUser)
            || (&& op.Settle? && op.usage.InTokens? && row.value.receipt.status in {StatusActive, StatusExpired}
                && row.value.receipt.estimate.Some? && NoSuchRate(s.rates, row.value.receipt.estimate.value.rateId))
  {
    hide DecideOn, ValidReservationKey, ValidUsage, NoSuchRate;
    if op.Settle? {
      SettleIsAnswered(s, book, op, now);
    } else {
      ReleaseIsAnswered(s, book, op, now);
    }
  }

  /** Keys, credits and tokens out of range are bad requests. */
  lemma SettlementsAreChecked(s: Settings, book: Book, op: Operation, now: int)
    requires op.Settle? || op.ReleaseHold?
    ensures !ValidReservationKey(op.key) ==> DecideOn(s, book, op, now) == Refused(BadRequest)
    ensures op.Settle? && op.usage.InCredits? && !(0 <= op.usage.credits <= 1_000_000_000) ==> DecideOn(s, book, op, now) == Refused(BadRequest)
    ensures op.Settle? && op.usage.InTokens? && !ValidTokens(op.usage.input, op.usage.output) ==> DecideOn(s, book, op, now) == Refused(BadRequest)
  {
    hide ValidReservationKey, Opened, Swept, NormalizedAccount, ExpiredReceipts, UsedOf;
  }

  // ---- settling ----

  /** The live hold of a key. */
  function LiveHold(raw: Account, key: string, now: int): Option<Hold> {
    var h := FindHold(raw.holds, key);
    if h.Some? && now < h.value.expiresAt then h else None
  }

  function HeldByOthers(raw: Account, id: string, key: string, now: int): int {
    Total(raw.holds, OthersLiveCredits(id, key, now))
  }

  /** Without the hold of its key, an operation finds what the others leave. */
  lemma OthersLeave(raw: Account, id: string, key: string, plans: seq<Plan>, rateId: Option<string>, now: int)
    requires DistinctHolds(raw.holds)
    ensures var a, d := NormalizedAccount(raw, now), Dropped(Swept(Opened(raw, now), now).account, key);
            && SameButRecords(Unexpired(raw, now).(holds := WithoutHold(LiveHolds(raw.holds, now), key)), d)
            && FindHold(Swept(Opened(raw, now), now).account.holds, key) == LiveHold(raw, key, now)
            && AllowanceLeft(d, id, now) == AllowanceLeft(a, id, now)
            && Spendable(d, id, now) == Available(raw, id, HeldByOthers(raw, id, key, now), now)
            && CapOf(d, plans, id, rateId, now) == CapOf(a, plans, id, rateId, now)
            && Effective(d, now) == Effective(a, now)
  {
    hide NormalizedAccount, Opened, Swept, LiveHolds, Held, HeldAtRate, CapOf, Exceeded, AllowanceLeft, FullWindow, Effective, OnGrant, FindHold, WithoutHold;
    var a := NormalizedAccount(raw, now);
    var live := Swept(Opened(raw, now), now).account;
    var d := Dropped(live, key);
    NormalizedHolds(raw, now);
    SweptOffersTheSame(raw, id, plans, rateId, RateCap("", None, None, None, None), 0, now);
    SweepFinds(raw.holds, now, key);
    OthersHold(raw.holds, id, key, now);
    SameOffer(a.(holds := d.holds), d, id, plans, rateId, RateCap("", None, None, None, None), 0, now);
    SameLeft(a, d, now);
    SamePlans(a, a.(holds := d.holds), plans, id, rateId, now);
    BalancesAreKept(raw, now);
  }

  lemma SamePlans(a: Account, b: Account, plans: seq<Plan>, id: string, rateId: Option<string>, now: int)
    requires a.own == b.own && a.grant == b.grant
    ensures CapOf(a, plans, id, rateId, now) == CapOf(b, plans, id, rateId, now) && Effective(a, now) == Effective(b, now)
  {}

  lemma BalancesAreKept(raw: Account, now: int)
    ensures NormalizedAccount(raw, now).balances == raw.balances
  {}

  /**
    A committed settlement charges what is reported, or everything available beside the other holds
    when that is less, and takes the allowance first. The receipt and the entry say how; the hold
    leaves the account, the counters of the product grow by what the allowance paid and those of the
    reserved rate by all that was used, and nothing else changes.
  */
  lemma SettleTakesTheAllowanceFirst(s: Settings, book: Book, op: Operation, now: int) returns (r: Receipt, used: nat)
    requires op.Settle? && DecideOn(s, book, op, now).Commit? && DistinctHolds(AccountOf(book).holds)
    ensures var raw, c := AccountOf(book), DecideOn(s, book, op, now);
            var a, id := NormalizedAccount(raw, now), r.productId;
            var available := Available(raw, id, HeldByOthers(raw, id, op.key, now), now);
            var charged := Min(used, available);
            var fromAllowance := Min(charged, AllowanceLeft(a, id, now));
            var fromBalance := charged - fromAllowance;
            var hold := LiveHold(raw, op.key, now);
            var rateId := CappedRate(s, raw, id, if r.estimate.Some? then Some(r.estimate.value.rateId) else None, now);
            && TargetRow(book, op) == Some(ReceiptData(r)) && Reports(s, r, op.usage, used)
            && IsCharged(a.(holds := WithoutHold(LiveHolds(raw.holds, now), op.key)), c.draft.account, id, fromAllowance, fromBalance,
                         if used > 0 then rateId else None, used, now)
            && c.target == Some(ReceiptData(r.(status := StatusSettled,
                 settlement := Some(Settlement(used, charged, fromAllowance, fromBalance, used - charged, hold.None?, now, op.usage)))))
            && Ends(c.draft, Entry(now, KindSettlement, op.source, -charged, Some(id), Some(op.key), 0, "", fromAllowance, fromBalance,
                                   if hold.Some? then 0 - hold.value.credits else 0, Some(available - charged),
                                   Details.Settled(r.credits, used, used - charged)), SettleSeed(op.key))
  {
    hide NormalizedAccount, Opened, Swept, LiveHolds, ExpiredHolds, ExpiredReceipts, CapOf, Taken, Spendable, AllowanceLeft, FreeAllowance, FreeBalance, Available,
         ValidReservationKey, UsedOf, Reports, IsCharged, ApplyTotals, FindHold, WithoutHold, LiveHold, HeldByOthers, Running, Effective, Dropped;
    var raw := AccountOf(book);
    var a := NormalizedAccount(raw, now);
    r := TargetRow(book, op).value.receipt;
    UsageIsFair(s, r, op.usage);
    used := UsedOf(s, r, op.usage).credits;
    var id := r.productId;
    var estimated := if r.estimate.Some? then Some(r.estimate.value.rateId) else None;
    OthersLeave(raw, id, op.key, s.plans, estimated, now);
    var d := Dropped(Swept(Opened(raw, now), now).account, op.key);
    AllowanceIsTakenFirst(d, id, used, now);
    var cap := CapOf(d, s.plans, id, estimated, now);
    CapIsOfRate(d, s.plans, id, estimated, now);
    RunningIsActive(d, now);
    var charged := Min(used, Spendable(d, id, now));
    var fromAllowance := Min(charged, AllowanceLeft(d, id, now));
    var counted := if cap.Some? && used > 0 then Some(cap.value.rateId) else None;
    ChargeIsTaken(d, id, fromAllowance, charged - fromAllowance, cap, used, now);
    var taken := Taken(d, id, fromAllowance, charged - fromAllowance, cap, used, now);
    LaterOffer(d, taken, id, fromAllowance, charged - fromAllowance, counted, used, now);
    ChargedAlike(a.(holds := WithoutHold(LiveHolds(raw.holds, now), op.key)), d, taken, DecideOn(s, book, op, now).draft.account,
                 id, fromAllowance, charged - fromAllowance, counted, used, now);
  }

  // ---- releasing ----

  /** A committed release gives back what its live hold held; a hold that has expired is marked so. */
  lemma ReleaseGivesBack(s: Settings, book: Book, op: Operation, now: int) returns (r: Receipt)
    requires op.ReleaseHold? && DecideOn(s, book, op, now).Commit? && DistinctHolds(AccountOf(book).holds)
    ensures var raw, c := AccountOf(book), DecideOn(s, book, op, now);
            var hold := LiveHold(raw, op.key, now);
            && TargetRow(book, op) == Some(ReceiptData(r))
            && c.target == Some(ReceiptData(if hold.Some? then r.(status := StatusReleased, releasedAt := Some(now))
                                            else r.(status := StatusExpired, releasedAt := Some(r.expiresAt))))
            && SameButRecords(if hold.Some? then Unexpired(raw, now).(holds := WithoutHold(LiveHolds(raw.holds, now), op.key)) else Unexpired(raw, now),
                              c.draft.account)
            && (hold.Some? ==>
                  Ends(c.draft, Entry(now, KindRelease, op.source, 0, Some(r.productId), Some(op.key), 0, "", 0, 0, 0 - hold.value.credits,
                                      Some(Available(raw, r.productId, HeldByOthers(raw, r.productId, op.key, now), now)), NoDetails), ReleaseSeed(op.key)))
  {
    hide NormalizedAccount, Opened, Swept, LiveHolds, ExpiredHolds, ExpiredReceipts, Spendable, Available, ValidReservationKey, ApplyTotals, FindHold, WithoutHold, LiveHold, HeldByOthers, Effective;
    var raw := AccountOf(book);
    r := TargetRow(book, op).value.receipt;
    OthersLeave(raw, r.productId, op.key, [], None, now);
    SweptOffersTheSame(raw, r.productId, [], None, RateCap("", None, None, None, None), 0, now);
  }

  // ---- a cheaper rate ----

  /**
    Which rates are offered instead: others that cost the provider less, or as much for fewer credits,
    whose credits are available, whose cap has room, and whose cost the margin still allows.
  */
  lemma OffersFit(s: Settings, raw: Account, id: string, current: CreditRate, r: CreditRate, input: nat, output: nat, available: nat, margin: Option<Margin>, now: int)
    requires Running(Serving(raw, now), now)
    ensures var n, cost, present := RateCredits(r, input, output), ProviderCost(r, input, output), ProviderCost(current, input, output);
            Suits(s, NormalizedAccount(raw, now), id, current, r, input, output, available, margin, now) <==>
            && r.id != current.id && cost <= present && (cost == present ==> n < RateCredits(current, input, output))
            && n <= available && CapHasRoom(s, raw, id, Some(r.id), n, now)
            && (margin.Some? ==> Round4(margin.value.spent + cost) <= margin.value.cap)
    ensures margin.Some? ==> -0.00005 <= Round4(margin.value.spent + ProviderCost(r, input, output)) - margin.value.spent - ProviderCost(r, input, output) <= 0.00005
  {
    hide NormalizedAccount, CapOf, Exceeded, HasRoom, RateCredits, ProviderCost, Round4, Serving;
    var a := NormalizedAccount(raw, now);
    AssignmentServesFirst(raw, now);
    RunningIsActive(a, now);
    var cap := CapOf(a, s.plans, id, Some(r.id), now);
    CapAdmitsWhatFits(a, id, cap.GetOr(RateCap("", None, None, None, None)), RateCredits(r, input, output), now);
    if margin.Some? {
      RoundedToFour(margin.value.spent + ProviderCost(r, input, output));
    }
  }
}
