/**
  Asking before reserving (`Preflight` and `degrade` in rt-app/core-go/subscriptions/reservations.go,
  limits.go): the answer predicts the reservation, and a cheaper rate is the best that fits.
*/
module Preflight {
  import opened Prelude
  import opened Plans
  import opened Accounts
  import opened Pricing
  import opened Operations
  import opened Lifecycle
  import opened Coverage

  datatype Reason = Blocking(why: Refusal) | Credits(missing: int) | Model(window: WindowName)

  /** Why an amount would not fit on an account as it is now; None when it fits. */
  function Obstacle(s: Settings, account: Option<Account>, id: string, amount: Amount, credits: nat, now: int): Option<Reason> {
    var data := NormalizedAccount(account.GetOr(NO_ACCOUNT), now);
    var blocked := Blocked(s, data, id, now);
    if blocked.Some? then Some(Blocking(blocked.value))
    else
      var available := FreeAllowance(data, id, now) + FreeBalance(data, id, now);
      var cap := CapOf(data, s.plans, id, if amount.Priced? then Some(amount.estimate.rateId) else None, now);
      var over := if cap.Some? then Exceeded(data, id, cap.value, credits, now) else None;
      if credits > available then Some(Credits(credits - available))
      else if over.Some? then Some(Model(over.value))
      else None
  }

  /** What a reservation refuses for the same reason. */
  function RefusalOf(r: Reason): Refusal {
    match r
    case Blocking(why) => why
    case Credits(missing) => NotEnough(missing)
    case Model(window) => ModelLimit(window)
  }

  lemma {:induction false} LiveHoldsAtRate(holds: seq<Hold>, id: string, rateId: string, now: int)
    ensures HeldAtRate(LiveHolds(holds, now), id, rateId, now) == HeldAtRate(holds, id, rateId, now)
  {
    if holds != [] {
      var front, last := holds[..|holds| - 1], holds[|holds| - 1];
      LiveHoldsAtRate(front, id, rateId, now);
      var live := LiveHolds(front, now);
      assert (live + [last])[..|live|] == live;
      assert live + [] == live;
    }
  }

  /** Settling windows and sweeping expired holds change nothing that a charge is checked against. */
  lemma SameRoom(raw: Account, id: string, now: int)
    ensures var a, b := NormalizedAccount(raw, now), Swept(Opened(raw, now), now).account;
            && Spendable(b, id, now) == Spendable(a, id, now)
            && (forall plans: seq<Plan>, rateId: Option<string> :: CapOf(b, plans, id, rateId, now) == CapOf(a, plans, id, rateId, now))
            && (forall cap: RateCap, credits: int :: Exceeded(b, id, cap, credits, now) == Exceeded(a, id, cap, credits, now))
            && b.holds == LiveHolds(raw.holds, now)
  {
    hide NormalizedAccount, SettleWindows, PostExpired, Held, HeldAtRate, LiveHolds, ExpiredHolds;
    var a := NormalizedAccount(raw, now);
    var d := Opened(raw, now);
    var live := d.account.(holds := LiveHolds(d.account.holds, now));
    SettledService(raw, a, now);
    PostExpiredService(d.(account := live), ExpiredHolds(d.account.holds, now), now);
    OpenedAndSweptHolds(raw, now);
    NormalizedHolds(raw, now);
    LiveHoldsAreHeld(raw.holds, id, now);
    var b := Swept(d, now).account;
    SameLeft(b, a, now);
    assert Balance(b, id) == Balance(a, id);
    forall cap: RateCap, credits: int
      ensures Exceeded(b, id, cap, credits, now) == Exceeded(a, id, cap, credits, now)
    {
      LiveHoldsAtRate(raw.holds, id, cap.rateId, now);
    }
  }

  lemma NormalizedHolds(raw: Account, now: int)
    ensures NormalizedAccount(raw, now).holds == raw.holds
  {}

  /**
    The answer predicts the reservation: with valid input, a new key and room for one more hold,
    reserving succeeds exactly when nothing stands in the way, and otherwise is refused for that.
  */
  lemma PreflightPredictsReserve(s: Settings, op: Operation, account: Option<Account>, receipts: seq<Option<Data>>, now: int)
    requires op.Reserve? && |receipts| == |ToSweep(op, account, now)|
    requires ValidReservationKey(op.key) && ValidId(op.productId) && AmountOf(s, op.amount).Sized? && MIN_TTL <= op.ttl.GetOr(DEFAULT_TTL) <= MAX_TTL
    requires |LiveHolds(account.GetOr(NO_ACCOUNT).holds, now)| < MAX_ACTIVE_RESERVATIONS
    ensures var obstacle := Obstacle(s, account, op.productId, op.amount, AmountOf(s, op.amount).credits, now);
            var c := DecideReserve(s, op, None, account, receipts, now);
            && (obstacle.None? <==> c.Commit?)
            && (obstacle.Some? ==> c == Refused(RefusalOf(obstacle.value)))
  {
    hide NormalizedAccount, Opened, Swept, CapOf, Exceeded, Spendable, Blocked, ValidId, ValidReservationKey, AmountOf, ExpiredReceipts, LiveHolds, Post;
    SameRoom(account.GetOr(NO_ACCOUNT), op.productId, now);
    FreeIsSpendable(NormalizedAccount(account.GetOr(NO_ACCOUNT), now), op.productId, now);
  }

  lemma FreeIsSpendable(a: Account, id: string, now: int)
    ensures FreeAllowance(a, id, now) + FreeBalance(a, id, now) == Spendable(a, id, now)
  {}

  // ---- a cheaper rate ----

  /** The same step at another rate: first by what the provider charges, then by credits. */
  predicate Cheaper(a: CreditRate, b: CreditRate, input: nat, output: nat) {
    var x, y := ProviderCost(a, input, output), ProviderCost(b, input, output);
    x < y || (x == y && RateCredits(a, input, output) < RateCredits(b, input, output))
  }

  /** The provider cost of a period so far, and what a plan allows. */
  datatype Margin = Margin(spent: real, cap: real)

  /** A rate that may be offered instead: another one, cheaper, within the credits, its own cap and the margin. */
  predicate Suits(s: Settings, data: Account, id: string, current: CreditRate, r: CreditRate, input: nat, output: nat, available: nat, margin: Option<Margin>, now: int) {
    var credits := RateCredits(r, input, output);
    var cap := CapOf(data, s.plans, id, Some(r.id), now);
    && r.id != current.id && Cheaper(r, current, input, output) && credits <= available
    && (cap.Some? ==> Exceeded(data, id, cap.value, credits, now).None?)
    && (margin.Some? ==> Round4(margin.value.spent + ProviderCost(r, input, output)) <= margin.value.cap)
  }

  /** `degrade`: the dearest rate that suits, the first of equals; none when none suits. */
  method Degrade(s: Settings, data: Account, id: string, current: CreditRate, input: nat, output: nat, available: nat, margin: Option<Margin>, now: int)
    returns (best: Option<nat>)
    ensures best.None? <==> forall i :: 0 <= i < |s.rates| ==> !Suits(s, data, id, current, s.rates[i], input, output, available, margin, now)
    ensures best.Some? ==> best.value < |s.rates| && Suits(s, data, id, current, s.rates[best.value], input, output, available, margin, now)
    ensures best.Some? ==> forall i :: 0 <= i < |s.rates| && Suits(s, data, id, current, s.rates[i], input, output, available, margin, now) ==>
              !Cheaper(s.rates[best.value], s.rates[i], input, output) && (i < best.value ==> Cheaper(s.rates[i], s.rates[best.value], input, output))
  {
    hide CapOf, Exceeded, ProviderCost, RateCredits, Round4;
    best := None;
    for i := 0 to |s.rates|
      invariant best.None? <==> forall j :: 0 <= j < i ==> !Suits(s, data, id, current, s.rates[j], input, output, available, margin, now)
      invariant best.Some? ==> best.value < i && Suits(s, data, id, current, s.rates[best.value], input, output, available, margin, now)
      invariant best.Some? ==> forall j :: 0 <= j < i && Suits(s, data, id, current, s.rates[j], input, output, available, margin, now) ==>
                  !Cheaper(s.rates[best.value], s.rates[j], input, output) && (j < best.value ==> Cheaper(s.rates[j], s.rates[best.value], input, output))
    {
      var r := s.rates[i];
      var credits := RateCredits(r, input, output);
      if r.id == current.id || !Cheaper(r, current, input, output) || credits > available {
        continue;
      }
      var cap := CapOf(data, s.plans, id, Some(r.id), now);
      if cap.Some? && Exceeded(data, id, cap.value, credits, now).Some? {
        continue;
      }
      if margin.Some? && Round4(margin.value.spent + ProviderCost(r, input, output)) > margin.value.cap {
        continue;
      }
      if best.None? || Cheaper(s.rates[best.value], r, input, output) {
        best := Some(i);
      }
    }
  }

  /** The offer is good: a step at a rate that suits can be reserved at once, with a new key and room for one more hold. */
  lemma OfferedRateCanBeReserved(s: Settings, op: Operation, account: Option<Account>, receipts: seq<Option<Data>>, now: int,
                                 current: CreditRate, r: CreditRate, margin: Option<Margin>)
    requires op.Reserve? && |receipts| == |ToSweep(op, account, now)| && ValidReservationKey(op.key) && ValidId(op.productId)
    requires MIN_TTL <= op.ttl.GetOr(DEFAULT_TTL) <= MAX_TTL && |LiveHolds(account.GetOr(NO_ACCOUNT).holds, now)| < MAX_ACTIVE_RESERVATIONS
    requires op.amount.Priced? && op.amount.estimate.rateId == r.id && FindRate(s.rates, r.id) == Some(r)
    requires 0 <= op.amount.estimate.input <= MAX_TOKENS && 0 <= op.amount.estimate.output <= MAX_TOKENS
    requires var data := NormalizedAccount(account.GetOr(NO_ACCOUNT), now);
             && Blocked(s, data, op.productId, now).None?
             && Suits(s, data, op.productId, current, r, op.amount.estimate.input, op.amount.estimate.output, Spendable(data, op.productId, now), margin, now)
    ensures DecideReserve(s, op, None, account, receipts, now).Commit?
  {
    hide NormalizedAccount, CapOf, Exceeded, Spendable, Blocked, ValidId, ValidReservationKey, DecideReserve, ProviderCost, RateCredits, LiveHolds, ToSweep;
    PreflightPredictsReserve(s, op, account, receipts, now);
    FreeIsSpendable(NormalizedAccount(account.GetOr(NO_ACCOUNT), now), op.productId, now);
  }
}
