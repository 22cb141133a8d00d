/**
  The account as the operations change it: in place, step by step, with the statement entries they
  append on the way (`settle`, `ledgerEntry`, `free`, `sweepHolds`, the charging loops of
  rt-app/core-go/subscriptions). Every step does what its specification function says.
*/
module Drafts {
  import opened Prelude
  import opened Plans
  import opened Windows
  import opened Rollover
  import opened Accounts
  import opened Operations

  /** The credits of the unexpired holds of a product. */
  method SumHeld(holds: seq<Hold>, id: string, now: int) returns (n: nat)
    ensures n == Held(holds, id, now)
  {
    n := 0;
    for i := 0 to |holds|
      invariant n == Held(holds[..i], id, now)
    {
      assert holds[..i + 1][..i] == holds[..i];
      if holds[i].productId == id && now < holds[i].expiresAt {
        n := n + holds[i].credits;
      }
    }
    assert holds[..|holds|] == holds;
  }

  method SumHeldAtRate(holds: seq<Hold>, id: string, rateId: string, now: int) returns (n: nat)
    ensures n == HeldAtRate(holds, id, rateId, now)
  {
    n := 0;
    for i := 0 to |holds|
      invariant n == HeldAtRate(holds[..i], id, rateId, now)
    {
      assert holds[..i + 1][..i] == holds[..i];
      if holds[i].productId == id && holds[i].rateId == Some(rateId) && now < holds[i].expiresAt {
        n := n + holds[i].credits;
      }
    }
    assert holds[..|holds|] == holds;
  }

  class AccountDraft {
    var account: Account
    var posted: seq<Posted>

    ghost function Value(): Draft
      reads this
    {
      Draft(account, posted)
    }

    constructor (a: Account)
      ensures Value() == Draft(a, [])
    {
      account := a;
      posted := [];
    }

    /** What a new charge can use. */
    method Available(id: string, now: int) returns (n: nat)
      ensures n == Spendable(account, id, now)
    {
      var held := SumHeld(account.holds, id, now);
      n := Max(0, AllowanceLeft(account, id, now) + Balance(account, id) - held);
    }

    /** The same, split: the allowance first. */
    method Free(id: string, now: int) returns (allowance: nat, balance: nat)
      ensures allowance == FreeAllowance(account, id, now) && balance == FreeBalance(account, id, now)
    {
      var left := AllowanceLeft(account, id, now);
      var spendable := Available(id, now);
      allowance := Min(left, spendable);
      balance := spendable - allowance;
    }

    /** `ledgerEntry`: numbers the entry, notes what is available, folds it into the totals. */
    method Append(e: Entry, seed: Seed, now: int)
      modifies this
      ensures Value() == Post(old(Value()), e, seed, now)
    {
      var full := e;
      if e.productId.Some? {
        var available := Available(e.productId.value, now);
        full := full.(available := Some(available));
      }
      account := account.(sequence := account.sequence + 1);
      posted := posted + [Posted(account.sequence, full, seed)];
      account := account.(totals := ApplyTotals(account.totals, full));
    }

    /** `settle`: the windows that closed or opened since `raw` was stored. */
    method Settle(raw: Account, now: int)
      requires posted == []
      modifies this
      ensures Value() == SettleWindows(raw, old(account), now)
    {
      var rolled := Roll(raw.windows, CurrentWindows(account, now), SettledCounters(raw), now);
      account := account.(windows := rolled.state);
      ghost var start := Value();
      for i := 0 to |rolled.entries|
        invariant Value() == PostWindows(start, rolled.entries[..i], now)
      {
        assert rolled.entries[..i + 1][..i] == rolled.entries[..i];
        Append(WindowEntry(rolled.entries[i]), WindowSeedOf(rolled.entries[i]), now);
      }
      assert rolled.entries[..|rolled.entries|] == rolled.entries;
    }

    /** The first half of `sweepHolds`: expired holds leave the account, each with its entry. */
    method Sweep(now: int) returns (expired: seq<Hold>)
      modifies this
      ensures expired == ExpiredHolds(old(account.holds), now)
      ensures Value() == Swept(old(Value()), now)
    {
      var holds := account.holds;
      var kept: seq<Hold> := [];
      expired := [];
      for i := 0 to |holds|
        invariant kept == LiveHolds(holds[..i], now) && expired == ExpiredHolds(holds[..i], now)
      {
        assert holds[..i + 1][..i] == holds[..i];
        if now >= holds[i].expiresAt {
          expired := expired + [holds[i]];
        } else {
          kept := kept + [holds[i]];
        }
      }
      assert holds[..|holds|] == holds;
      account := account.(holds := kept);
      ghost var start := Value();
      for i := 0 to |expired|
        invariant Value() == PostExpired(start, expired[..i], now)
      {
        assert expired[..i + 1][..i] == expired[..i];
        Append(ExpireEntry(expired[i]), ExpireSeed(expired[i].key), now);
      }
      assert expired[..|expired|] == expired;
    }

    /** Removes the first hold of a key, if there is one. */
    method TakeHold(key: string) returns (hold: Option<Hold>)
      modifies this`account
      ensures hold == FindHold(old(account.holds), key)
      ensures account == Dropped(old(account), key)
    {
      var holds := account.holds;
      var others: seq<Hold> := [];
      hold := None;
      for i := 0 to |holds|
        invariant FindHold(holds, key) == (if hold.Some? then hold else FindHold(holds[i..], key))
        invariant WithoutHold(holds, key) == others + (if hold.Some? then holds[i..] else WithoutHold(holds[i..], key))
      {
        assert holds[i..][0] == holds[i] && holds[i..][1..] == holds[i + 1..];
        if hold.None? && holds[i].key == key {
          hold := Some(holds[i]);
        } else {
          others := others + [holds[i]];
        }
      }
      account := account.(holds := others);
    }

    /** A charge: every window of the product, the capped rate, the balance and the total. */
    method Charge(id: string, fromAllowance: nat, fromBalance: nat, cap: Option<RateCap>, counted: int, now: int)
      modifies this`account
      ensures account == Taken(old(account), id, fromAllowance, fromBalance, cap, counted, now)
    {
      hide Effective, Active, OnGrant, WithCounter, CountRate, Balance, FindProduct;
      var balance := Balance(account, id);
      var e := Effective(account, now);
      if fromAllowance > 0 && id in e.counters {
        var c := e.counters[id];
        c := c.(period := c.period + fromAllowance);
        c := c.(day := c.day + fromAllowance);
        c := c.(week := c.week + fromAllowance);
        var p := FindProduct(Products(e), id);
        if p.Some? && p.value.short.Some? {
          c := c.(short := c.short + fromAllowance);
        }
        account := WithCounter(account, now, id, c);
      }
      account := CountRate(account, id, cap, counted, now);
      account := account.(balances := account.balances[id := balance - fromBalance]);
      account := account.(consumed := account.consumed + fromAllowance + fromBalance);
    }

    /** `exceededWindow`: the first window of a cap that a charge would overflow. */
    method Overflow(id: string, cap: Option<RateCap>, credits: int, now: int) returns (window: Option<WindowName>)
      ensures window == if cap.Some? then Exceeded(account, id, cap.value, credits, now) else None
    {
      var e := Effective(account, now);
      var p := FindProduct(Products(e), id);
      if cap.None? || !Active(e, now) || p.None? || id !in e.counters {
        return None;
      }
      var c := e.counters[id];
      var r := if cap.value.rateId in c.rates then c.rates[cap.value.rateId] else RateCount(None, 0, 0, 0);
      var held := SumHeldAtRate(account.holds, id, cap.value.rateId, now);
      var windows: seq<(WindowName, bool, int, Option<nat>)> := [
        (Short, p.value.short.Some?, r.short.GetOr(0), cap.value.short), (Day, true, r.day, cap.value.day),
        (Week, true, r.week, cap.value.week), (Period, true, r.period, cap.value.period)];
      for i := 0 to |windows|
        invariant forall j :: 0 <= j < i ==> !(windows[j].1 && windows[j].3.Some? && windows[j].2 + held + credits > windows[j].3.value)
      {
        var (name, present, used, limit) := windows[i];
        if present && limit.Some? && used + held + credits > limit.value {
          assert windows[0].0 == Short && windows[1].0 == Day && windows[2].0 == Week && windows[3].0 == Period;
          return Some(name);
        }
      }
      assert windows[0].0 == Short && windows[1].0 == Day && windows[2].0 == Week && windows[3].0 == Period;
      window := None;
    }
  }

  /** `normalized` on both entitlements of an account. */
  method NormalizeAccount(a: Account, now: int) returns (b: Account)
    ensures b == NormalizedAccount(a, now) && b.holds == a.holds
  {
    b := a;
    var own := Normalize(b.own, now);
    b := b.(own := own);
    if b.grant.Some? {
      var grant := Normalize(b.grant.value, now);
      b := b.(grant := Some(grant));
    }
  }

  /** The second half of `sweepHolds`: the receipts of expired holds, marked. */
  method MarkReceipts(expired: seq<Hold>, receipts: seq<Option<Data>>, skip: Option<string>) returns (marked: seq<(string, Receipt)>)
    requires |receipts| == |expired|
    ensures marked == ExpiredReceipts(expired, receipts, skip)
  {
    marked := [];
    for i := 0 to |expired|
      invariant marked == ExpiredReceipts(expired[..i], receipts[..i], skip)
    {
      assert expired[..i + 1][..i] == expired[..i] && receipts[..i + 1][..i] == receipts[..i];
      var row := receipts[i];
      if row.Some? && row.value.ReceiptData? && Some(expired[i].key) != skip && row.value.receipt.status == StatusActive {
        marked := marked + [(expired[i].key, row.value.receipt.(status := StatusExpired, releasedAt := Some(expired[i].expiresAt)))];
      }
    }
    assert expired[..|expired|] == expired && receipts[..|receipts|] == receipts;
  }
}
