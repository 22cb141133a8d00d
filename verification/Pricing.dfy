/**
  Pricing of token usage (rt-app/core-go/subscriptions/credits.go). Rates may be fractions, so
  prices are real numbers until they are rounded to whole credits.
*/
module Pricing {
  import opened Prelude

  type Price = r: real | 0.0 <= r witness 0.0

  /** What a provider charges per thousand tokens. */
  datatype Cost = Cost(inputPer1k: Price, outputPer1k: Price)

  datatype CreditRate = CreditRate(id: string, inputPer1k: Price, outputPer1k: Price, minimum: nat, cost: Option<Cost>)

  const MAX_TOKENS := 10_000_000_000

  /** Halves go up, as in Math.round. */
  function Round(x: real): int {
    (x + 0.5).Floor
  }

  function Ceil(x: real): int {
    -(-x).Floor
  }

  function Exact(r: CreditRate, input: nat, output: nat): Price {
    var i, o := input as real / 1000.0, output as real / 1000.0;
    NonNegativeProduct(i, r.inputPer1k);
    NonNegativeProduct(o, r.outputPer1k);
    i * r.inputPer1k + o * r.outputPer1k
  }

  lemma NonNegativeProduct(a: real, b: real)
    requires a >= 0.0 && b >= 0.0
    ensures a * b >= 0.0
  {}

  /** `RateCredits`: whole credits, tolerating noise below a millionth, at least the minimum. */
  function RateCredits(r: CreditRate, input: nat, output: nat): nat {
    Max(r.minimum, Ceil(Round(Exact(r, input, output) * 1000000.0) as real / 1000000.0))
  }

  /** Four decimals. */
  function Round4(x: real): real {
    Round(x * 10000.0) as real / 10000.0
  }

  function CostOf(c: Cost, input: nat, output: nat): real {
    input as real / 1000.0 * c.inputPer1k + output as real / 1000.0 * c.outputPer1k
  }

  /** `ProviderCost`: nothing for a rate without costs. */
  function ProviderCost(r: CreditRate, input: nat, output: nat): real {
    match r.cost
    case None => 0.0
    case Some(c) => Round4(CostOf(c, input, output))
  }

  function FindRate(rates: seq<CreditRate>, id: string): Option<CreditRate> {
    if rates == [] then None else if rates[0].id == id then Some(rates[0]) else FindRate(rates[1..], id)
  }

  datatype Quote = NoRate | BadTokens | Quoted(credits: nat)

  /** `Estimate`: the rate is looked up first, then the token counts are checked. */
  function Estimated(rates: seq<CreditRate>, rateId: string, input: int, output: int): Quote {
    var rate := FindRate(rates, rateId);
    if rate.None? then NoRate
    else if !(0 <= input <= MAX_TOKENS && 0 <= output <= MAX_TOKENS) then BadTokens
    else Quoted(RateCredits(rate.value, input, output))
  }

  /** More tokens never cost less. */
  lemma PricingIsMonotone(r: CreditRate, input: nat, output: nat, input': nat, output': nat)
    requires input <= input' && output <= output'
    ensures RateCredits(r, input, output) <= RateCredits(r, input', output')
  {
    ScaledIsMonotone(input as real / 1000.0, input' as real / 1000.0, r.inputPer1k);
    ScaledIsMonotone(output as real / 1000.0, output' as real / 1000.0, r.outputPer1k);
    RoundedIsMonotone(Exact(r, input, output), Exact(r, input', output'));
  }

  lemma ScaledIsMonotone(a: real, b: real, k: Price)
    requires a <= b
    ensures a * k <= b * k
  {
    NonNegativeProduct(b - a, k);
  }

  lemma RoundedIsMonotone(x: real, y: real)
    requires x <= y
    ensures Ceil(Round(x * 1000000.0) as real / 1000000.0) <= Ceil(Round(y * 1000000.0) as real / 1000000.0)
  {
    var a, b := Round(x * 1000000.0), Round(y * 1000000.0);
    assert a <= b;
    assert a as real / 1000000.0 <= b as real / 1000000.0;
  }

  /**
    A fair price of some tokens: input tokens at the input price and output tokens at the output price,
    per thousand; the least whole number of credits, not below the minimum, that covers it to half a
    millionth.
  */
  ghost predicate FairPrice(r: CreditRate, input: nat, output: nat, credits: nat) {
    var price := input as real / 1000.0 * r.inputPer1k + output as real / 1000.0 * r.outputPer1k;
    && credits >= r.minimum && credits as real >= price - 0.0000005
    && (credits > r.minimum ==> (credits - 1) as real < price + 0.0000005)
  }

  lemma ChargeCoversThePrice(r: CreditRate, input: nat, output: nat)
    ensures FairPrice(r, input, output, RateCredits(r, input, output))
  {
    var price := Exact(r, input, output);
    var scaled := Round(price * 1000000.0);
    assert price * 1000000.0 - 0.5 <= scaled as real <= price * 1000000.0 + 0.5;
    assert price - 0.0000005 <= scaled as real / 1000000.0 <= price + 0.0000005;
    CeilIsLeast(scaled as real / 1000000.0);
  }

  lemma CeilIsLeast(x: real)
    ensures x <= Ceil(x) as real < x + 1.0
  {}

  /** What the provider charges: input tokens at the input cost, output tokens at the output cost, to four decimals. */
  lemma ProviderCostIsRounded(r: CreditRate, c: Cost, input: nat, output: nat)
    requires r.cost == Some(c)
    ensures var cost := input as real / 1000.0 * c.inputPer1k + output as real / 1000.0 * c.outputPer1k;
            && -0.00005 <= ProviderCost(r, input, output) - cost <= 0.00005
            && ProviderCost(r, input, output) * 10000.0 == (ProviderCost(r, input, output) * 10000.0).Floor as real
  {
    RoundedToFour(CostOf(c, input, output));
  }

  lemma RoundedToFour(x: real)
    ensures -0.00005 <= Round4(x) - x <= 0.00005 && Round4(x) * 10000.0 == (Round4(x) * 10000.0).Floor as real
  {
    var scaled := Round(x * 10000.0);
    assert x * 10000.0 - 0.5 <= scaled as real <= x * 10000.0 + 0.5;
    assert Round4(x) * 10000.0 == scaled as real;
  }
}
