/**
  Plans, products and settings as validated by rt-app/core-go/subscriptions/settings.go, and the
  usage counters of an entitlement (rt-app/core-go/subscriptions/accounts.go). Times are epoch
  milliseconds; limits and credits are whole numbers.
*/
module Plans {
  import opened Prelude

  const DAY := 86_400_000

  type Positive = n: int | 0 < n witness 1

  datatype ShortWindow = ShortWindow(seconds: Positive, limit: nat)

  /** A cap on one credit rate: the credits it may use in each window. */
  datatype RateCap = RateCap(rateId: string, short: Option<nat>, day: Option<nat>, week: Option<nat>, period: Option<nat>)

  datatype Product = Product(
    id: string, credits: nat, dailyLimit: nat, weeklyLimit: nat,
    daySeconds: Positive, weekSeconds: Positive, short: Option<ShortWindow>, rateCaps: seq<RateCap>)

  datatype Plan = Plan(id: string, periodDays: Positive, products: seq<Product>)

  function ProductIds(products: seq<Product>): (ids: seq<string>)
    ensures |ids| == |products| && forall i :: 0 <= i < |products| ==> ids[i] == products[i].id
  {
    seq(|products|, i requires 0 <= i < |products| => products[i].id)
  }

  /** Settings validation refuses a plan that names a product twice. */
  predicate ValidPlan(plan: Plan) {
    Distinct(ProductIds(plan.products))
  }

  function FindProduct(products: seq<Product>, id: string): (found: Option<Product>)
    ensures found.Some? ==> found.value in products && found.value.id == id
    ensures found.None? <==> id !in ProductIds(products)
  {
    if products == [] then None
    else if products[0].id == id then
      assert ProductIds(products)[0] == id;
      Some(products[0])
    else
      assert ProductIds(products) == [products[0].id] + ProductIds(products[1..]);
      FindProduct(products[1..], id)
  }

  datatype Mode = Unset | Unpaid | Admin | Provider(name: string)

  /** Usage of one credit rate in each window of its product. */
  datatype RateCount = RateCount(short: Option<int>, day: int, week: int, period: int)

  datatype Counter = Counter(
    period: int, day: int, week: int, short: int,
    dayStart: int, weekStart: int, shortStart: Option<int>, rates: map<string, RateCount>)

  /** What an account, or the plan an administrator assigned to it, entitles to. */
  datatype Entitlement = Entitlement(
    mode: Mode, active: bool, plan: Option<Plan>, cancelAtPeriodEnd: bool,
    periodStart: int, periodEnd: int, counters: map<string, Counter>)

  /** An entitlement of an account that never had a plan. */
  const NO_ENTITLEMENT := Entitlement(Unset, false, None, false, 0, 0, map[])

  function Products(e: Entitlement): seq<Product> {
    if e.plan.Some? then e.plan.value.products else []
  }

  predicate ValidEntitlement(e: Entitlement) {
    e.plan.Some? ==> ValidPlan(e.plan.value)
  }
}
