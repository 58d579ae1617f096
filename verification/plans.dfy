/** The three-tier entitlement table: each tier's display data, its Stripe
    price ids and its daily conversation quota. */
module Plans {
  import opened Optional
  import opened Config

  datatype PlanType = Free | Pro | Enterprise

  /** One row of the table.  `dailyLimit == None` is the source's `null`,
      meaning unlimited; `yearlyPriceId` is absent on the tiers that do not
      declare one. */
  datatype Plan = Plan(
    name: string,
    priceId: Option<string>,
    yearlyPriceId: Option<string>,
    price: string,
    yearlyPrice: string,
    dailyLimit: Option<nat>,
    featureCount: nat)

  /** The tiers in declaration order, which is also `keyof typeof PLANS`. */
  const PlanTypes: seq<PlanType> := [Free, Pro, Enterprise]

  const FreeDailyLimit: nat := 10
  const ProPricePlaceholder := "price_1QkxxxxxxxxxxxxxxxxxxxPro"
  const ProYearlyPricePlaceholder := "price_1QkxxxxxxxxxxxxxxxxxxxProYearly"

  /** Every tier is listed, exactly once. */
  lemma PlanTypesComplete(t: PlanType)
    ensures t in PlanTypes
    ensures |PlanTypes| == 3
    ensures forall i, j :: 0 <= i < j < |PlanTypes| ==> PlanTypes[i] != PlanTypes[j]
  {
  }

  /** The Pro monthly price id: the first non-empty of the public monthly
      variable and `STRIPE_PRICE_PRO`, falling back to a placeholder literal,
      so it is never empty. */
  function ProPriceId(env: Env): (id: string)
    ensures |id| > 0
    ensures Truthy(env, StripePriceProMonthly).Some? ==> id == env[StripePriceProMonthly]
    ensures (Truthy(env, StripePriceProMonthly).None? && Truthy(env, StripePricePro).Some?)
              ==> id == env[StripePricePro]
    ensures (Truthy(env, StripePriceProMonthly).None? && Truthy(env, StripePricePro).None?)
              ==> id == ProPricePlaceholder
  {
    Truthy(env, StripePriceProMonthly).GetOr(Truthy(env, StripePricePro).GetOr(ProPricePlaceholder))
  }

  /** The Pro yearly price id: the public yearly variable or a placeholder. */
  function ProYearlyPriceId(env: Env): (id: string)
    ensures |id| > 0
    ensures Truthy(env, StripePriceProYearly).Some? ==> id == env[StripePriceProYearly]
    ensures Truthy(env, StripePriceProYearly).None? ==> id == ProYearlyPricePlaceholder
  {
    Truthy(env, StripePriceProYearly).GetOr(ProYearlyPricePlaceholder)
  }

  /** A tier's daily quota: finite only on the free tier. */
  function DailyLimit(t: PlanType): (limit: Option<nat>)
    ensures limit.None? <==> t != Free
    ensures limit.Some? ==> limit.value == FreeDailyLimit
  {
    match t
    case Free => Some(FreeDailyLimit)
    case Pro => None
    case Enterprise => None
  }

  /** `PLANS[t]`.  Only Pro carries Stripe price ids (monthly and yearly),
      and they are never empty; only Free has a finite daily limit. */
  function PlanOf(env: Env, t: PlanType): (p: Plan)
    ensures p.dailyLimit == DailyLimit(t)
    ensures p.priceId.Some? <==> t == Pro
    ensures p.yearlyPriceId.Some? <==> t == Pro
    ensures p.priceId.Some? ==> |p.priceId.value| > 0 && p.priceId.value == ProPriceId(env)
    ensures p.yearlyPriceId.Some? ==> |p.yearlyPriceId.value| > 0 && p.yearlyPriceId.value == ProYearlyPriceId(env)
  {
    match t
    case Free => Plan("Free", None, None, "$0", "$0", DailyLimit(Free), 6)
    case Pro => Plan("Pro", Some(ProPriceId(env)), Some(ProYearlyPriceId(env)), "$9.99", "$99", DailyLimit(Pro), 10)
    case Enterprise => Plan("Enterprise", None, None, "Custom", "Custom", DailyLimit(Enterprise), 12)
  }
}
