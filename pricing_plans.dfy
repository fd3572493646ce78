/**
 * The plan table and the other constant lists of `src/lib/utils/constants.ts`.
 * Prices are whole US dollars; `priceMonthly` is the same amount written as
 * a decimal.
 */
module PricingPlans {

  datatype Plan = Plan(
    id: string,
    name: string,
    price: int,
    priceMonthly: real,
    minutes: nat,
    stripePriceId: string,
    featured: bool,
    features: seq<string>)

  const Launch := Plan(
    "launch", "Launch", 249, 249.00, 500, "price_1SuJIDKAtfPK3Yyr9K24POD2", false,
    ["24/7 AI Call Answering", "Up to 500 minutes/month", "Basic Lead Capture",
     "Call Recordings", "Email Support"])

  const Scale := Plan(
    "scale", "Scale", 499, 499.00, 1500, "price_1SuJIsKAtfPK3Yyrs9nSrHYv", true,
    ["Everything in Launch", "Up to 1,500 minutes/month", "Advanced Lead Qualification",
     "AI Appointment Scheduling", "Priority Support", "Analytics Dashboard"])

  const Dominate := Plan(
    "dominate", "Dominate", 899, 899.00, 3000, "price_1SzQQxKAtfPK3Yyr4LDxrf8U", false,
    ["Everything in Scale", "Up to 3,000 minutes/month", "Custom AI Personality",
     "Advanced Integrations", "Dedicated Account Manager", "Custom SLA"])

  /** `PRICING_PLANS`, keyed as in the source object. */
  const PricingPlans: map<string, Plan> := map["launch" := Launch, "scale" := Scale, "dominate" := Dominate]

  /** `PRICING_PLANS_ARRAY = Object.values(PRICING_PLANS)`, in declaration order. */
  const PricingPlansArray: seq<Plan> := [Launch, Scale, Dominate]

  /** `CALL_URGENCY`: note 'critical', where the call webhook writes 'urgent'. */
  const CallUrgency: seq<string> := ["low", "medium", "high", "critical"]

  /** Exactly three plans, keyed `launch`, `scale`, `dominate`, each carrying its own key as id. */
  lemma PlanKeysAreIds()
    ensures PricingPlans.Keys == {"launch", "scale", "dominate"}
    ensures forall k :: k in PricingPlans ==> PricingPlans[k].id == k
  {
  }

  /** The array lists the table's plans, each once. */
  lemma ArrayListsTable()
    ensures |PricingPlansArray| == 3
    ensures forall p :: p in PricingPlansArray <==> p in PricingPlans.Values
  {
    assert PricingPlans["launch"] == Launch;
    assert PricingPlans["scale"] == Scale;
    assert PricingPlans["dominate"] == Dominate;
  }

  /** `price` and `priceMonthly` agree for every plan. */
  lemma PriceEqualsMonthly()
    ensures forall k :: k in PricingPlans ==> PricingPlans[k].price as real == PricingPlans[k].priceMonthly
  {
  }

  /** Price and included minutes both strictly increase launch < scale < dominate. */
  lemma TiersIncrease()
    ensures PricingPlans["launch"].price < PricingPlans["scale"].price < PricingPlans["dominate"].price
    ensures PricingPlans["launch"].minutes < PricingPlans["scale"].minutes < PricingPlans["dominate"].minutes
  {
  }

  /** A Stripe price id identifies at most one plan. */
  lemma StripePriceIdsDistinct()
    ensures forall k1, k2 ::
      (k1 in PricingPlans && k2 in PricingPlans &&
       PricingPlans[k1].stripePriceId == PricingPlans[k2].stripePriceId) ==> k1 == k2
  {
    assert Launch.stripePriceId[11] != Scale.stripePriceId[11];
    assert Launch.stripePriceId[8] != Dominate.stripePriceId[8];
    assert Scale.stripePriceId[8] != Dominate.stripePriceId[8];
  }

  /** Exactly one plan, `scale`, is featured. */
  lemma OnlyScaleFeatured()
    ensures forall k :: k in PricingPlans && PricingPlans[k].featured <==> k == "scale"
  {
  }
}
