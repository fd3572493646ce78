/**
 * The helpers of the admin client list (`src/app/admin/clients/page.tsx`):
 * the status and plan filters, the badge colours, the summary cards (monthly
 * revenue, active count, average client value) and the per-client usage
 * bar. Fees on this page are whole dollars.
 */
module AdminClientsPage {
  import opened Seqs
  import opened JsNumbers
  import StripeWebhook
  import PricingPlans

  /** A client as the page lists it. */
  datatype ClientItem = ClientItem(id: nat, plan: string, monthlyFee: int, status: string,
                                   minutesUsed: nat, minutesLimit: nat)

  // ---------------------------------------------------------- the filter

  /** An empty filter lets everything through; a set one must match exactly. */
  predicate Passes(c: ClientItem, filterStatus: string, filterPlan: string) {
    (filterStatus == "" || c.status == filterStatus) && (filterPlan == "" || c.plan == filterPlan)
  }

  /** `filteredClients`: both filters applied, order kept. */
  function FilteredClients(clients: seq<ClientItem>, filterStatus: string, filterPlan: string): (r: seq<ClientItem>)
    ensures forall c :: c in r <==> c in clients && Passes(c, filterStatus, filterPlan)
    ensures IsSubsequence(r, clients)
  {
    FilterIsSubsequence(clients, c => Passes(c, filterStatus, filterPlan));
    Filter(clients, c => Passes(c, filterStatus, filterPlan))
  }

  /** With both filters empty the whole list is shown; applying the filters again changes nothing. */
  lemma FilteredClientsLaws(clients: seq<ClientItem>, filterStatus: string, filterPlan: string)
    ensures FilteredClients(clients, "", "") == clients
    ensures var r := FilteredClients(clients, filterStatus, filterPlan);
      FilteredClients(r, filterStatus, filterPlan) == r
  {
    FilterKeepsAll(clients, c => Passes(c, "", ""));
    FilterIdempotent(clients, c => Passes(c, filterStatus, filterPlan));
  }

  /** Setting the plan filter only ever removes rows from the status-filtered list. */
  lemma PlanFilterNarrows(clients: seq<ClientItem>, filterStatus: string, filterPlan: string)
    ensures FilteredClients(FilteredClients(clients, filterStatus, ""), filterStatus, filterPlan)
      == FilteredClients(clients, filterStatus, filterPlan)
  {
    var p := (c: ClientItem) => Passes(c, filterStatus, filterPlan);
    var q := (c: ClientItem) => Passes(c, filterStatus, "");
    FilterNarrow(clients, p, q);
    assert FilteredClients(clients, filterStatus, "") == Filter(clients, q);
  }

  // ------------------------------------------------------- the badges

  const Green := "bg-green-100 text-green-800"
  const Blue := "bg-blue-100 text-blue-800"
  const Yellow := "bg-yellow-100 text-yellow-800"
  const Red := "bg-red-100 text-red-800"
  const Gray := "bg-gray-100 text-gray-800"

  /** `getStatusColor`: a colour for each of the four statuses, grey for anything else. */
  function StatusColor(status: string): (c: string)
    ensures c == Gray <==> status !in {"active", "trial", "paused", "cancelled"}
    ensures status == "active" <==> c == Green
    ensures status == "cancelled" <==> c == Red
    ensures status == "trial" <==> c == Blue
    ensures status == "paused" <==> c == Yellow
  {
    if status == "active" then Green
    else if status == "trial" then Blue
    else if status == "paused" then Yellow
    else if status == "cancelled" then Red
    else Gray
  }

  const PlanBlue := "text-blue-600"
  const PlanPurple := "text-purple-600"
  const PlanAmber := "text-amber-600"
  const PlanGray := "text-gray-600"

  /** `getPlanColor`: starter, professional and enterprise are coloured, anything else is grey. */
  function PlanColor(plan: string): (c: string)
    ensures c == PlanGray <==> plan !in {"starter", "professional", "enterprise"}
  {
    if plan == "starter" then PlanBlue
    else if plan == "professional" then PlanPurple
    else if plan == "enterprise" then PlanAmber
    else PlanGray
  }

  /**
   * The plan names the Stripe webhook stores all get their own colour; the
   * plan keys of the price table do not match any case and come out grey.
   */
  lemma PlanColorOfStoredPlans(p: StripeWebhook.WebhookPlan, q: StripeWebhook.WebhookPlan, key: string)
    requires key in PricingPlans.PricingPlans
    ensures PlanColor(StripeWebhook.PlanName(p)) != PlanGray
    ensures PlanColor(StripeWebhook.PlanName(p)) == PlanColor(StripeWebhook.PlanName(q)) <==> p == q
    ensures PlanColor(key) == PlanGray
  {
  }

  // -------------------------------------------------- the summary cards

  predicate IsActive(c: ClientItem) { c.status == "active" }

  /** The clients that pay: active or on a trial. */
  predicate IsBilled(c: ClientItem) { c.status == "active" || c.status == "trial" }

  function Fee(c: ClientItem): int { c.monthlyFee }

  /** `mrrTotal`: the fees of the active and trial clients, added up. */
  function MrrTotal(clients: seq<ClientItem>): int {
    Sum(Filter(clients, IsBilled), Fee)
  }

  /** The "Active" card. */
  function ActiveCount(clients: seq<ClientItem>): (n: nat)
    ensures n <= |clients|
  {
    |Filter(clients, IsActive)|
  }

  /**
   * The "Avg Client Value" card: the MRR over active and trial clients,
   * divided by the number of active clients only, rounded; 0 for an empty
   * list.
   */
  function AvgClientValue(clients: seq<ClientItem>): JsNumber {
    if |clients| > 0 then Round(Divide(MrrTotal(clients), ActiveCount(clients))) else Fraction(0, 1)
  }

  /**
   * Numerator and denominator count different clients: one active client at
   * $499 and one trial at $249 average to $748, above either fee, and a list
   * of trials alone averages to Infinity.
   */
  lemma AvgClientValueMixesPopulations()
    ensures AvgClientValue([ClientItem(1, "professional", 499, "active", 0, 1500),
                            ClientItem(2, "starter", 249, "trial", 0, 500)]) == Fraction(748, 1)
    ensures AvgClientValue([ClientItem(2, "starter", 249, "trial", 0, 500)]) == PositiveInfinity
  {
    var a := ClientItem(1, "professional", 499, "active", 0, 1500);
    var t := ClientItem(2, "starter", 249, "trial", 0, 500);
    assert Filter([a, t], IsBilled) == [a, t];
    assert Filter([a, t], IsActive) == [a];
    assert [a, t][..1] == [a];
    assert [a][..0] == [];
    assert Sum([a], Fee) == 499;
    assert Sum([a, t], Fee) == 748;
    assert MrrTotal([a, t]) == 748;
    assert ActiveCount([a, t]) == 1;
    assert RoundDiv(748, 1) == 748;
    assert Filter([t], IsBilled) == [t];
    assert Filter([t], IsActive) == [];
    assert [t][..0] == [];
  }

  /** The billed clients: the population the MRR is taken over. */
  function BilledCount(clients: seq<ClientItem>): (n: nat)
    ensures n <= |clients|
  {
    |Filter(clients, IsBilled)|
  }

  /** The average the card means: MRR per billed client, rounded, 0 when no client is billed. */
  function AvgBilledValue(clients: seq<ClientItem>): (r: JsNumber)
    ensures r.Fraction? && r.den == 1
    ensures BilledCount(clients) == 0 ==> r.num == 0
  {
    var n := BilledCount(clients);
    if n > 0 then Round(Divide(MrrTotal(clients), n)) else Fraction(0, 1)
  }

  /**
   * The corrected average is always a finite whole number, and lies between
   * the smallest and the largest billed fee; 499 and 249 average to 374.
   */
  lemma AvgBilledValueBetweenFees(clients: seq<ClientItem>, lo: int, hi: int)
    requires forall c :: c in clients && IsBilled(c) ==> lo <= c.monthlyFee <= hi
    requires BilledCount(clients) > 0
    ensures lo <= AvgBilledValue(clients).num <= hi
  {
    var b := Filter(clients, IsBilled);
    forall i | 0 <= i < |b|
      ensures lo <= Fee(b[i]) <= hi
    {
      assert b[i] in b;
    }
    SumBetween(b, Fee, lo, hi);
    RoundDivBetween(MrrTotal(clients), |b|, lo, hi);
  }

  lemma AvgBilledValueExample()
    ensures AvgBilledValue([ClientItem(1, "professional", 499, "active", 0, 1500),
                            ClientItem(2, "starter", 249, "trial", 0, 500)]) == Fraction(374, 1)
  {
    var a := ClientItem(1, "professional", 499, "active", 0, 1500);
    var t := ClientItem(2, "starter", 249, "trial", 0, 500);
    assert Filter([a, t], IsBilled) == [a, t];
    assert [a, t][..1] == [a];
    assert [a][..0] == [];
    assert Sum([a], Fee) == 499;
    assert Sum([a, t], Fee) == 748;
    assert MrrTotal([a, t]) == 748;
    assert BilledCount([a, t]) == 2;
    assert RoundDiv(748, 2) == 374;
  }

  // ------------------------------------------------------ the usage bar

  /** `(call_minutes_used / call_minutes_limit) * 100`, kept exact. */
  function UsagePercent(c: ClientItem): (p: JsNumber)
    ensures c.minutesLimit > 0 ==> p.Fraction? && p.num * c.minutesLimit == 100 * c.minutesUsed * p.den
  {
    Divide(100 * c.minutesUsed, c.minutesLimit)
  }

  datatype Band = RedBar | YellowBar | GreenBar

  /** Above 90 is red, above 75 is yellow, everything else (NaN included) green. */
  function UsageBand(c: ClientItem): Band {
    var p := UsagePercent(c);
    if GreaterThan(p, 90) then RedBar else if GreaterThan(p, 75) then YellowBar else GreenBar
  }

  /** `Math.min(usagePercent, 100)`. */
  function BarWidth(c: ClientItem): JsNumber {
    Min(UsagePercent(c), 100)
  }

  /** `Math.round(usagePercent)`. */
  function UsageLabel(c: ClientItem): JsNumber {
    Round(UsagePercent(c))
  }

  /**
   * With a positive limit the thresholds are strict: red exactly above 90%,
   * yellow above 75% up to and including 90%, green up to and including 75%;
   * the bar is never wider than 100%.
   */
  lemma UsageBandThresholds(c: ClientItem)
    requires c.minutesLimit > 0
    ensures UsageBand(c) == RedBar <==> 100 * c.minutesUsed > 90 * c.minutesLimit
    ensures UsageBand(c) == YellowBar <==> 75 * c.minutesLimit < 100 * c.minutesUsed <= 90 * c.minutesLimit
    ensures UsageBand(c) == GreenBar <==> 100 * c.minutesUsed <= 75 * c.minutesLimit
    ensures BarWidth(c).Fraction? && BarWidth(c).num <= 100 * BarWidth(c).den
  {
  }

  /**
   * A zero limit divides by zero: with minutes used the bar is red and full
   * and the label reads Infinity; with none the percentage is NaN, the bar
   * green and its width NaN.
   */
  lemma ZeroLimit(c: ClientItem)
    requires c.minutesLimit == 0
    ensures c.minutesUsed > 0 ==> UsageBand(c) == RedBar && BarWidth(c) == Fraction(100, 1) && UsageLabel(c) == PositiveInfinity
    ensures c.minutesUsed == 0 ==> UsageBand(c) == GreenBar && BarWidth(c) == NaN && UsageLabel(c) == NaN
  {
  }

  /** More minutes used never moves the bar to a calmer colour. */
  lemma UsageBandMonotone(c: ClientItem, more: nat)
    requires c.minutesLimit > 0 && c.minutesUsed <= more
    ensures var d := c.(minutesUsed := more);
      (UsageBand(c) == RedBar ==> UsageBand(d) == RedBar) &&
      (UsageBand(c) == YellowBar ==> UsageBand(d) != GreenBar)
  {
    UsageBandThresholds(c);
    UsageBandThresholds(c.(minutesUsed := more));
  }
}
