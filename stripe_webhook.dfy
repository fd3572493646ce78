/**
 * The payment-to-provisioning bridge (`src/app/api/webhooks/stripe/route.ts`):
 * a Stripe subscription event is authenticated, checked against the ledger
 * of processed event ids, turned into a client row, handed to the RonOS
 * provisioning service with bounded retry, and recorded in the ledger.
 *
 * The database tables are fields of the class `Bridge`; the Stripe signature
 * check, the Stripe customer lookup, the outcome of every outbound attempt,
 * database write failures and the current time are inputs. The outbound
 * requests and the backoff sleeps are recorded in ghost logs.
 */
module StripeWebhook {
  import opened Options
  import opened Strings
  import opened Seqs

  // ------------------------------------------------------------ inputs

  const CreatedType := "customer.subscription.created"
  const DeletedType := "customer.subscription.deleted"

  /** A delivered Stripe event, reduced to the fields the handler reads. */
  datatype Event = Event(
    signatureValid: bool,       // outcome of `stripe.webhooks.constructEvent`
    id: string,
    eventType: string,
    customerId: string,         // `subscription.customer`
    subscriptionId: string,
    priceId: Option<string>,    // `subscription.items.data[0]?.price.id`
    unitAmount: Option<int>)    // `subscription.items.data[0]?.price.unit_amount`, in cents

  /** What `stripe.customers.retrieve` gives back. */
  datatype CustomerLookup =
    | LookupFailed              // the call throws
    | DeletedCustomer
    | Customer(email: string, businessName: Option<string>, phone: Option<string>)

  /** The three `NEXT_PUBLIC_STRIPE_PRICE_*` environment values, each possibly unset. */
  datatype PriceConfig = PriceConfig(starter: Option<string>, professional: Option<string>, enterprise: Option<string>)

  /** The result of one outbound request to RonOS. */
  datatype AttemptOutcome = Responded(ok: bool) | Threw

  /**
   * Database calls that can fail. The handler inspects the client insert and
   * the cancel update; it ignores a failed ledger select (which reads as "not
   * processed yet"), a failed status update after provisioning and a failed
   * ledger insert, and answers as if they had succeeded.
   */
  datatype Faults = Faults(
    clientInsertFails: bool,
    cancelUpdateFails: bool,
    ledgerSelectFails: bool,
    statusUpdateFails: bool,
    ledgerInsertFails: bool)

  // -------------------------------------------------------------- rows

  /** Statuses this handler writes, besides those the `clients` table already holds. */
  datatype Status = Provisioning | Active | PendingProvisioning | Cancelled | Paused | Trial

  datatype ProvisionFailure = ProvisionFailure(lastProvisionAttempt: string, provisionError: string)

  datatype ClientRow = ClientRow(
    businessName: string,
    contactEmail: string,
    contactPhone: string,
    plan: string,
    monthlyFeeCents: int,
    stripeCustomerId: Option<string>,
    stripeSubscriptionId: Option<string>,
    status: Status,
    metadata: Option<ProvisionFailure>)

  datatype LedgerStatus = Success | PendingRetry | Error

  /** A `webhook_events` row; the key `stripe_event_id` is the map key of the ledger. */
  datatype LedgerEntry = LedgerEntry(
    eventType: string,
    customerId: string,
    clientId: Option<nat>,
    status: LedgerStatus,
    subscriptionId: string,
    plan: Option<string>)

  /** The JSON body posted to RonOS. */
  datatype ProvisionPayload = ProvisionPayload(
    eventType: string,
    clientId: nat,
    businessName: string,
    contactEmail: string,
    contactPhone: string,
    plan: string,
    stripeCustomerId: string,
    stripeSubscriptionId: string)

  datatype Response = Received | BadRequest(error: string) | ServerError(error: string)

  /** Everything the handler can change, as one value. */
  datatype BridgeState = BridgeState(
    clients: map<nat, ClientRow>,
    nextClientId: nat,
    ledger: map<string, LedgerEntry>,
    outbound: seq<ProvisionPayload>,
    sleeps: seq<nat>)
  {
    /** Client ids handed out so far are below the next one. */
    predicate Valid() {
      forall id :: id in clients ==> id < nextClientId
    }
  }

  datatype Handled = Handled(response: Response, after: BridgeState)

  // ----------------------------------------------- plan and fee derivation

  datatype WebhookPlan = Starter | Professional | Enterprise

  function PlanName(p: WebhookPlan): string {
    match p
    case Starter => "starter"
    case Professional => "professional"
    case Enterprise => "enterprise"
  }

  /**
   * Exact match against the starter, professional and enterprise price ids,
   * in that order, defaulting to professional. Comparison is `===` on
   * possibly-undefined values, so a missing price matches an unset id.
   */
  function DerivePlan(priceId: Option<string>, cfg: PriceConfig): (plan: WebhookPlan)
    ensures plan == Starter <==> priceId == cfg.starter
    ensures plan == Enterprise <==>
      priceId != cfg.starter && priceId != cfg.professional && priceId == cfg.enterprise
  {
    if priceId == cfg.starter then Starter
    else if priceId == cfg.professional then Professional
    else if priceId == cfg.enterprise then Enterprise
    else Professional
  }

  /** The configured price id of a tier. */
  function ConfiguredPrice(p: WebhookPlan, cfg: PriceConfig): Option<string> {
    match p
    case Starter => cfg.starter
    case Professional => cfg.professional
    case Enterprise => cfg.enterprise
  }

  /** With three distinct configured ids, each tier's own price id derives that tier. */
  lemma DerivePlanRecoversTier(p: WebhookPlan, cfg: PriceConfig)
    requires cfg.starter != cfg.professional && cfg.starter != cfg.enterprise
    requires cfg.professional != cfg.enterprise
    ensures DerivePlan(ConfiguredPrice(p, cfg), cfg) == p
  {
  }

  /** A price id matching none of the configured ones falls back to professional. */
  lemma UnknownPriceIsProfessional(priceId: Option<string>, cfg: PriceConfig)
    requires priceId != cfg.starter && priceId != cfg.professional && priceId != cfg.enterprise
    ensures DerivePlan(priceId, cfg) == Professional
  {
  }

  /** A subscription without a price item, with the starter id unset, becomes starter. */
  lemma MissingPriceWithUnsetStarterIsStarter(cfg: PriceConfig)
    requires cfg.starter.None?
    ensures DerivePlan(None, cfg) == Starter
  {
  }

  /**
   * `unit_amount ? unit_amount / 100 : 499` in cents: a present, non-zero
   * amount is the fee, and a missing or zero amount gives $499.00.
   */
  function MonthlyFeeCents(unitAmount: Option<int>): (fee: int)
    ensures unitAmount.Some? && unitAmount.value != 0 ==> fee == unitAmount.value
    ensures unitAmount.None? || unitAmount.value == 0 ==> fee == 49900
  {
    if unitAmount.Some? && unitAmount.value != 0 then unitAmount.value else 49900
  }

  /** The row inserted for a created subscription: status `provisioning`. */
  function NewClientRow(e: Event, c: CustomerLookup, cfg: PriceConfig): (row: ClientRow)
    requires c.Customer?
    ensures row.status == Provisioning && row.metadata.None?
    ensures row.businessName == OrElse(c.businessName, c.email) && row.contactEmail == c.email
    ensures row.contactPhone == OrElse(c.phone, "")
    ensures row.plan == PlanName(DerivePlan(e.priceId, cfg))
    ensures row.monthlyFeeCents == MonthlyFeeCents(e.unitAmount)
    ensures row.stripeCustomerId == Some(e.customerId) && row.stripeSubscriptionId == Some(e.subscriptionId)
  {
    ClientRow(
      OrElse(c.businessName, c.email), c.email, OrElse(c.phone, ""),
      PlanName(DerivePlan(e.priceId, cfg)), MonthlyFeeCents(e.unitAmount),
      Some(e.customerId), Some(e.subscriptionId), Provisioning, None)
  }

  function PayloadFor(id: nat, row: ClientRow, e: Event): ProvisionPayload {
    ProvisionPayload(CreatedType, id, row.businessName, row.contactEmail, row.contactPhone,
                     row.plan, e.customerId, e.subscriptionId)
  }

  // ------------------------------------------------- retry with backoff

  const MaxRetries: nat := 3
  const ProvisionErrorText := "RonOS unreachable after 3 retries"

  /** Attempt `k` (counted from 0) got an ok response; an attempt the oracle does not cover threw. */
  predicate AttemptOk(outcomes: seq<AttemptOutcome>, k: nat) {
    k < |outcomes| && outcomes[k] == Responded(true)
  }

  /** The first of the first `n` attempts that succeeds, if any. */
  function FirstSuccess(outcomes: seq<AttemptOutcome>, n: nat): (r: Option<nat>)
    ensures r.Some? ==> r.value < n && AttemptOk(outcomes, r.value)
  {
    if n == 0 then None
    else match FirstSuccess(outcomes, n - 1)
      case Some(i) => Some(i)
      case None => if AttemptOk(outcomes, n - 1) then Some(n - 1) else None
  }

  /** The success found is the first one: every earlier attempt failed, and none means all `n` failed. */
  lemma {:induction false} FirstSuccessSpec(outcomes: seq<AttemptOutcome>, n: nat)
    ensures FirstSuccess(outcomes, n).Some? ==> forall j :: 0 <= j < FirstSuccess(outcomes, n).value ==> !AttemptOk(outcomes, j)
    ensures FirstSuccess(outcomes, n).None? ==> forall j :: 0 <= j < n ==> !AttemptOk(outcomes, j)
  {
    if n > 0 {
      FirstSuccessSpec(outcomes, n - 1);
    }
  }

  /** The number of requests made: up to the first success, else every allowed attempt. */
  function AttemptCount(outcomes: seq<AttemptOutcome>, maxRetries: nat): (n: nat)
    ensures n <= maxRetries
    ensures FirstSuccess(outcomes, maxRetries).Some? ==> n >= 1 && AttemptOk(outcomes, n - 1)
  {
    match FirstSuccess(outcomes, maxRetries)
    case Some(i) => i + 1
    case None => maxRetries
  }

  function Pow2(k: nat): (p: nat)
    ensures p >= 1
  {
    if k == 0 then 1 else 2 * Pow2(k - 1)
  }

  /** The first `k` backoff delays in milliseconds: 1000, 2000, 4000, ... */
  function Backoff(k: nat): (d: seq<nat>)
    ensures |d| == k
    ensures forall i :: 0 <= i < k ==> d[i] == Pow2(i) * 1000
  {
    if k == 0 then [] else Backoff(k - 1) + [Pow2(k - 1) * 1000]
  }

  /**
   * The sleeps a run makes: one after each failed attempt that is not the
   * last allowed one.
   */
  function RetryDelays(outcomes: seq<AttemptOutcome>, maxRetries: nat): (d: seq<nat>)
    ensures |d| == if AttemptCount(outcomes, maxRetries) == 0 then 0 else AttemptCount(outcomes, maxRetries) - 1
  {
    var n := AttemptCount(outcomes, maxRetries);
    Backoff(if n == 0 then 0 else n - 1)
  }

  /** With three attempts that all fail, the sleeps are exactly 1 s and 2 s: no 4 s sleep occurs. */
  lemma ThreeFailuresSleepOneAndTwoSeconds(outcomes: seq<AttemptOutcome>)
    requires forall k :: 0 <= k < MaxRetries ==> !AttemptOk(outcomes, k)
    ensures FirstSuccess(outcomes, MaxRetries).None?
    ensures AttemptCount(outcomes, MaxRetries) == 3
    ensures RetryDelays(outcomes, MaxRetries) == [1000, 2000]
  {
    assert Pow2(1) == 2;
  }

  /** No run with the default bound ever sleeps 4 s, although the comment lists it. */
  lemma NoFourSecondSleep(outcomes: seq<AttemptOutcome>)
    ensures 4000 !in RetryDelays(outcomes, MaxRetries)
  {
    var d := RetryDelays(outcomes, MaxRetries);
    assert |d| <= 2;
    assert Pow2(1) == 2;
    assert forall i :: 0 <= i < |d| ==> d[i] == 1000 || d[i] == 2000;
  }

  /** A sleep never follows the last request: there is one sleep fewer than requests. */
  lemma {:induction false} SleepsBetweenAttempts(outcomes: seq<AttemptOutcome>, maxRetries: nat)
    requires maxRetries >= 1
    ensures AttemptCount(outcomes, maxRetries) >= 1
    ensures |RetryDelays(outcomes, maxRetries)| == AttemptCount(outcomes, maxRetries) - 1
    ensures FirstSuccess(outcomes, maxRetries).None? <==>
      AttemptCount(outcomes, maxRetries) == maxRetries && !AttemptOk(outcomes, maxRetries - 1)
  {
    match FirstSuccess(outcomes, maxRetries)
    case Some(i) =>
      if i + 1 == maxRetries {
        assert AttemptOk(outcomes, maxRetries - 1);
      }
    case None =>
  }

  // ----------------------------------------------------- the handler

  /** The row after the provisioning call: active on success, else pending with the reason. */
  function AfterProvisioning(row: ClientRow, ok: bool, now: string): (r: ClientRow)
    ensures r.status == Active <==> ok
    ensures !ok ==> r.status == PendingProvisioning && r.metadata == Some(ProvisionFailure(now, ProvisionErrorText))
    ensures r.(status := row.status, metadata := row.metadata) == row
    ensures ok ==> r.metadata == row.metadata
  {
    if ok then row.(status := Active)
    else row.(status := PendingProvisioning, metadata := Some(ProvisionFailure(now, ProvisionErrorText)))
  }

  /** `update({ status: 'cancelled' }).eq('stripe_customer_id', customerId)`. */
  function CancelMatching(clients: map<nat, ClientRow>, customerId: string): (r: map<nat, ClientRow>)
    ensures r.Keys == clients.Keys
    ensures forall id :: id in r ==> r[id].(status := clients[id].status) == clients[id]
    ensures forall id :: id in r ==>
      r[id].status == (if clients[id].stripeCustomerId == Some(customerId) then Cancelled else clients[id].status)
  {
    map id | id in clients ::
      if clients[id].stripeCustomerId == Some(customerId) then clients[id].(status := Cancelled) else clients[id]
  }

  function CreatedEntry(e: Event, id: nat, plan: string, ok: bool): LedgerEntry {
    LedgerEntry(e.eventType, e.customerId, Some(id), if ok then Success else PendingRetry, e.subscriptionId, Some(plan))
  }

  function DeletedEntry(e: Event, failed: bool): LedgerEntry {
    LedgerEntry(e.eventType, e.customerId, None, if failed then Error else Success, e.subscriptionId, None)
  }

  /** The ledger insert: the row is added under the event id unless the insert fails. */
  function Record(ledger: map<string, LedgerEntry>, id: string, entry: LedgerEntry, faults: Faults): (r: map<string, LedgerEntry>)
    ensures faults.ledgerInsertFails ==> r == ledger
    ensures !faults.ledgerInsertFails ==> r.Keys == ledger.Keys + {id} && r[id] == entry
    ensures forall k :: k in ledger && k != id ==> k in r && r[k] == ledger[k]
  {
    if faults.ledgerInsertFails then ledger else ledger[id := entry]
  }

  /** The `customer.subscription.created` branch. */
  function Created(s: BridgeState, e: Event, customer: CustomerLookup, cfg: PriceConfig,
                   outcomes: seq<AttemptOutcome>, faults: Faults, now: string): (h: Handled)
    requires s.Valid()
    ensures h.after.Valid()
  {
    match customer
    case LookupFailed => Handled(ServerError("Processing error"), s)
    case DeletedCustomer => Handled(BadRequest("Customer deleted"), s)
    case Customer(_, _, _) =>
      if faults.clientInsertFails then Handled(ServerError("Database error"), s)
      else
        var id := s.nextClientId;
        var row := NewClientRow(e, customer, cfg);
        var ok := FirstSuccess(outcomes, MaxRetries).Some?;
        Handled(Received, BridgeState(
          s.clients[id := if faults.statusUpdateFails then row else AfterProvisioning(row, ok, now)],
          id + 1,
          Record(s.ledger, e.id, CreatedEntry(e, id, row.plan, ok), faults),
          s.outbound + Repeat(PayloadFor(id, row, e), AttemptCount(outcomes, MaxRetries)),
          s.sleeps + RetryDelays(outcomes, MaxRetries)))
  }

  /** The whole `POST` handler, as a function of the state before it. */
  function Handle(s: BridgeState, e: Event, customer: CustomerLookup, cfg: PriceConfig,
                  outcomes: seq<AttemptOutcome>, faults: Faults, now: string): (h: Handled)
    requires s.Valid()
    ensures h.after.Valid()
  {
    if !e.signatureValid then Handled(BadRequest("Invalid signature"), s)
    else if e.id in s.ledger && !faults.ledgerSelectFails then Handled(Received, s)
    else if e.eventType == CreatedType then Created(s, e, customer, cfg, outcomes, faults, now)
    else if e.eventType == DeletedType then
      Handled(Received, s.(
        clients := if faults.cancelUpdateFails then s.clients else CancelMatching(s.clients, e.customerId),
        ledger := Record(s.ledger, e.id, DeletedEntry(e, faults.cancelUpdateFails), faults)))
    else Handled(Received, s)
  }

  // ---------------------------------------------- properties of Handle

  /** A bad signature is answered 400 before anything is read or written. */
  lemma SignatureGate(s: BridgeState, e: Event, customer: CustomerLookup, cfg: PriceConfig,
                      outcomes: seq<AttemptOutcome>, faults: Faults, now: string)
    requires s.Valid() && !e.signatureValid
    ensures Handle(s, e, customer, cfg, outcomes, faults, now) == Handled(BadRequest("Invalid signature"), s)
  {
  }

  /**
   * An event id already in the ledger is acknowledged and changes nothing,
   * provided the ledger select does not fail.
   */
  lemma AlreadyProcessed(s: BridgeState, e: Event, customer: CustomerLookup, cfg: PriceConfig,
                         outcomes: seq<AttemptOutcome>, faults: Faults, now: string)
    requires s.Valid() && e.signatureValid && e.id in s.ledger
    ensures !faults.ledgerSelectFails ==> Handle(s, e, customer, cfg, outcomes, faults, now) == Handled(Received, s)
  {
  }

  /**
   * A failed ledger select reads as "not processed yet": a created event
   * that is already recorded is processed again, inserting a second client
   * and calling the provisioning service again.
   */
  lemma FailedLedgerSelectReprocesses(s: BridgeState, e: Event, customer: CustomerLookup, cfg: PriceConfig,
                                      outcomes: seq<AttemptOutcome>, faults: Faults, now: string)
    requires s.Valid() && e.signatureValid && e.id in s.ledger && faults.ledgerSelectFails
    requires e.eventType == CreatedType && customer.Customer? && !faults.clientInsertFails
    ensures var h := Handle(s, e, customer, cfg, outcomes, faults, now);
      && h.response == Received
      && s.nextClientId !in s.clients
      && h.after.clients.Keys == s.clients.Keys + {s.nextClientId}
      && |h.after.outbound| > |s.outbound|
  {
    SleepsBetweenAttempts(outcomes, MaxRetries);
  }

  /**
   * A second delivery of an acknowledged event is acknowledged again and
   * changes nothing, whatever the provisioning service, Stripe or the
   * database do this time, when the first delivery's ledger insert and the
   * second delivery's ledger select succeed. The first delivery records the
   * event exactly when its ledger insert succeeds, and adds at most one client.
   */
  lemma RedeliveryIsNoOp(s: BridgeState, e: Event, customer: CustomerLookup, cfg: PriceConfig,
                         outcomes: seq<AttemptOutcome>, faults: Faults, now: string,
                         customer2: CustomerLookup, outcomes2: seq<AttemptOutcome>, faults2: Faults, now2: string)
    requires s.Valid() && e.signatureValid && e.id !in s.ledger
    requires e.eventType == CreatedType || e.eventType == DeletedType
    requires Handle(s, e, customer, cfg, outcomes, faults, now).response == Received
    ensures var first := Handle(s, e, customer, cfg, outcomes, faults, now).after;
      && (e.id in first.ledger <==> !faults.ledgerInsertFails)
      && first.ledger.Keys <= s.ledger.Keys + {e.id}
      && |first.clients| <= |s.clients| + 1
      && (!faults.ledgerInsertFails && !faults2.ledgerSelectFails ==>
            Handle(first, e, customer2, cfg, outcomes2, faults2, now2) == Handled(Received, first))
  {
    var first := Handle(s, e, customer, cfg, outcomes, faults, now).after;
    FirstDeliveryRecorded(s, e, customer, cfg, outcomes, faults, now);
    FirstDeliveryAddsAtMostOne(s, e, customer, cfg, outcomes, faults, now);
    if !faults.ledgerInsertFails {
      AlreadyProcessed(first, e, customer2, cfg, outcomes2, faults2, now2);
    }
  }

  /** An acknowledged first delivery records the event in the ledger unless the ledger insert fails. */
  lemma FirstDeliveryRecorded(s: BridgeState, e: Event, customer: CustomerLookup, cfg: PriceConfig,
                              outcomes: seq<AttemptOutcome>, faults: Faults, now: string)
    requires s.Valid() && e.signatureValid && e.id !in s.ledger
    requires e.eventType == CreatedType || e.eventType == DeletedType
    requires Handle(s, e, customer, cfg, outcomes, faults, now).response == Received
    ensures Handle(s, e, customer, cfg, outcomes, faults, now).after.ledger.Keys
      == if faults.ledgerInsertFails then s.ledger.Keys else s.ledger.Keys + {e.id}
  {
  }

  /** An acknowledged first delivery adds at most one client. */
  lemma FirstDeliveryAddsAtMostOne(s: BridgeState, e: Event, customer: CustomerLookup, cfg: PriceConfig,
                                   outcomes: seq<AttemptOutcome>, faults: Faults, now: string)
    requires s.Valid() && e.signatureValid && e.id !in s.ledger
    requires e.eventType == CreatedType || e.eventType == DeletedType
    requires Handle(s, e, customer, cfg, outcomes, faults, now).response == Received
    ensures |Handle(s, e, customer, cfg, outcomes, faults, now).after.clients| <= |s.clients| + 1
  {
    var first := Handle(s, e, customer, cfg, outcomes, faults, now).after;
    if e.eventType == CreatedType {
      assert s.nextClientId !in s.clients;
    } else {
      assert first.clients.Keys == s.clients.Keys;
    }
  }

  /**
   * A created event whose ledger insert fails is acknowledged but not
   * recorded, so Stripe's redelivery inserts a second client for the same
   * subscription and calls the provisioning service again.
   */
  lemma LostLedgerRowProvisionsTwice(s: BridgeState, e: Event, customer: CustomerLookup, cfg: PriceConfig,
                                     outcomes: seq<AttemptOutcome>, faults: Faults, now: string,
                                     customer2: CustomerLookup, outcomes2: seq<AttemptOutcome>, faults2: Faults, now2: string)
    requires s.Valid() && e.signatureValid && e.id !in s.ledger && e.eventType == CreatedType
    requires customer.Customer? && !faults.clientInsertFails && faults.ledgerInsertFails
    requires customer2.Customer? && !faults2.clientInsertFails
    ensures var first := Handle(s, e, customer, cfg, outcomes, faults, now);
      var second := Handle(first.after, e, customer2, cfg, outcomes2, faults2, now2);
      var a, b := s.nextClientId, s.nextClientId + 1;
      && first.response == Received && second.response == Received
      && a !in s.clients && b !in s.clients
      && second.after.clients.Keys == s.clients.Keys + {a, b}
      && second.after.clients[a].stripeSubscriptionId == Some(e.subscriptionId)
      && second.after.clients[b].stripeSubscriptionId == Some(e.subscriptionId)
      && |second.after.outbound| >= |s.outbound| + 2
  {
    SleepsBetweenAttempts(outcomes, MaxRetries);
    SleepsBetweenAttempts(outcomes2, MaxRetries);
  }

  /**
   * A created event with a live customer and a successful insert is
   * acknowledged and adds one client, as many requests as attempts made,
   * and the old rows unchanged. Unless the status update fails, the client
   * is active exactly when some attempt succeeded and otherwise pending with
   * the failure recorded; if it fails, the client stays `provisioning`.
   * Unless the ledger insert fails, one ledger row with the matching status
   * is added; if it fails, the ledger is unchanged.
   */
  lemma CreatedOutcome(s: BridgeState, e: Event, customer: CustomerLookup, cfg: PriceConfig,
                       outcomes: seq<AttemptOutcome>, faults: Faults, now: string)
    requires s.Valid() && e.signatureValid && e.id !in s.ledger && e.eventType == CreatedType
    requires customer.Customer? && !faults.clientInsertFails
    ensures var h := Handle(s, e, customer, cfg, outcomes, faults, now);
      var id := s.nextClientId;
      var ok := FirstSuccess(outcomes, MaxRetries).Some?;
      && h.response == Received
      && h.after.clients.Keys == s.clients.Keys + {id} && id !in s.clients
      && (forall k :: k in s.clients ==> h.after.clients[k] == s.clients[k])
      && (faults.statusUpdateFails ==> h.after.clients[id].status == Provisioning)
      && (!faults.statusUpdateFails ==> (h.after.clients[id].status == Active <==> ok))
      && (!faults.statusUpdateFails && !ok ==>
            h.after.clients[id].status == PendingProvisioning &&
            h.after.clients[id].metadata == Some(ProvisionFailure(now, ProvisionErrorText)))
      && (faults.ledgerInsertFails ==> h.after.ledger == s.ledger)
      && (!faults.ledgerInsertFails ==>
            && h.after.ledger.Keys == s.ledger.Keys + {e.id}
            && h.after.ledger[e.id].status == (if ok then Success else PendingRetry)
            && h.after.ledger[e.id].clientId == Some(id))
      && |h.after.outbound| == |s.outbound| + AttemptCount(outcomes, MaxRetries)
      && 1 <= AttemptCount(outcomes, MaxRetries) <= MaxRetries
  {
    SleepsBetweenAttempts(outcomes, MaxRetries);
  }

  /**
   * A deleted customer (400), a failed Stripe lookup (500) or a failed
   * insert (500) leaves every table, the request log and the sleep log as
   * they were.
   */
  lemma CreatedErrorsWriteNothing(s: BridgeState, e: Event, customer: CustomerLookup, cfg: PriceConfig,
                                  outcomes: seq<AttemptOutcome>, faults: Faults, now: string)
    requires s.Valid() && e.signatureValid && e.id !in s.ledger && e.eventType == CreatedType
    requires !customer.Customer? || faults.clientInsertFails
    ensures var h := Handle(s, e, customer, cfg, outcomes, faults, now);
      h.after == s
      && (customer.DeletedCustomer? ==> h.response == BadRequest("Customer deleted"))
      && (!customer.DeletedCustomer? ==> h.response.ServerError?)
  {
  }

  /**
   * A deleted subscription cancels exactly the clients with that Stripe
   * customer id, changes no other field, adds no client, makes no request,
   * and appends one ledger row saying whether the update failed, unless
   * the ledger insert fails.
   */
  lemma DeletedOutcome(s: BridgeState, e: Event, customer: CustomerLookup, cfg: PriceConfig,
                       outcomes: seq<AttemptOutcome>, faults: Faults, now: string)
    requires s.Valid() && e.signatureValid && e.id !in s.ledger && e.eventType == DeletedType
    ensures var h := Handle(s, e, customer, cfg, outcomes, faults, now);
      && h.response == Received
      && h.after.clients.Keys == s.clients.Keys
      && (forall id :: id in s.clients ==>
            h.after.clients[id].(status := s.clients[id].status) == s.clients[id])
      && (forall id :: id in s.clients ==>
            (h.after.clients[id].status != s.clients[id].status ==>
               h.after.clients[id].status == Cancelled && s.clients[id].stripeCustomerId == Some(e.customerId)))
      && (!faults.cancelUpdateFails ==>
            forall id :: (id in s.clients && s.clients[id].stripeCustomerId == Some(e.customerId)) ==>
              h.after.clients[id].status == Cancelled)
      && (faults.ledgerInsertFails ==> h.after.ledger == s.ledger)
      && (!faults.ledgerInsertFails ==> h.after.ledger == s.ledger[e.id := DeletedEntry(e, faults.cancelUpdateFails)])
      && h.after.nextClientId == s.nextClientId
      && h.after.outbound == s.outbound && h.after.sleeps == s.sleeps
  {
  }

  /** Any other event type is acknowledged with no write and no ledger row. */
  lemma OtherEventsIgnored(s: BridgeState, e: Event, customer: CustomerLookup, cfg: PriceConfig,
                           outcomes: seq<AttemptOutcome>, faults: Faults, now: string)
    requires s.Valid() && e.signatureValid && e.eventType != CreatedType && e.eventType != DeletedType
    ensures Handle(s, e, customer, cfg, outcomes, faults, now) == Handled(Received, s)
  {
  }

  /**
   * Recovery on the third attempt: three requests, sleeps of 1 s and 2 s,
   * and, when those writes succeed, an active client and a `success` row.
   */
  lemma RecoveryOnThirdAttempt(s: BridgeState, e: Event, customer: CustomerLookup, cfg: PriceConfig,
                               faults: Faults, now: string)
    requires s.Valid() && e.signatureValid && e.id !in s.ledger && e.eventType == CreatedType
    requires customer.Customer? && !faults.clientInsertFails
    ensures var outcomes := [Responded(false), Threw, Responded(true)];
      var h := Handle(s, e, customer, cfg, outcomes, faults, now);
      && (!faults.statusUpdateFails ==> h.after.clients[s.nextClientId].status == Active)
      && (!faults.ledgerInsertFails ==> h.after.ledger[e.id].status == Success)
      && |h.after.outbound| == |s.outbound| + 3
      && h.after.sleeps == s.sleeps + [1000, 2000]
  {
    var outcomes := [Responded(false), Threw, Responded(true)];
    assert !AttemptOk(outcomes, 0) && !AttemptOk(outcomes, 1) && AttemptOk(outcomes, 2);
    assert FirstSuccess(outcomes, MaxRetries) == Some(2);
    assert Pow2(1) == 2;
  }

  // --------------------------------------------------- the imperative handler

  class Bridge {
    var clients: map<nat, ClientRow>
    var nextClientId: nat
    var ledger: map<string, LedgerEntry>
    ghost var outbound: seq<ProvisionPayload>
    ghost var sleeps: seq<nat>

    ghost function State(): BridgeState
      reads this
    {
      BridgeState(clients, nextClientId, ledger, outbound, sleeps)
    }

    ghost predicate Valid()
      reads this
    {
      State().Valid()
    }

    constructor (initial: BridgeState)
      requires initial.Valid()
      ensures Valid() && State() == initial
    {
      clients := initial.clients;
      nextClientId := initial.nextClientId;
      ledger := initial.ledger;
      outbound := initial.outbound;
      sleeps := initial.sleeps;
    }

    /** `POST`: verify, check the ledger, then dispatch on the event type. */
    method HandleEvent(e: Event, customer: CustomerLookup, cfg: PriceConfig,
                       outcomes: seq<AttemptOutcome>, faults: Faults, now: string) returns (resp: Response)
      requires Valid()
      modifies this
      ensures Valid()
      ensures Handled(resp, State()) == Handle(old(State()), e, customer, cfg, outcomes, faults, now)
    {
      if !e.signatureValid {
        return BadRequest("Invalid signature");
      }
      if e.id in ledger && !faults.ledgerSelectFails {
        return Received;
      }
      if e.eventType == CreatedType {
        resp := HandleCreated(e, customer, cfg, outcomes, faults, now);
        return;
      }
      if e.eventType == DeletedType {
        HandleDeleted(e, faults);
      }
      return Received;
    }

    method HandleCreated(e: Event, customer: CustomerLookup, cfg: PriceConfig,
                         outcomes: seq<AttemptOutcome>, faults: Faults, now: string) returns (resp: Response)
      requires Valid()
      modifies this
      ensures Valid()
      ensures Handled(resp, State()) == Created(old(State()), e, customer, cfg, outcomes, faults, now)
    {
      if customer.LookupFailed? {
        return ServerError("Processing error");
      }
      if customer.DeletedCustomer? {
        return BadRequest("Customer deleted");
      }
      var row := NewClientRow(e, customer, cfg);
      if faults.clientInsertFails {
        return ServerError("Database error");
      }
      var id := InsertClient(row);
      var ok := CallRonosWithRetry(PayloadFor(id, row, e), outcomes, MaxRetries);
      if !faults.statusUpdateFails {
        UpdateClient(id, AfterProvisioning(row, ok, now));
      }
      RecordEvent(e.id, CreatedEntry(e, id, row.plan, ok), faults);
      resp := Received;
    }

    /** The insert; the database assigns the next id. */
    method InsertClient(row: ClientRow) returns (id: nat)
      requires Valid()
      modifies this`clients, this`nextClientId
      ensures Valid()
      ensures id == old(nextClientId) && id !in old(clients)
      ensures clients == old(clients)[id := row] && nextClientId == id + 1
    {
      id := nextClientId;
      clients := clients[id := row];
      nextClientId := nextClientId + 1;
    }

    /** `update(...).eq('id', id)` on an existing row. */
    method UpdateClient(id: nat, row: ClientRow)
      requires Valid() && id in clients
      modifies this`clients
      ensures Valid()
      ensures clients == old(clients)[id := row]
    {
      clients := clients[id := row];
    }

    /**
     * `callRonosWithRetry`: up to `maxRetries` requests, stopping at the
     * first ok response; after a failed request that is not the last
     * allowed one, sleep 2^(attempt-1) seconds.
     */
    method CallRonosWithRetry(payload: ProvisionPayload, outcomes: seq<AttemptOutcome>, maxRetries: nat)
      returns (ok: bool)
      modifies this`outbound, this`sleeps
      ensures ok == FirstSuccess(outcomes, maxRetries).Some?
      ensures outbound == old(outbound) + Repeat(payload, AttemptCount(outcomes, maxRetries))
      ensures sleeps == old(sleeps) + RetryDelays(outcomes, maxRetries)
    {
      var attempt := 1;
      while attempt <= maxRetries
        invariant 1 <= attempt <= maxRetries + 1
        invariant FirstSuccess(outcomes, attempt - 1).None?
        invariant outbound == old(outbound) + Repeat(payload, attempt - 1)
        // One sleep per failed attempt so far, except that the last allowed
        // attempt is not followed by one: after it, attempt is maxRetries + 1
        // and the sleeps are maxRetries - 1 (none when maxRetries is 0).
        invariant sleeps == old(sleeps) + Backoff(if attempt <= maxRetries || attempt == 1 then attempt - 1 else attempt - 2)
      {
        outbound := outbound + [payload];
        var outcome := if attempt - 1 < |outcomes| then outcomes[attempt - 1] else Threw;
        match outcome {
          case Responded(true) =>
            assert FirstSuccess(outcomes, attempt) == Some(attempt - 1);
            FirstSuccessSpec(outcomes, attempt - 1);
            FirstSuccessSpec(outcomes, maxRetries);
            return true;
          case Responded(false) =>
            if attempt < maxRetries {
              sleeps := sleeps + [Pow2(attempt - 1) * 1000];
            }
          case Threw =>
            if attempt < maxRetries {
              sleeps := sleeps + [Pow2(attempt - 1) * 1000];
            }
        }
        attempt := attempt + 1;
      }
      return false;
    }

    /** The `customer.subscription.deleted` branch. */
    method HandleDeleted(e: Event, faults: Faults)
      requires Valid()
      modifies this`clients, this`ledger
      ensures Valid()
      ensures clients == if faults.cancelUpdateFails then old(clients) else CancelMatching(old(clients), e.customerId)
      ensures ledger == Record(old(ledger), e.id, DeletedEntry(e, faults.cancelUpdateFails), faults)
    {
      if !faults.cancelUpdateFails {
        clients := CancelMatching(clients, e.customerId);
      }
      RecordEvent(e.id, DeletedEntry(e, faults.cancelUpdateFails), faults);
    }

    /** The `webhook_events` insert, whose error the handler does not look at. */
    method RecordEvent(id: string, entry: LedgerEntry, faults: Faults)
      modifies this`ledger
      ensures ledger == Record(old(ledger), id, entry, faults)
    {
      if !faults.ledgerInsertFails {
        ledger := ledger[id := entry];
      }
    }
  }

  /**
   * Two deliveries of one signed event to a fresh bridge, with the same
   * database behaviour both times. When the ledger select and insert
   * succeed, the second delivery is acknowledged and leaves the tables
   * exactly as the first left them. When the ledger insert fails, the event
   * is not recorded, and a created event provisions a second client.
   */
  method DeliverTwice(initial: BridgeState, e: Event, customer: CustomerLookup, cfg: PriceConfig,
                      outcomes: seq<AttemptOutcome>, faults: Faults, now: string, outcomes2: seq<AttemptOutcome>)
    returns (first: Response, second: Response,
             clients1: map<nat, ClientRow>, ledger1: map<string, LedgerEntry>,
             clients2: map<nat, ClientRow>, ledger2: map<string, LedgerEntry>)
    requires initial.Valid() && e.signatureValid && e.id !in initial.ledger
    requires e.eventType == CreatedType || e.eventType == DeletedType
    ensures first == Received && !faults.ledgerInsertFails && !faults.ledgerSelectFails ==>
      second == Received && clients2 == clients1 && ledger2 == ledger1
    ensures first == Received ==> (e.id in ledger1 <==> !faults.ledgerInsertFails)
    ensures first == Received ==> ledger1.Keys <= initial.ledger.Keys + {e.id}
    ensures first != Received ==> clients1 == initial.clients && ledger1 == initial.ledger
    ensures first == Received && faults.ledgerInsertFails && e.eventType == CreatedType ==>
      second == Received && |clients2| == |clients1| + 1 && |clients1| == |initial.clients| + 1
  {
    var b := new Bridge(initial);
    first := b.HandleEvent(e, customer, cfg, outcomes, faults, now);
    clients1, ledger1 := b.clients, b.ledger;
    if first == Received {
      RedeliveryIsNoOp(initial, e, customer, cfg, outcomes, faults, now, customer, outcomes2, faults, now);
      if faults.ledgerInsertFails && e.eventType == CreatedType {
        LostLedgerRowProvisionsTwice(initial, e, customer, cfg, outcomes, faults, now, customer, outcomes2, faults, now);
      }
    }
    second := b.HandleEvent(e, customer, cfg, outcomes2, faults, now);
    clients2, ledger2 := b.clients, b.ledger;
  }
}
