# fcpdigital-website core, in Dafny

This project models the server-side core of the fcpdigital-website SaaS for AI
voice receptionists. It also models the small helpers of its dashboard and
admin pages. The core has these parts:

- **Stripe bridge.** The Stripe webhook turns a paid subscription into a
  client row and asks the provisioning service ("RonOS") to set the client
  up. It retries that call with exponential backoff and records every
  processed event in a ledger, so that a redelivered event is a no-op. The
  handler ignores a failed ledger read, a failed status update and a failed
  ledger write. A created event whose ledger row was lost is processed again
  on redelivery: a second client is inserted and provisioned.
- **Call webhook.** The call-completion webhook classifies a finished call
  (urgency, service, caller name). It then stores the call, counts it in
  today's usage row and adds its rounded-up minutes to the client's total.
- **Statistics queries.** These fold query results into usage, call, client
  and lead statistics.
- **Guards and helpers.** These are the route guard, the bearer-token and
  admin helpers, and the plan table.
- **Page helpers.** These are the filters, the duration and relative-time
  formatting, the colour bands and the distinct option lists of four pages.

Both webhooks are modelled twice:

- a class that changes its tables step by step (`StripeWebhook.Bridge`,
  `CallsWebhook.CallStore`);
- a pure function of the state before the request (`StripeWebhook.Handle`,
  `CallsWebhook.Process`).

Each class method is proved equal to its function. The properties the source
promises are then proved about the function.

Outside effects are modelled as inputs or logs:

- The signature check is a boolean on the event.
- The provisioning service's answers are a list of attempt outcomes.
- Each database call that can fail is a flag. This includes the calls whose
  errors the handlers ignore.
- The requests sent and the delays slept are recorded in ghost logs.

Money is held in cents in the webhook and the queries, and in whole dollars on
the admin client page, as there. JavaScript division is exact
(`JsNumbers.Divide`): dividing by zero gives `Infinity` or `NaN`, and
`Math.round` rounds halves up.

## Model

| member | source | states |
|---|---|---|
| StripeWebhook.Bridge.HandleEvent | src/app/api/webhooks/stripe/route.ts:25-235 | the handler's new tables and logs, and its response, are exactly `Handle` of the old state |
| StripeWebhook.Bridge.HandleCreated | src/app/api/webhooks/stripe/route.ts:97-199 | the created branch, step by step, equals `Created` of the old state: customer lookup, insert, provisioning, the status update (no change when it fails) and the ledger row (none when its insert fails) |
| StripeWebhook.Bridge.InsertClient | src/app/api/webhooks/stripe/route.ts:128-146 | the insert adds exactly one row under a fresh id and changes no other row |
| StripeWebhook.Bridge.UpdateClient | src/app/api/webhooks/stripe/route.ts:164-184 | the status update replaces the one row with that id and nothing else |
| StripeWebhook.Bridge.CallRonosWithRetry | src/app/api/webhooks/stripe/route.ts:45-82 | the loop returns true iff some allowed attempt got an ok response, sends the payload once per attempt up to the first success, and sleeps 2^(k-1) s after each failed attempt but the last |
| StripeWebhook.Bridge.HandleDeleted | src/app/api/webhooks/stripe/route.ts:201-228 | cancels the clients with the customer id unless the update fails, and records one ledger row saying whether it did, unless the ledger insert fails |
| StripeWebhook.Bridge.RecordEvent | src/app/api/webhooks/stripe/route.ts:217-227 | the unchecked ledger insert: the row is added under the event id, or nothing changes when the insert fails |
| StripeWebhook.Record | src/app/api/webhooks/stripe/route.ts:187-198 | a failed insert leaves the ledger as it was; otherwise the event id is added with its row; every other event's row is kept |
| StripeWebhook.DeliverTwice | src/app/api/webhooks/stripe/route.ts:84-230 | two deliveries of one event: when the ledger read and write succeed, the second is acknowledged and changes no table; the event is recorded iff the ledger insert succeeded; with a lost ledger row, a created event gets a second client |
| StripeWebhook.SignatureGate | src/app/api/webhooks/stripe/route.ts:31-40 | a bad signature gives 400 and leaves tables, requests and sleeps unchanged |
| StripeWebhook.AlreadyProcessed | src/app/api/webhooks/stripe/route.ts:86-95 | an event id already in the ledger gives 200 and changes nothing, when the ledger select succeeds |
| StripeWebhook.FailedLedgerSelectReprocesses | src/app/api/webhooks/stripe/route.ts:86-95 | a failed ledger select reads as "not processed": a recorded created event is handled again, adding a client and making requests |
| StripeWebhook.RedeliveryIsNoOp | src/app/api/webhooks/stripe/route.ts:84-230 | an acknowledged first delivery records the event iff its ledger insert succeeds and adds at most one client; then, if the second delivery's ledger select succeeds, the second gives 200 and changes nothing, whatever Stripe or the provisioning service do |
| StripeWebhook.LostLedgerRowProvisionsTwice | src/app/api/webhooks/stripe/route.ts:186-198 | a created event whose ledger insert failed is acknowledged, and its redelivery adds a second client with the same subscription id and requests provisioning again |
| StripeWebhook.DerivePlan | src/app/api/webhooks/stripe/route.ts:112-121 | starter iff the price id equals the starter id; enterprise iff it equals the enterprise id and neither earlier id; professional otherwise |
| StripeWebhook.DerivePlanRecoversTier | src/app/api/webhooks/stripe/route.ts:112-121 | with three distinct configured ids, each tier's own price id derives that tier |
| StripeWebhook.UnknownPriceIsProfessional | src/app/api/webhooks/stripe/route.ts:113 | a price id matching no configured id gives professional |
| StripeWebhook.MissingPriceWithUnsetStarterIsStarter | src/app/api/webhooks/stripe/route.ts:112-116 | a subscription without a price item becomes starter when the starter id is unset (`undefined === undefined`) |
| StripeWebhook.MonthlyFeeCents | src/app/api/webhooks/stripe/route.ts:123-125 | a present non-zero unit amount is the fee; a missing or zero one gives 499.00 |
| StripeWebhook.NewClientRow | src/app/api/webhooks/stripe/route.ts:128-139 | the inserted row has status provisioning, the business name falling back to the email, the phone falling back to "", the derived plan and fee, and both Stripe ids |
| StripeWebhook.FirstSuccess | src/app/api/webhooks/stripe/route.ts:46-58 | a success found is an ok attempt among the first n |
| StripeWebhook.FirstSuccessSpec | src/app/api/webhooks/stripe/route.ts:46-58 | every attempt before the success found failed; none is found iff all n attempts failed |
| StripeWebhook.AttemptCount | src/app/api/webhooks/stripe/route.ts:46-79 | at most maxRetries requests are made, and the last one made is the successful one when there is one |
| StripeWebhook.Backoff | src/app/api/webhooks/stripe/route.ts:67 | the k-th delay is 2^k * 1000 ms |
| StripeWebhook.RetryDelays | src/app/api/webhooks/stripe/route.ts:66-76 | there is one delay fewer than requests made |
| StripeWebhook.ThreeFailuresSleepOneAndTwoSeconds | src/app/api/webhooks/stripe/route.ts:65-76 | three failed attempts sleep exactly 1000 and 2000 ms |
| StripeWebhook.NoFourSecondSleep | src/app/api/webhooks/stripe/route.ts:65-66 | no run sleeps 4000 ms, although the comment lists a 4 s delay |
| StripeWebhook.SleepsBetweenAttempts | src/app/api/webhooks/stripe/route.ts:66-81 | at least one request is made, no sleep follows the last request, and failure means every allowed attempt was made and the last failed |
| StripeWebhook.AfterProvisioning | src/app/api/webhooks/stripe/route.ts:164-184 | active iff provisioning succeeded; otherwise pending_provisioning with the time and error recorded; no other column changes |
| StripeWebhook.CancelMatching | src/app/api/webhooks/stripe/route.ts:206-209 | the same rows, each cancelled iff its Stripe customer id matches, with no other field changed |
| StripeWebhook.CreatedOutcome | src/app/api/webhooks/stripe/route.ts:128-198 | 200 with one new client, the old rows unchanged and one request per attempt; the client is active iff some attempt succeeded, else pending with the failure, and stays provisioning if the status update fails; one ledger row with the matching status, or none if the ledger insert fails |
| StripeWebhook.CreatedErrorsWriteNothing | src/app/api/webhooks/stripe/route.ts:102-146 | a deleted customer gives 400, and a failed lookup or insert gives 500; in all three cases no table, request or sleep changes |
| StripeWebhook.DeletedOutcome | src/app/api/webhooks/stripe/route.ts:201-228 | cancels exactly the matching clients, changes no other field or client, makes no request, and appends one success/error ledger row, or none if the ledger insert fails |
| StripeWebhook.OtherEventsIgnored | src/app/api/webhooks/stripe/route.ts:97-230 | any other event type gives 200 with no write |
| StripeWebhook.RecoveryOnThirdAttempt | src/app/api/webhooks/stripe/route.ts:45-198 | a failure, an exception, then success: three requests and sleeps of 1 s and 2 s; the client is active unless the status update fails, and the ledger row is success unless its insert fails |
| CallsWebhook.CallStore.HandleCall | src/app/api/calls/webhook/route.ts:116-296 | the handler's new tables and response are exactly `Process` of the old tables |
| CallsWebhook.CallStore.StoreCall | src/app/api/calls/webhook/route.ts:164-272 | the call insert, usage upsert, minutes update and audit insert together equal `Store` |
| CallsWebhook.CallStore.RecordUsage | src/app/api/calls/webhook/route.ts:195-230 | the select-then-update-or-insert equals `UpsertUsage` |
| CallsWebhook.FirstMatchIndex | src/app/api/calls/webhook/route.ts:43-97 | the index of the first rule whose keywords occur in the text, all earlier rules failing |
| CallsWebhook.FirstMatchExtend | src/app/api/calls/webhook/route.ts:43-97 | adding text around a summary can only move the first matching rule earlier |
| CallsWebhook.ParseUrgency | src/app/api/calls/webhook/route.ts:43-72 | the ladder is the first-match search over the three keyword groups of the lower-cased summary, default low |
| CallsWebhook.UrgencyRankByIndex | src/app/api/calls/webhook/route.ts:43-72 | an earlier matching group means a more urgent result |
| CallsWebhook.ParseUrgencyIgnoresCase | src/app/api/calls/webhook/route.ts:44 | a summary and its lower-cased form get the same urgency |
| CallsWebhook.ParseUrgencyMonotone | src/app/api/calls/webhook/route.ts:43-72 | adding text to a summary never lowers its urgency |
| CallsWebhook.ServiceLadderIsFirstRule | src/app/api/calls/webhook/route.ts:81-96 | the keyword ladder is the first-match search over the nine keyword rules, default "Service Inquiry" |
| CallsWebhook.Field | src/app/api/calls/webhook/route.ts:75-79 | an extracted field is used iff it is present and non-empty |
| CallsWebhook.ExtractServiceNeeded | src/app/api/calls/webhook/route.ts:74-97 | serviceType first, then service, then the summary's keywords |
| CallsWebhook.PlumbingFirst | src/app/api/calls/webhook/route.ts:84 | plumbing wins over every later keyword, emergency included |
| CallsWebhook.ServiceLabelsFixed | src/app/api/calls/webhook/route.ts:81-96 | without extracted data the result is one of the ten fixed labels |
| CallsWebhook.ExtractCallerName | src/app/api/calls/webhook/route.ts:99-114 | callerName first, then name, then the summary pattern; null iff all three are missing |
| CallsWebhook.CallMinutes | src/app/api/calls/webhook/route.ts:193 | the smallest m with 60m at least the duration |
| CallsWebhook.CallMinutesIsCeiling | src/app/api/calls/webhook/route.ts:193 | that bound determines the result uniquely |
| CallsWebhook.CallMinutesExamples | src/app/api/calls/webhook/route.ts:193 | 0 s gives 0, 1 and 60 s give 1, 61 s gives 2 |
| CallsWebhook.LookupClient | src/app/api/calls/webhook/route.ts:134-156 | an assistant object without an id finds no client; otherwise the `.single()` lookup by its id |
| CallsWebhook.FindClient | src/app/api/calls/webhook/route.ts:144-156 | `.single()`: a client is found only when exactly one owns the assistant id |
| CallsWebhook.UpsertUsage | src/app/api/calls/webhook/route.ts:195-230 | a failed write leaves the usage rows unchanged |
| CallsWebhook.UpsertUsageCounts | src/app/api/calls/webhook/route.ts:195-230 | the upsert records exactly one more call and the call's minutes for (client, today), null read as 0, in both branches, and changes no other client's or day's row |
| CallsWebhook.UpsertCreatesSingleRow | src/app/api/calls/webhook/route.ts:218-229 | with no row for today, one new row (1 call, the minutes, 0 emails) is appended |
| CallsWebhook.AddMinutes | src/app/api/calls/webhook/route.ts:232-250 | the client's running total grows by the call's minutes, null read as 0, and no other client changes |
| CallsWebhook.MalformedPayloadWritesNothing | src/app/api/calls/webhook/route.ts:121-126 | a payload without call or assistant gives 400 and writes nothing |
| CallsWebhook.LookupOrInsertFailureWritesNothing | src/app/api/calls/webhook/route.ts:134-189 | a failed lookup, an unknown or ambiguous assistant id, or an assistant without an id gives 404, and a failed call insert gives 500, with no table touched |
| CallsWebhook.StoredCallAccounting | src/app/api/calls/webhook/route.ts:160-280 | one call row is appended with the parsed urgency; minutes and usage grow by the rounded-up minutes unless that write failed; the response is success regardless |
| PricingPlans.PlanKeysAreIds | src/lib/utils/constants.ts:8-57 | exactly the keys launch, scale and dominate, each plan's id equal to its key |
| PricingPlans.ArrayListsTable | src/lib/utils/constants.ts:59 | the array lists exactly the table's three plans |
| PricingPlans.PriceEqualsMonthly | src/lib/utils/constants.ts:8-57 | price equals priceMonthly for every plan |
| PricingPlans.TiersIncrease | src/lib/utils/constants.ts:8-57 | price and minutes strictly increase from launch to scale to dominate |
| PricingPlans.StripePriceIdsDistinct | src/lib/utils/constants.ts:8-57 | the Stripe price ids are pairwise distinct |
| PricingPlans.OnlyScaleFeatured | src/lib/utils/constants.ts:32 | exactly the scale plan is featured |
| UsageQueries.TodayRow | src/lib/queries/usage.ts:79-85 | `.single()`: today's row is read only when exactly one exists |
| UsageQueries.GetUsageStats | src/lib/queries/usage.ts:72-123 | today's counts from the single row for today, 0 when there is not exactly one; the month's totals folded over its rows, 0 when the month query fails; the percentage is of the month's minutes |
| UsageQueries.NullRowAddsNothing | src/lib/queries/usage.ts:108-114 | a month row with null counts adds nothing to either total |
| UsageQueries.PercentageUsed | src/lib/queries/usage.ts:121 | the nearest whole percentage for a positive limit; Infinity or NaN for a zero limit |
| UsageQueries.MonthTotalsAdditive | src/lib/queries/usage.ts:108-114 | the month's totals add over a split of the rows |
| UsageQueries.TodayWithinMonth | src/lib/queries/usage.ts:72-123 | today's counts never exceed the month's when today's row is among them |
| UsageQueries.DuplicateTodayRowsReadAsZero | src/lib/queries/usage.ts:79-85 | two rows for today make today read as 0 |
| UsageQueries.PercentageExamples | src/lib/queries/usage.ts:121 | 500 of 500 gives 100, 750 of 1500 gives 50, 1 of 3 gives 33 |
| CallQueries.GetCallsByClientId | src/lib/queries/calls.ts:4-23 | at most limit rows, all of the client, newest first, [] on error |
| CallQueries.CallsByClientAreNewest | src/lib/queries/calls.ts:4-23 | the rows returned are drawn from the client's calls, number `limit` (all of them when fewer), and none left out is newer than one returned |
| CallQueries.GetCallStats | src/lib/queries/calls.ts:25-48 | the count of rows, total minutes rounded to the nearest minute, the mean rounded to a tenth, 0 with no calls; all 0 on error |
| CallQueries.CallStatsExample | src/lib/queries/calls.ts:39-46 | one 90 s call gives 1 call, 2 minutes and an average of 1.5 |
| CallQueries.NullDurationsCountAsZero | src/lib/queries/calls.ts:39 | a call without a duration adds a call and no seconds |
| AdminQueries.GetAllClientsAdmin | src/lib/queries/admin.ts:4-19 | at most limit rows, newest first, [] on error |
| AdminQueries.PagesAreConsecutive | src/lib/queries/admin.ts:11 | two consecutive pages are one page of twice the size: the inclusive range neither skips nor repeats |
| AdminQueries.FirstPageHoldsAll | src/lib/queries/admin.ts:4-19 | a first page at least as large as the table holds every row |
| AdminQueries.GetClientStats | src/lib/queries/admin.ts:21-49 | all 0 on error; the total, the active count (at most the total), the MRR over active clients, the rounded average |
| AdminQueries.ActiveMeansStatusActive | src/lib/queries/admin.ts:39 | a client counts as active iff its status is exactly "active" |
| AdminQueries.InactiveAddsNothing | src/lib/queries/admin.ts:39-40 | a client that is not active changes neither the MRR nor the active count |
| AdminQueries.ActiveAddsFee | src/lib/queries/admin.ts:40 | an active client adds its fee, null counted as 0 |
| AdminQueries.AveragePlanValue | src/lib/queries/admin.ts:41-47 | with clients but none active the average is NaN; otherwise it is the MRR per active client, rounded |
| AdminQueries.AvgPlanValueGuarded | src/lib/queries/admin.ts:41-47 | the guarded average is always a whole number of cents, 0 with none active |
| AdminQueries.AvgPlanValueGuardedBetweenFees | src/lib/queries/admin.ts:41-47 | the guarded average lies between the smallest and largest active fee |
| LeadQueries.Select | src/lib/queries/leads.ts:17-19 | a present non-empty status keeps exactly the leads with that status, in order; otherwise every lead |
| LeadQueries.GetLeads | src/lib/queries/leads.ts:4-29 | at most limit rows, newest first, all of the requested status when one is given, [] on error |
| LeadQueries.FullPageHoldsSelection | src/lib/queries/leads.ts:4-29 | a page from 0 as large as the table holds exactly the selected leads, each once: every lead of the requested status appears |
| LeadQueries.EmptyStatusIsNoFilter | src/lib/queries/leads.ts:17-19 | an empty status is the same as none, and an unfiltered page as large as the table holds every lead |
| LeadQueries.GetLeadStats | src/lib/queries/leads.ts:31-61 | all 0 on error; the total is the number of rows, and each of the five counts is the number of rows with exactly that status |
| LeadQueries.CountIsExactMatch | src/lib/queries/leads.ts:53-57 | a status's count is its multiplicity among the rows; a "new" row leaves every other count unchanged |
| LeadQueries.CountsCoverTotal | src/lib/queries/leads.ts:51-58 | the five counts add up to at most the total, and to the total iff every status is one of the five |
| Middleware.Guard | src/middleware.ts:10-28 | a redirect to login iff the path has a protected prefix and the cookie is missing or empty |
| Middleware.MatchedIsProtected | src/middleware.ts:14-32 | every path the matcher sends to the guard has a protected prefix |
| Middleware.MatchedPathNeedsCookie | src/middleware.ts:16-27 | on a matched path, any non-empty cookie passes and a missing or empty one redirects |
| Middleware.AdministratorIsGuardedButNotMatched | src/middleware.ts:14-32 | the raw prefix test protects /administrator, but the matcher never routes it there |
| Middleware.UnprotectedPasses | src/middleware.ts:27 | a path outside both areas always passes |
| AuthServer.IsAdmin | src/lib/auth/server.ts:18-37 | admin iff a row came back and its flag is exactly true |
| AuthServer.GetUserIdFromHeaders | src/lib/auth/server.ts:39-50 | null iff the header is missing or empty; a header without "Bearer " is returned unchanged; otherwise the first occurrence, wherever it stands, is cut out and the text before and after it is kept |
| AuthServer.BearerRoundTrip | src/lib/auth/server.ts:48 | "Bearer " + token gives back the token |
| AuthServer.InnerBearerRemoved | src/lib/auth/server.ts:48 | the prefix is removed wherever it first occurs, not only at the start |
| RelativeTime.Classify | src/app/dashboard/calls/page.tsx:71-80 | just now below a minute, whole minutes below an hour, whole hours below a day, the date from a day on, with floor division |
| RelativeTime.ClassifyMonotone | src/app/admin/audit/page.tsx:114-123 | the label never gets finer as the age grows |
| RelativeTime.MinutesTextReadsBack | src/app/dashboard/calls/page.tsx:77 | the "m ago" text carries exactly the minute count |
| RelativeTime.FormatTimeExamples | src/app/dashboard/calls/page.tsx:71-80 | of FormatTime: 0 to 59999 ms is "Just now"; 90 s is 1 minute; an hour is 1 hour; a day shows the date |
| DashboardCallsPage.FilteredCalls | src/app/dashboard/calls/page.tsx:61-63 | an empty filter returns all calls; otherwise exactly the calls with that urgency |
| DashboardCallsPage.FilteredCallsKeepOrder | src/app/dashboard/calls/page.tsx:61-63 | the filtered list keeps the original order |
| DashboardCallsPage.ClockTextShape | src/app/dashboard/calls/page.tsx:66-68 | for seconds below 60 the text is the minutes' digits, a colon and two digits denoting the seconds |
| DashboardCallsPage.ClockTextRoundTrip | src/app/dashboard/calls/page.tsx:66-68 | for seconds below 60, reading M:SS back as 60M+SS gives the minutes and seconds it was made of |
| DashboardCallsPage.FormatDurationShape | src/app/dashboard/calls/page.tsx:65-69 | of FormatDuration: the text is the whole minutes, a colon and two digits denoting 00..59 |
| DashboardCallsPage.FormatDurationRoundTrip | src/app/dashboard/calls/page.tsx:65-69 | of FormatDuration: reading the text back as 60M+SS recovers the duration in seconds |
| DashboardCallsPage.PaddedSeconds | src/app/dashboard/calls/page.tsx:68 | a padded number below 60 is exactly two digits denoting it |
| DashboardCallsPage.AnHourIsSixtyMinutes | src/app/dashboard/calls/page.tsx:66 | minutes are not capped at an hour: sixty minutes and no seconds (3600 s) read "60:00" |
| DashboardCallsPage.ShortSecondsArePadded | src/app/dashboard/calls/page.tsx:68 | seconds below ten get a leading zero: one minute and five seconds (65 s) read "1:05" |
| DashboardCallsPage.UrgencyColor | src/app/dashboard/calls/page.tsx:82-95 | red iff critical, orange iff high, yellow iff medium, green iff low; grey iff none of these |
| DashboardCallsPage.UrgentCallsUnstyled | src/app/dashboard/calls/page.tsx:82-95 | the stored value "urgent" gets grey, and the "critical" filter matches no stored call |
| DashboardCallsPage.UrgencyVocabulariesDisagree | src/lib/utils/constants.ts:80 | the page colours exactly the names in `CALL_URGENCY`; the webhook writes each of those except "critical", and writes "urgent" instead |
| DashboardCallsPage.UrgencyBadge | src/app/dashboard/calls/page.tsx:82-95 | the badge keyed on the stored urgency is never grey |
| DashboardCallsPage.UrgencyBadgeDistinct | src/app/dashboard/calls/page.tsx:82-95 | each stored urgency gets its own colour, red exactly for urgent, and agrees with the page for the other three |
| AdminClientsPage.FilteredClients | src/app/admin/clients/page.tsx:99-103 | exactly the clients passing both filters (empty means any), in order |
| AdminClientsPage.FilteredClientsLaws | src/app/admin/clients/page.tsx:99-103 | with no filters the whole list is shown; filtering is idempotent |
| AdminClientsPage.PlanFilterNarrows | src/app/admin/clients/page.tsx:99-103 | the plan filter only removes rows from the status-filtered list |
| AdminClientsPage.StatusColor | src/app/admin/clients/page.tsx:105-118 | green iff active, blue iff trial, yellow iff paused, red iff cancelled; grey iff none of the four |
| AdminClientsPage.PlanColor | src/app/admin/clients/page.tsx:120-131 | grey iff the plan is none of starter, professional, enterprise |
| AdminClientsPage.PlanColorOfStoredPlans | src/app/admin/clients/page.tsx:120-131 | the webhook's plan names get distinct colours; the plan table's keys all come out grey |
| AdminClientsPage.AvgClientValueMixesPopulations | src/app/admin/clients/page.tsx:133-163 | of AvgClientValue (the rounded revenue over the active count): an active $499 client and a trial $249 one average to $748; trials alone average to Infinity |
| AdminClientsPage.AvgBilledValue | src/app/admin/clients/page.tsx:133-163 | the average over the billed clients is always a whole number, 0 when none is billed |
| AdminClientsPage.AvgBilledValueBetweenFees | src/app/admin/clients/page.tsx:133-163 | the average over billed clients lies between the smallest and largest billed fee |
| AdminClientsPage.AvgBilledValueExample | src/app/admin/clients/page.tsx:163 | $499 and $249 average to $374 |
| AdminClientsPage.UsagePercent | src/app/admin/clients/page.tsx:214 | the exact ratio of used to allowed minutes, times 100, for a positive limit |
| AdminClientsPage.UsageBandThresholds | src/app/admin/clients/page.tsx:237-238 | of UsageBand and BarWidth: red iff above 90%, yellow iff above 75% up to 90%, green iff at most 75%; the bar is at most 100% wide |
| AdminClientsPage.ZeroLimit | src/app/admin/clients/page.tsx:214-241 | of UsageBand, BarWidth and UsageLabel with a zero limit: a full red bar labelled Infinity, or with no minutes used a NaN bar shown green |
| AdminClientsPage.UsageBandMonotone | src/app/admin/clients/page.tsx:237 | more minutes never move the bar to a calmer colour |
| AdminAuditPage.FilteredEntries | src/app/admin/audit/page.tsx:107-112 | exactly the entries passing the action and result filters, in order |
| AdminAuditPage.UnknownResultFilterIgnored | src/app/admin/audit/page.tsx:109-110 | a result filter other than success or failed constrains nothing |
| AdminAuditPage.Actions | src/app/admin/audit/page.tsx:134 | the options are duplicate-free and are exactly the actions occurring in the entries |
| AdminAuditPage.EveryActionOptionMatches | src/app/admin/audit/page.tsx:134-155 | every non-empty action offered selects at least one entry |
| AdminAuditPage.Spaced | src/app/admin/audit/page.tsx:216 | same length; every underscore becomes a space and every other character stays |
| AdminAuditPage.OptionLabel | src/app/admin/audit/page.tsx:153 | each character is the action's character, an underscore read as a space, in capitals; so no underscore and no lower-case letter remain |
| AdminAuditPage.OptionLabelsCanCollide | src/app/admin/audit/page.tsx:153 | different actions can get the same option text |
| AdminAuditPage.ActionColor | src/app/admin/audit/page.tsx:125-132 | the colour of the first of created, updated, deleted, failed, paused the action contains (green, blue, red, red, yellow), each as an iff; grey iff none |
| AdminAuditPage.ActionColorFirstWordWins | src/app/admin/audit/page.tsx:126 | any action containing "created" is green, a failed creation included |
| AdminAuditPage.CountsPartitionTotal | src/app/admin/audit/page.tsx:177-185 | the successful and failed counts add up to the total shown |
| AdminAuditPage.SuccessRateBounds | src/app/admin/audit/page.tsx:190 | of SuccessRate: NaN with nothing shown; otherwise a whole percentage 0..100, 100 with no failure and 0 with no success |
| AdminLeadsPage.FilteredLeads | src/app/admin/leads/page.tsx:99-103 | exactly the leads passing both filters (empty means any), in order |
| AdminLeadsPage.NoFilterListsAll | src/app/admin/leads/page.tsx:99-103 | with no filter every lead is listed |
| AdminLeadsPage.Classify | src/app/admin/leads/page.tsx:105-109 | the 85 and 70 cut-offs partition all scores |
| AdminLeadsPage.ScoreViewsAgree | src/app/admin/leads/page.tsx:105-109 | the badge, the detail colour (line 270) and the research summary (lines 293-297) each name the same class for every score |
| AdminLeadsPage.ClassifyMonotone | src/app/admin/leads/page.tsx:105-109 | a higher score never gets a worse class |
| AdminLeadsPage.StatusColor | src/app/admin/leads/page.tsx:111-124 | blue iff new, purple iff researched, orange iff contacted, green iff converted; grey iff none of these |
| AdminLeadsPage.RejectedIsUnknownToPage | src/app/admin/leads/page.tsx:111-127 | of the five stored statuses, exactly rejected is grey and missing from the options |
| AdminLeadsPage.RejectedNeverFiltered | src/app/admin/leads/page.tsx:99-127 | filtering on an offered status never shows a rejected lead |
| AdminLeadsPage.Industries | src/app/admin/leads/page.tsx:126 | the options are duplicate-free and are exactly the industries occurring in the leads |
| AdminLeadsPage.EveryIndustryOptionMatches | src/app/admin/leads/page.tsx:126 | every non-empty industry offered selects at least one lead |
| Seqs.TakeSortedIsTop | src/lib/queries/calls.ts:14-15 | the first n rows of the newest-first order are taken from the rows, and no row left out is newer than one kept |
| Seqs.DistinctFirstOccurrenceOrder | src/app/admin/leads/page.tsx:126 | `[...new Set(xs)]` lists values in the order of their first occurrence |

## Left out

- The Stripe signature check is a boolean on the event. The HMAC runs inside the Stripe library, which is not part of this model.
- `fetch`, the 10 s timeout and `setTimeout` are left out. Attempt results come from a list of outcomes, and the sleeps are a recorded list of delays.
- Every Supabase call is replaced by a map or sequence, or by query rows passed in. Failures are flags on the calls the handlers make.
- The ledger is a map keyed by the Stripe event id. A ledger insert for an id that is already recorded replaces its row; the table's constraints are not part of this model.
- CallsWebhook.LookupClient: an assistant object without an id finds no client. The filter text the query builder would send for an undefined id is not modelled.
- Default arguments are not modelled: `limit = 50` of `getCallsByClientId` and `limit = 100, offset = 0` of `getLeads`. Callers pass every argument.
- AdminQueries.PagesAreConsecutive holds over one fixed order. The database does not promise the same order of equal `created_at` values across two queries, so two real page queries can skip or repeat rows with equal timestamps.
- Concurrency is left out: two concurrent deliveries of one event can both pass the ledger check, and the model handles one request at a time.
- `Date.now`, `toISOString`, `toLocaleDateString` and `toLocaleString` become inputs: "today", "now" and the printed date. So does the calendar maths of the month query.
- Numbers are integers (seconds, minutes, cents, dollars) with exact division. The float effects are not modelled: `Math.floor` of a fractional duration, and float rounding at a boundary (such as `0.9 * 100` in the usage bar).
- CallsWebhook.ExtractCallerName: the name regex is an uninterpreted function `nameMatch`; only the priority order is modelled.
- Lower-casing and upper-casing cover ASCII letters only.
- Timestamps are integers, and sorting by `created_at` is a sort on that key. The model does not say which order equal timestamps keep.
- DashboardCallsPage.FormatDuration takes a natural number. Negative durations are not modelled.
- Usage lookups by date are not modelled: `getMonthlyUsage`, `getUsageByDateRange` and `getTodayUsage` in `src/lib/queries/usage.ts`. They are date-window selects that return rows as stored.
- Other list queries are not modelled: `getRecentCalls` and `searchCalls` in `src/lib/queries/calls.ts`, `searchClientsAdmin` in `src/lib/queries/admin.ts`, and `searchLeads` in `src/lib/queries/leads.ts`. They are select, order and limit wrappers, and their matching runs in the database.
- The audit log queries `getAuditLogs` and `getAuditLogsByResource` in `src/lib/queries/admin.ts` are not modelled, for the same reason.
- `getAuthenticatedUser`, the client lookups of `src/lib/queries/clients.ts` and the API routes that only dispatch to these queries are not modelled.
- The rendering-only pages, charts and mock data are not modelled.
- The signup page looks up `PRICING_PLANS['professional']`, a key the table does not have. That page is not part of this model.
- `INDUSTRIES` and `SERVICE_NEEDS` (src/lib/utils/constants.ts:61-78) are option lists. Of the files modelled here none reads them (`INDUSTRIES` feeds the signup form), so neither is part of this model.
- Write errors the call webhook only logs are modelled as flags. They change the tables, never the response.

## Findings

| source | as written | input that shows it | evidently intended | confidence | as-written member | corrected member |
|---|---|---|---|---|---|---|
| src/lib/queries/admin.ts:41 | the average divides the MRR by the number of active clients whenever any client exists | clients present, none with status active: 0 / 0 is NaN | 0 when no client is active, otherwise an average between the smallest and largest active fee | high, not executed | AdminQueries.AveragePlanValue | AdminQueries.AvgPlanValueGuarded |
| src/app/admin/clients/page.tsx:163 | the revenue of active and trial clients is divided by the number of active clients only | one active $499 client and one trial $249 client give $748; trial clients alone give Infinity | the revenue per billed client, between the smallest and largest billed fee | high, not executed | AdminClientsPage.AvgClientValueMixesPopulations | AdminClientsPage.AvgBilledValue |
| src/app/dashboard/calls/page.tsx:82-95 | the badge and filter know `critical`, but the call webhook stores `urgent` | a call stored with urgency "urgent" gets the grey default badge, and the Critical filter shows none | a colour for every stored urgency, the most urgent in red | medium (the page still shows mock data), not executed | DashboardCallsPage.UrgentCallsUnstyled | DashboardCallsPage.UrgencyBadge |
