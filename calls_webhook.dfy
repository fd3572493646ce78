/**
 * The call-completion webhook (`src/app/api/calls/webhook/route.ts`): the
 * voice platform posts a finished call; the handler classifies the call
 * summary, finds the client that owns the assistant, stores the call, adds
 * the call to the client's usage row for today, and adds the call's
 * rounded-up minutes to the client's running total.
 */
module CallsWebhook {
  import opened Options
  import opened Strings
  import opened Seqs

  // ------------------------------------------------- keyword classifiers

  /** A rule of a first-match classifier: any keyword selects the label. */
  datatype Rule<L> = Rule(keywords: seq<string>, outcome: L)

  /** Some keyword of the list occurs in `text`. */
  predicate AnyContained(text: string, words: seq<string>)
    decreases |words|
  {
    |words| > 0 && (Contains(text, words[0]) || AnyContained(text, words[1..]))
  }

  /** The index of the first rule with a keyword in `text`, or `|rules|` when none has one. */
  function FirstMatchIndex<L>(text: string, rules: seq<Rule<L>>): (k: nat)
    ensures k <= |rules|
    ensures k < |rules| ==> AnyContained(text, rules[k].keywords)
    ensures forall j :: 0 <= j < k ==> !AnyContained(text, rules[j].keywords)
    decreases |rules|
  {
    if rules == [] then 0
    else if AnyContained(text, rules[0].keywords) then 0
    else 1 + FirstMatchIndex(text, rules[1..])
  }

  /** The label of the first matching rule, else `fallback`: the reference for the if-ladders. */
  function FirstRule<L>(text: string, rules: seq<Rule<L>>, fallback: L): L {
    var k := FirstMatchIndex(text, rules);
    if k < |rules| then rules[k].outcome else fallback
  }

  /** A keyword present in a text stays present when text is added around it. */
  lemma {:induction false} AnyContainedExtend(text: string, words: seq<string>, before: string, after: string)
    requires AnyContained(text, words)
    ensures AnyContained(before + text + after, words)
    decreases |words|
  {
    if Contains(text, words[0]) {
      ContainsExtend(text, words[0], before, after);
    } else {
      AnyContainedExtend(text, words[1..], before, after);
    }
  }

  /** Adding text can only move the first matching rule earlier. */
  lemma {:induction false} FirstMatchExtend<L>(text: string, rules: seq<Rule<L>>, before: string, after: string)
    ensures FirstMatchIndex(before + text + after, rules) <= FirstMatchIndex(text, rules)
    decreases |rules|
  {
    if rules != [] {
      if AnyContained(text, rules[0].keywords) {
        AnyContainedExtend(text, rules[0].keywords, before, after);
      } else {
        FirstMatchExtend(text, rules[1..], before, after);
      }
    }
  }

  // -------------------------------------------------------- parseUrgency

  /** The urgency values this webhook writes: 'urgent', where the shared list says 'critical'. */
  datatype Urgency = Low | Medium | High | Urgent

  function UrgencyName(u: Urgency): string {
    match u
    case Low => "low"
    case Medium => "medium"
    case High => "high"
    case Urgent => "urgent"
  }

  function Rank(u: Urgency): nat {
    match u
    case Low => 0
    case Medium => 1
    case High => 2
    case Urgent => 3
  }

  const UrgencyRules: seq<Rule<Urgency>> := [
    Rule(["emergency", "urgent", "critical", "immediately"], Urgent),
    Rule(["important", "high priority", "asap"], High),
    Rule(["medium", "soon", "this week"], Medium)
  ]

  /** `parseUrgency`: three keyword groups over the lower-cased summary, most urgent first. */
  function ParseUrgency(summary: string): (u: Urgency)
    ensures u == FirstRule(ToLower(summary), UrgencyRules, Low)
  {
    var lower := ToLower(summary);
    if Contains(lower, "emergency") || Contains(lower, "urgent") ||
       Contains(lower, "critical") || Contains(lower, "immediately") then Urgent
    else if Contains(lower, "important") || Contains(lower, "high priority") || Contains(lower, "asap") then High
    else if Contains(lower, "medium") || Contains(lower, "soon") || Contains(lower, "this week") then Medium
    else Low
  }

  /** The rank of the urgency a rule list index gives: earlier rules are more urgent. */
  lemma UrgencyRankByIndex(text: string)
    ensures Rank(FirstRule(text, UrgencyRules, Low)) == 3 - FirstMatchIndex(text, UrgencyRules)
  {
  }

  /** Case does not matter: a summary and its lower-cased form get the same urgency. */
  lemma ParseUrgencyIgnoresCase(summary: string)
    ensures ParseUrgency(ToLower(summary)) == ParseUrgency(summary)
  {
    ToLowerIdempotent(summary);
  }

  /** Adding text to a summary never lowers its urgency. */
  lemma {:induction false} ParseUrgencyMonotone(summary: string, before: string, after: string)
    ensures Rank(ParseUrgency(before + summary + after)) >= Rank(ParseUrgency(summary))
  {
    ToLowerConcat(before + summary, after);
    ToLowerConcat(before, summary);
    FirstMatchExtend(ToLower(summary), UrgencyRules, ToLower(before), ToLower(after));
    UrgencyRankByIndex(ToLower(summary));
    UrgencyRankByIndex(ToLower(before + summary + after));
  }

  // ------------------------------------------------ extractServiceNeeded

  /** `extractedData?.[key]` when it is a non-empty string. */
  function Field(extracted: Option<map<string, string>>, key: string): (r: Option<string>)
    ensures r.Some? <==> extracted.Some? && key in extracted.value && extracted.value[key] != ""
    ensures r.Some? ==> r.value == extracted.value[key]
  {
    if extracted.Some? && key in extracted.value && extracted.value[key] != "" then Some(extracted.value[key]) else None
  }

  const ServiceRules: seq<Rule<string>> := [
    Rule(["plumb"], "Plumbing Service"),
    Rule(["hvac", "heating"], "HVAC Service"),
    Rule(["electric"], "Electrical Service"),
    Rule(["appointment"], "Appointment Scheduling"),
    Rule(["quote", "estimate"], "Quote Request"),
    Rule(["emergency"], "Emergency Service"),
    Rule(["maintenance"], "Maintenance Service"),
    Rule(["repair"], "Repair Service"),
    Rule(["inspection"], "Inspection Service")
  ]

  const DefaultService := "Service Inquiry"

  /** The keyword ladder of `extractServiceNeeded` over the lower-cased summary. */
  function ServiceFromSummary(summary: string): string {
    var lower := ToLower(summary);
    if Contains(lower, "plumb") then "Plumbing Service"
    else if Contains(lower, "hvac") || Contains(lower, "heating") then "HVAC Service"
    else if Contains(lower, "electric") then "Electrical Service"
    else if Contains(lower, "appointment") then "Appointment Scheduling"
    else if Contains(lower, "quote") || Contains(lower, "estimate") then "Quote Request"
    else if Contains(lower, "emergency") then "Emergency Service"
    else if Contains(lower, "maintenance") then "Maintenance Service"
    else if Contains(lower, "repair") then "Repair Service"
    else if Contains(lower, "inspection") then "Inspection Service"
    else DefaultService
  }

  /** One step of the first-match search. */
  lemma FirstRuleStep<L>(text: string, rules: seq<Rule<L>>, fallback: L)
    requires rules != []
    ensures FirstRule(text, rules, fallback) ==
      if AnyContained(text, rules[0].keywords) then rules[0].outcome else FirstRule(text, rules[1..], fallback)
  {
  }

  lemma AnyContainedOne(text: string, a: string)
    ensures AnyContained(text, [a]) == Contains(text, a)
  {
    assert [a][1..] == [];
  }

  lemma AnyContainedTwo(text: string, a: string, b: string)
    ensures AnyContained(text, [a, b]) == (Contains(text, a) || Contains(text, b))
  {
    assert [a, b][1..] == [b];
    AnyContainedOne(text, b);
  }

  /** One step of the first-match search down the service table. */
  lemma ServiceStep(t: string, i: nat)
    requires i < |ServiceRules|
    ensures FirstRule(t, ServiceRules[i..], DefaultService) ==
      if AnyContained(t, ServiceRules[i].keywords) then ServiceRules[i].outcome
      else FirstRule(t, ServiceRules[i + 1..], DefaultService)
  {
    FirstRuleStep(t, ServiceRules[i..], DefaultService);
    assert ServiceRules[i..][1..] == ServiceRules[i + 1..];
  }

  /** The first three rules of the table: plumbing, HVAC, electrical. */
  lemma {:induction false} ServiceRulesFrom0(t: string)
    ensures FirstRule(t, ServiceRules, DefaultService) ==
      if Contains(t, "plumb") then "Plumbing Service"
      else if Contains(t, "hvac") || Contains(t, "heating") then "HVAC Service"
      else if Contains(t, "electric") then "Electrical Service"
      else FirstRule(t, ServiceRules[3..], DefaultService)
  {
    assert ServiceRules[0..] == ServiceRules;
    ServiceStep(t, 0);
    AnyContainedOne(t, "plumb");
    ServiceStep(t, 1);
    AnyContainedTwo(t, "hvac", "heating");
    ServiceStep(t, 2);
    AnyContainedOne(t, "electric");
  }

  /** Rules four and five: appointments and quotes. */
  lemma {:induction false} ServiceRulesFrom3(t: string)
    ensures FirstRule(t, ServiceRules[3..], DefaultService) ==
      if Contains(t, "appointment") then "Appointment Scheduling"
      else if Contains(t, "quote") || Contains(t, "estimate") then "Quote Request"
      else FirstRule(t, ServiceRules[5..], DefaultService)
  {
    ServiceStep(t, 3);
    AnyContainedOne(t, "appointment");
    ServiceStep(t, 4);
    AnyContainedTwo(t, "quote", "estimate");
  }

  /** Rules six and seven: emergencies and maintenance. */
  lemma {:induction false} ServiceRulesFrom5(t: string)
    ensures FirstRule(t, ServiceRules[5..], DefaultService) ==
      if Contains(t, "emergency") then "Emergency Service"
      else if Contains(t, "maintenance") then "Maintenance Service"
      else FirstRule(t, ServiceRules[7..], DefaultService)
  {
    ServiceStep(t, 5);
    AnyContainedOne(t, "emergency");
    ServiceStep(t, 6);
    AnyContainedOne(t, "maintenance");
  }

  /** The last two rules, repairs and inspections, then the fallback. */
  lemma {:induction false} ServiceRulesFrom7(t: string)
    ensures FirstRule(t, ServiceRules[7..], DefaultService) ==
      if Contains(t, "repair") then "Repair Service"
      else if Contains(t, "inspection") then "Inspection Service"
      else DefaultService
  {
    ServiceStep(t, 7);
    AnyContainedOne(t, "repair");
    ServiceStep(t, 8);
    AnyContainedOne(t, "inspection");
    assert ServiceRules[9..] == [];
  }

  /** The if-ladder is the first-match search over the rule table, rule by rule. */
  lemma {:induction false} ServiceLadderIsFirstRule(summary: string)
    ensures ServiceFromSummary(summary) == FirstRule(ToLower(summary), ServiceRules, DefaultService)
  {
    var t := ToLower(summary);
    ServiceRulesFrom0(t);
    ServiceRulesFrom3(t);
    ServiceRulesFrom5(t);
    ServiceRulesFrom7(t);
  }

  /** `extractServiceNeeded`: `serviceType`, then `service`, then the summary's keywords. */
  function ExtractServiceNeeded(summary: string, extracted: Option<map<string, string>>): (r: string)
    ensures Field(extracted, "serviceType").Some? ==> r == extracted.value["serviceType"]
    ensures Field(extracted, "serviceType").None? && Field(extracted, "service").Some? ==>
      r == extracted.value["service"]
    ensures Field(extracted, "serviceType").None? && Field(extracted, "service").None? ==>
      r == FirstRule(ToLower(summary), ServiceRules, DefaultService)
  {
    ServiceLadderIsFirstRule(summary);
    match Field(extracted, "serviceType")
    case Some(t) => t
    case None =>
      match Field(extracted, "service")
      case Some(t) => t
      case None => ServiceFromSummary(summary)
  }

  /** Plumbing wins over every later keyword, emergency included. */
  lemma PlumbingFirst(summary: string)
    requires Contains(ToLower(summary), "plumb")
    ensures ExtractServiceNeeded(summary, None) == "Plumbing Service"
  {
  }

  /** Without usable extracted data the result is always one of the ten fixed labels. */
  lemma ServiceLabelsFixed(summary: string)
    ensures ExtractServiceNeeded(summary, None) == DefaultService ||
      exists k :: 0 <= k < |ServiceRules| && ExtractServiceNeeded(summary, None) == ServiceRules[k].outcome
  {
    var k := FirstMatchIndex(ToLower(summary), ServiceRules);
    if k < |ServiceRules| {
      assert ExtractServiceNeeded(summary, None) == ServiceRules[k].outcome;
    }
  }

  // --------------------------------------------------- extractCallerName

  /**
   * `extractCallerName`: `callerName`, then `name`, then the word the
   * summary pattern captures (`nameMatch`, which the model does not
   * interpret), else null.
   */
  function ExtractCallerName(summary: string, extracted: Option<map<string, string>>,
                             nameMatch: string -> Option<string>): (r: Option<string>)
    ensures Field(extracted, "callerName").Some? ==> r == Field(extracted, "callerName")
    ensures Field(extracted, "callerName").None? && Field(extracted, "name").Some? ==> r == Field(extracted, "name")
    ensures Field(extracted, "callerName").None? && Field(extracted, "name").None? ==> r == nameMatch(summary)
    ensures r.None? <==>
      Field(extracted, "callerName").None? && Field(extracted, "name").None? && nameMatch(summary).None?
  {
    if Field(extracted, "callerName").Some? then Field(extracted, "callerName")
    else if Field(extracted, "name").Some? then Field(extracted, "name")
    else nameMatch(summary)
  }

  // ------------------------------------------------------------- minutes

  /** `Math.ceil(durationSeconds / 60)`. */
  function CallMinutes(durationSeconds: int): (m: int)
    ensures 60 * m - 60 < durationSeconds <= 60 * m
  {
    (durationSeconds + 59) / 60
  }

  /** The bounds above single out one integer: CallMinutes is the ceiling. */
  lemma CallMinutesIsCeiling(d: int, m: int)
    requires 60 * m - 60 < d <= 60 * m
    ensures m == CallMinutes(d)
  {
    var c := CallMinutes(d);
    assert 60 * (m - c) < 60 && 60 * (c - m) < 60;
  }

  lemma CallMinutesExamples()
    ensures CallMinutes(0) == 0 && CallMinutes(1) == 1 && CallMinutes(60) == 1 && CallMinutes(61) == 2
  {
  }

  // ---------------------------------------------------------- the tables

  datatype ClientAccount = ClientAccount(vapiAssistantId: Option<string>, callMinutesUsed: Option<int>)

  datatype CallRecord = CallRecord(
    clientId: nat,
    callerName: Option<string>,
    callerPhone: string,
    serviceNeeded: string,
    urgency: Urgency,
    durationSeconds: int,
    transcript: Option<string>,
    createdAt: string,
    vapiCallId: string,
    vapiAssistantId: string,
    extractedData: Option<map<string, string>>)

  /** A `usage_tracking` row; `calls_count` and `call_minutes` may be null. */
  datatype UsageRow = UsageRow(clientId: nat, date: string, callsCount: Option<int>, callMinutes: Option<int>, emailsSent: int)

  datatype AuditEntry = AuditEntry(resourceId: string, callerPhone: string, serviceNeeded: string, duration: int, urgency: Urgency)

  /** The four tables, each row's id being its position. */
  datatype StoreState = StoreState(
    clients: seq<ClientAccount>,
    calls: seq<CallRecord>,
    usage: seq<UsageRow>,
    audit: seq<AuditEntry>)

  // ------------------------------------------------------------- payload

  datatype Analysis = Analysis(summary: Option<string>, extractedData: Option<map<string, string>>)
  datatype CallData = CallData(id: string, phoneNumber: string, duration: Option<int>, analysis: Option<Analysis>)
  /** `body.assistant`: an object whose `id` may be missing. */
  datatype Assistant = Assistant(id: Option<string>)
  datatype Payload = Payload(call: Option<CallData>, assistant: Option<Assistant>)

  /** Database operations that can fail; the handler checks only the first two. */
  datatype CallFaults = CallFaults(
    clientLookupFails: bool,
    callInsertFails: bool,
    usageSelectFails: bool,
    usageWriteFails: bool,
    clientMinutesFails: bool,
    auditFails: bool)

  datatype CallResponse =
    | Success(callId: string, clientId: nat, durationSeconds: int, callMinutes: int)
    | Failure(status: nat, error: string)

  datatype Processed = Processed(response: CallResponse, after: StoreState)

  function OrZero(x: Option<int>): int {
    if x.Some? then x.value else 0
  }

  function Summary(call: CallData): string {
    if call.analysis.Some? then OrElse(call.analysis.value.summary, "") else ""
  }

  function Extracted(call: CallData): Option<map<string, string>> {
    if call.analysis.Some? then call.analysis.value.extractedData else None
  }

  function DurationSeconds(call: CallData): int {
    OrZero(call.duration)
  }

  /** `.eq('vapi_assistant_id', assistantId).single()`. */
  function FindClient(clients: seq<ClientAccount>, assistantId: string): (r: Option<nat>)
    ensures r.Some? ==> r.value < |clients| && clients[r.value].vapiAssistantId == Some(assistantId)
    ensures r.Some? ==> forall j :: 0 <= j < |clients| && clients[j].vapiAssistantId == Some(assistantId) ==> j == r.value
  {
    Single(clients, (c: ClientAccount) => c.vapiAssistantId == Some(assistantId))
  }

  /**
   * The client lookup by the assistant's id. An assistant object without an
   * id passes the structure check, and the lookup then finds no client.
   */
  function LookupClient(clients: seq<ClientAccount>, a: Assistant): (r: Option<nat>)
    ensures a.id.None? ==> r.None?
    ensures r.Some? ==> r.value < |clients| && clients[r.value].vapiAssistantId == a.id
    ensures a.id.Some? ==> r == FindClient(clients, a.id.value)
  {
    if a.id.None? then None else FindClient(clients, a.id.value)
  }

  function NewCallRecord(clientId: nat, call: CallData, assistantId: string, now: string,
                         nameMatch: string -> Option<string>): CallRecord {
    var summary := Summary(call);
    CallRecord(clientId, ExtractCallerName(summary, Extracted(call), nameMatch), call.phoneNumber,
               ExtractServiceNeeded(summary, Extracted(call)), ParseUrgency(summary),
               DurationSeconds(call), if summary == "" then None else Some(summary), now,
               call.id, assistantId, Extracted(call))
  }

  predicate IsToday(u: UsageRow, clientId: nat, today: string) {
    u.clientId == clientId && u.date == today
  }

  /** The calls recorded for (client, day), over all its usage rows. */
  function CallsOn(usage: seq<UsageRow>, clientId: nat, today: string): int {
    Sum(usage, (u: UsageRow) => if IsToday(u, clientId, today) then OrZero(u.callsCount) else 0)
  }

  /** The minutes recorded for (client, day), over all its usage rows. */
  function MinutesOn(usage: seq<UsageRow>, clientId: nat, today: string): int {
    Sum(usage, (u: UsageRow) => if IsToday(u, clientId, today) then OrZero(u.callMinutes) else 0)
  }

  /**
   * The usage upsert: when exactly one row for (client, today) is found it
   * is incremented, otherwise a fresh row is inserted.
   */
  function UpsertUsage(usage: seq<UsageRow>, clientId: nat, today: string, minutes: int,
                       selectFails: bool, writeFails: bool): (r: seq<UsageRow>)
    ensures writeFails ==> r == usage
  {
    var found := if selectFails then None else Single(usage, (u: UsageRow) => IsToday(u, clientId, today));
    if writeFails then usage
    else if found.Some? then
      var row := usage[found.value];
      usage[found.value := row.(callsCount := Some(OrZero(row.callsCount) + 1),
                                callMinutes := Some(OrZero(row.callMinutes) + minutes))]
    else usage + [UsageRow(clientId, today, Some(1), Some(minutes), 0)]
  }

  /** `call_minutes_used = (call_minutes_used || 0) + callMinutes` on the client's row. */
  function AddMinutes(clients: seq<ClientAccount>, id: nat, minutes: int, fails: bool): (r: seq<ClientAccount>)
    requires id < |clients|
    ensures |r| == |clients|
    ensures fails ==> r == clients
    ensures !fails ==> OrZero(r[id].callMinutesUsed) == OrZero(clients[id].callMinutesUsed) + minutes
    ensures r[id].vapiAssistantId == clients[id].vapiAssistantId
    ensures forall j :: 0 <= j < |r| && j != id ==> r[j] == clients[j]
  {
    if fails then clients
    else clients[id := clients[id].(callMinutesUsed := Some(OrZero(clients[id].callMinutesUsed) + minutes))]
  }

  /** The whole `POST` handler; `None` is a body that is not valid JSON. */
  function Process(s: StoreState, body: Option<Payload>, faults: CallFaults, today: string, now: string,
                   nameMatch: string -> Option<string>): (p: Processed)
  {
    if body.None? then Processed(Failure(500, "Webhook processing failed"), s)
    else if body.value.call.None? || body.value.assistant.None? then
      Processed(Failure(400, "Invalid webhook payload structure"), s)
    else
      var call := body.value.call.value;
      var assistant := body.value.assistant.value;
      var found := if faults.clientLookupFails then None else LookupClient(s.clients, assistant);
      if found.None? then Processed(Failure(404, "Client not found for this assistant"), s)
      else if faults.callInsertFails then Processed(Failure(500, "Failed to insert call record"), s)
      else Processed(
        Success(call.id, found.value, DurationSeconds(call), CallMinutes(DurationSeconds(call))),
        Store(s, found.value, NewCallRecord(found.value, call, assistant.id.value, now, nameMatch),
              CallMinutes(DurationSeconds(call)), faults, today))
  }

  /** The tables after a call was inserted for client `id`. */
  function Store(s: StoreState, id: nat, record: CallRecord, minutes: int, faults: CallFaults,
                 today: string): StoreState
    requires id < |s.clients|
  {
    StoreState(
      AddMinutes(s.clients, id, minutes, faults.clientMinutesFails),
      s.calls + [record],
      UpsertUsage(s.usage, id, today, minutes, faults.usageSelectFails, faults.usageWriteFails),
      if faults.auditFails then s.audit
      else s.audit + [AuditEntry(record.vapiCallId, record.callerPhone, record.serviceNeeded, record.durationSeconds, record.urgency)])
  }

  // ---------------------------------------------- properties of Process

  /** A payload without `call` or `assistant` is answered 400 with no write. */
  lemma MalformedPayloadWritesNothing(s: StoreState, body: Payload, faults: CallFaults, today: string, now: string,
                                      nameMatch: string -> Option<string>)
    requires body.call.None? || body.assistant.None?
    ensures Process(s, Some(body), faults, today, now, nameMatch) ==
      Processed(Failure(400, "Invalid webhook payload structure"), s)
  {
  }

  /**
   * A failed lookup, an assistant id owned by no client or by several, or an
   * assistant object without an id is answered 404; a failed call insert is
   * answered 500. Neither touches any table.
   */
  lemma LookupOrInsertFailureWritesNothing(s: StoreState, body: Payload, faults: CallFaults, today: string,
                                           now: string, nameMatch: string -> Option<string>)
    requires body.call.Some? && body.assistant.Some?
    requires faults.callInsertFails || faults.clientLookupFails ||
      LookupClient(s.clients, body.assistant.value).None?
    ensures Process(s, Some(body), faults, today, now, nameMatch).after == s
    ensures Process(s, Some(body), faults, today, now, nameMatch).response.Failure?
    ensures faults.clientLookupFails || LookupClient(s.clients, body.assistant.value).None? ==>
      Process(s, Some(body), faults, today, now, nameMatch).response.status == 404
    ensures body.assistant.value.id.None? ==>
      Process(s, Some(body), faults, today, now, nameMatch) == Processed(Failure(404, "Client not found for this assistant"), s)
  {
  }

  /**
   * The upsert records exactly one more call and exactly `minutes` more
   * minutes for (client, today), whichever branch it takes, and changes no
   * row of another client or day.
   */
  lemma {:induction false} UpsertUsageCounts(usage: seq<UsageRow>, clientId: nat, today: string, minutes: int,
                                             selectFails: bool)
    ensures var r := UpsertUsage(usage, clientId, today, minutes, selectFails, false);
      && CallsOn(r, clientId, today) == CallsOn(usage, clientId, today) + 1
      && MinutesOn(r, clientId, today) == MinutesOn(usage, clientId, today) + minutes
      && |usage| <= |r| <= |usage| + 1
      && (forall k :: 0 <= k < |usage| && !IsToday(usage[k], clientId, today) ==> r[k] == usage[k])
      && (forall k :: |usage| <= k < |r| ==> r[k] == UsageRow(clientId, today, Some(1), Some(minutes), 0))
  {
    var r := UpsertUsage(usage, clientId, today, minutes, selectFails, false);
    var fc := (u: UsageRow) => if IsToday(u, clientId, today) then OrZero(u.callsCount) else 0;
    var fm := (u: UsageRow) => if IsToday(u, clientId, today) then OrZero(u.callMinutes) else 0;
    var found := if selectFails then None else Single(usage, (u: UsageRow) => IsToday(u, clientId, today));
    if found.Some? {
      var k := found.value;
      SumUpdate(usage, k, r[k], fc);
      SumUpdate(usage, k, r[k], fm);
    } else {
      var row := UsageRow(clientId, today, Some(1), Some(minutes), 0);
      SumConcat(usage, [row], fc);
      SumConcat(usage, [row], fm);
      assert Sum([row], fc) == fc(row) by { assert [row][..0] == []; }
      assert Sum([row], fm) == fm(row) by { assert [row][..0] == []; }
    }
  }

  /** With no prior row for (client, today) a successful upsert leaves exactly one, the new one. */
  lemma UpsertCreatesSingleRow(usage: seq<UsageRow>, clientId: nat, today: string, minutes: int, selectFails: bool)
    requires forall k :: 0 <= k < |usage| ==> !IsToday(usage[k], clientId, today)
    ensures var r := UpsertUsage(usage, clientId, today, minutes, selectFails, false);
      Single(r, (u: UsageRow) => IsToday(u, clientId, today)) == Some(|usage|)
  {
    var r := UpsertUsage(usage, clientId, today, minutes, selectFails, false);
    assert r == usage + [UsageRow(clientId, today, Some(1), Some(minutes), 0)];
    assert IsToday(r[|usage|], clientId, today);
  }

  /**
   * A stored call: one call row appended, the client's running total grows
   * by the rounded-up minutes (unless that write failed), today's usage
   * records one more call and those minutes (unless that write failed), and
   * the response is success whatever the later writes did.
   */
  lemma StoredCallAccounting(s: StoreState, body: Payload, faults: CallFaults, today: string, now: string,
                             nameMatch: string -> Option<string>)
    requires body.call.Some? && body.assistant.Some?
    requires !faults.clientLookupFails && !faults.callInsertFails
    requires LookupClient(s.clients, body.assistant.value).Some?
    ensures var p := Process(s, Some(body), faults, today, now, nameMatch);
      var id := LookupClient(s.clients, body.assistant.value).value;
      var minutes := CallMinutes(DurationSeconds(body.call.value));
      && p.response == Success(body.call.value.id, id, DurationSeconds(body.call.value), minutes)
      && |p.after.calls| == |s.calls| + 1 && p.after.calls[..|s.calls|] == s.calls
      && p.after.calls[|s.calls|].clientId == id
      && p.after.calls[|s.calls|].urgency == ParseUrgency(Summary(body.call.value))
      && |p.after.clients| == |s.clients|
      && (forall j :: 0 <= j < |s.clients| && j != id ==> p.after.clients[j] == s.clients[j])
      && (!faults.clientMinutesFails ==>
            OrZero(p.after.clients[id].callMinutesUsed) == OrZero(s.clients[id].callMinutesUsed) + minutes)
      && (!faults.usageWriteFails ==>
            CallsOn(p.after.usage, id, today) == CallsOn(s.usage, id, today) + 1 &&
            MinutesOn(p.after.usage, id, today) == MinutesOn(s.usage, id, today) + minutes)
  {
    var id := LookupClient(s.clients, body.assistant.value).value;
    var minutes := CallMinutes(DurationSeconds(body.call.value));
    if !faults.usageWriteFails {
      UpsertUsageCounts(s.usage, id, today, minutes, faults.usageSelectFails);
    }
  }

  // ------------------------------------------------ the imperative handler

  class CallStore {
    var clients: seq<ClientAccount>
    var calls: seq<CallRecord>
    var usage: seq<UsageRow>
    var audit: seq<AuditEntry>

    ghost function State(): StoreState
      reads this
    {
      StoreState(clients, calls, usage, audit)
    }

    constructor (initial: StoreState)
      ensures State() == initial
    {
      clients := initial.clients;
      calls := initial.calls;
      usage := initial.usage;
      audit := initial.audit;
    }

    /** `POST /api/calls/webhook`, one write after another. */
    method HandleCall(body: Option<Payload>, faults: CallFaults, today: string, now: string,
                      nameMatch: string -> Option<string>) returns (resp: CallResponse)
      modifies this
      ensures Processed(resp, State()) == Process(old(State()), body, faults, today, now, nameMatch)
    {
      if body.None? {
        return Failure(500, "Webhook processing failed");
      }
      if body.value.call.None? || body.value.assistant.None? {
        return Failure(400, "Invalid webhook payload structure");
      }
      var call := body.value.call.value;
      var assistant := body.value.assistant.value;
      var found := if faults.clientLookupFails then None else LookupClient(clients, assistant);
      if found.None? {
        return Failure(404, "Client not found for this assistant");
      }
      if faults.callInsertFails {
        return Failure(500, "Failed to insert call record");
      }
      StoreCall(found.value, NewCallRecord(found.value, call, assistant.id.value, now, nameMatch),
                CallMinutes(DurationSeconds(call)), faults, today);
      resp := Success(call.id, found.value, DurationSeconds(call), CallMinutes(DurationSeconds(call)));
    }

    /** The call insert, the usage upsert, the minutes update and the audit insert. */
    method StoreCall(id: nat, record: CallRecord, minutes: int, faults: CallFaults, today: string)
      requires id < |clients|
      modifies this
      ensures State() == Store(old(State()), id, record, minutes, faults, today)
    {
      calls := calls + [record];
      RecordUsage(id, today, minutes, faults.usageSelectFails, faults.usageWriteFails);
      if !faults.clientMinutesFails {
        clients := clients[id := clients[id].(callMinutesUsed := Some(OrZero(clients[id].callMinutesUsed) + minutes))];
      }
      if !faults.auditFails {
        audit := audit + [AuditEntry(record.vapiCallId, record.callerPhone, record.serviceNeeded, record.durationSeconds, record.urgency)];
      }
    }

    /** The usage select followed by an update of the one row found, or an insert. */
    method RecordUsage(clientId: nat, today: string, minutes: int, selectFails: bool, writeFails: bool)
      modifies this`usage
      ensures usage == UpsertUsage(old(usage), clientId, today, minutes, selectFails, writeFails)
    {
      var found := if selectFails then None else Single(usage, (u: UsageRow) => IsToday(u, clientId, today));
      if writeFails {
        return;
      }
      if found.Some? {
        var row := usage[found.value];
        usage := usage[found.value := row.(callsCount := Some(OrZero(row.callsCount) + 1),
                                           callMinutes := Some(OrZero(row.callMinutes) + minutes))];
      } else {
        usage := usage + [UsageRow(clientId, today, Some(1), Some(minutes), 0)];
      }
    }
  }
}
