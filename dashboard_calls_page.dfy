/**
 * The helpers of the client's call history page
 * (`src/app/dashboard/calls/page.tsx`): the urgency filter, the `M:SS`
 * duration text and the urgency badge colour. The relative time shown next
 * to each call is `RelativeTime.FormatTime`.
 */
module DashboardCallsPage {
  import opened Options
  import opened Strings
  import opened Seqs
  import CallsWebhook
  import PricingPlans

  /** A call as the page lists it; `urgency` is the stored text. */
  datatype CallItem = CallItem(id: nat, urgency: string, durationSeconds: nat)

  // ---------------------------------------------------------- the filter

  /** `filterUrgency ? calls.filter(c => c.urgency === filterUrgency) : calls`. */
  function FilteredCalls(calls: seq<CallItem>, filterUrgency: string): (r: seq<CallItem>)
    ensures filterUrgency == "" ==> r == calls
    ensures forall c :: c in r <==> c in calls && (filterUrgency == "" || c.urgency == filterUrgency)
  {
    if filterUrgency == "" then calls else Filter(calls, (c: CallItem) => c.urgency == filterUrgency)
  }

  /** The filtered list keeps the calls in their original order. */
  lemma FilteredCallsKeepOrder(calls: seq<CallItem>, filterUrgency: string)
    ensures IsSubsequence(FilteredCalls(calls, filterUrgency), calls)
  {
    if filterUrgency == "" {
      FilterKeepsAll(calls, (c: CallItem) => true);
      FilterIsSubsequence(calls, (c: CallItem) => true);
    } else {
      FilterIsSubsequence(calls, (c: CallItem) => c.urgency == filterUrgency);
    }
  }

  // ------------------------------------------------------ formatDuration

  /** The text for whole minutes and seconds: the minutes, a colon, the seconds padded to two digits. */
  function ClockText(minutes: nat, secs: nat): string {
    NatToString(minutes) + ":" + PadStart(NatToString(secs), 2, '0')
  }

  /** `${Math.floor(s / 60)}:${(s % 60).toString().padStart(2, '0')}`. */
  function FormatDuration(seconds: nat): string {
    ClockText(seconds / 60, seconds % 60)
  }

  /** Reads `M:SS` back as `M * 60 + SS`; anything else is not a duration text. */
  function ReadDuration(text: string): (r: Option<nat>)
  {
    if |text| >= 4 && text[|text| - 3] == ':' && AllDigits(text[..|text| - 3]) && AllDigits(text[|text| - 2..])
    then Some(ParseNat(text[..|text| - 3]) * 60 + ParseNat(text[|text| - 2..]))
    else None
  }

  /** A number below 60 padded to two characters: exactly two digits denoting it. */
  lemma {:induction false} PaddedSeconds(k: nat)
    requires k < 60
    ensures var p := PadStart(NatToString(k), 2, '0');
      |p| == 2 && AllDigits(p) && ParseNat(p) == k
  {
    var s := NatToString(k);
    var p := PadStart(s, 2, '0');
    if k >= 10 {
      assert NatToString(k) == NatToString(k / 10) + [DigitChar(k % 10)];
      assert |s| == 2;
    }
    var z := p[..|p| - |s|];
    assert p == z + s;
    ParseNatToString(k);
    ParseNatLeadingZeros(z, s);
  }

  /** Minutes, a colon and two seconds digits: the text splits back into those parts. */
  lemma JoinedParts(t: string, m: string, p: string)
    requires t == m + ":" + p
    requires |p| == 2
    ensures |t| >= 3 && t[|t| - 3] == ':' && t[..|t| - 3] == m && t[|t| - 2..] == p
  {
    assert t[..|t| - 3] == m;
    assert t[|t| - 2..] == p;
  }

  /** Minutes, a colon and two seconds digits read back as their total. */
  lemma ReadJoined(m: string, p: string, q: nat, k: nat)
    requires |m| >= 1 && AllDigits(m) && ParseNat(m) == q
    requires |p| == 2 && AllDigits(p) && ParseNat(p) == k
    ensures ReadDuration(m + ":" + p) == Some(q * 60 + k)
  {
    var t := m + ":" + p;
    assert t[..|t| - 3] == m;
    assert t[|t| - 2..] == p;
  }

  /** The text is the minutes, a colon, and two digits denoting the seconds. */
  lemma {:induction false} ClockTextShape(q: nat, k: nat)
    requires k < 60
    ensures var t := ClockText(q, k);
      && |t| >= 4 && t[|t| - 3] == ':'
      && t[..|t| - 3] == NatToString(q)
      && AllDigits(t[|t| - 2..]) && ParseNat(t[|t| - 2..]) == k
  {
    PaddedSeconds(k);
    JoinedParts(ClockText(q, k), NatToString(q), PadStart(NatToString(k), 2, '0'));
  }

  /** Below a minute of seconds, the text reads back as the minutes and seconds it was made of. */
  lemma {:induction false} ClockTextRoundTrip(q: nat, k: nat)
    requires k < 60
    ensures ReadDuration(ClockText(q, k)) == Some(q * 60 + k)
  {
    PaddedSeconds(k);
    ParseNatToString(q);
    ReadJoined(NatToString(q), PadStart(NatToString(k), 2, '0'), q, k);
  }

  /** The text is the whole minutes, a colon and two digits denoting 00..59. */
  lemma FormatDurationShape(seconds: nat)
    ensures var t := FormatDuration(seconds);
      && |t| >= 4 && t[|t| - 3] == ':'
      && t[..|t| - 3] == NatToString(seconds / 60)
      && ParseNat(t[|t| - 2..]) < 60
  {
    var q, k := seconds / 60, seconds % 60;
    assert FormatDuration(seconds) == ClockText(q, k);
    ClockTextShape(q, k);
  }

  /** Reading the text back gives the duration. */
  lemma FormatDurationRoundTrip(seconds: nat)
    ensures ReadDuration(FormatDuration(seconds)) == Some(seconds)
  {
    var q, k := seconds / 60, seconds % 60;
    assert FormatDuration(seconds) == ClockText(q, k);
    ClockTextRoundTrip(q, k);
  }

  /** A number from 10 to 99 is written with its two digits. */
  lemma TwoDigitText(n: nat)
    requires 10 <= n < 100
    ensures NatToString(n) == [DigitChar(n / 10), DigitChar(n % 10)]
  {
    assert NatToString(n / 10) == [DigitChar(n / 10)];
  }

  /** Minutes are not capped at an hour: 3600 seconds, sixty whole minutes, read `60:00`. */
  lemma AnHourIsSixtyMinutes()
    ensures ClockText(60, 0) == "60:00"
  {
    TwoDigitText(60);
    assert PadStart("0", 2, '0') == "00" by {
      assert seq(1, _ => '0') == "0";
    }
  }

  /** Seconds below ten are padded to two digits: 65 seconds, a minute and five, read `1:05`. */
  lemma ShortSecondsArePadded()
    ensures ClockText(1, 5) == "1:05"
  {
    assert PadStart("5", 2, '0') == "05" by {
      assert seq(1, _ => '0') == "0";
    }
  }

  // ------------------------------------------------------ the badge colour

  const Red := "bg-red-100 text-red-800"
  const Orange := "bg-orange-100 text-orange-800"
  const Yellow := "bg-yellow-100 text-yellow-800"
  const Green := "bg-green-100 text-green-800"
  const Gray := "bg-gray-100 text-gray-800"

  /** `getUrgencyColor`: the switch over `critical`, `high`, `medium`, `low`. */
  function UrgencyColor(urgency: string): (c: string)
    ensures c == Gray <==> urgency !in {"critical", "high", "medium", "low"}
    ensures c == Red <==> urgency == "critical"
    ensures c == Orange <==> urgency == "high"
    ensures c == Yellow <==> urgency == "medium"
    ensures c == Green <==> urgency == "low"
  {
    if urgency == "critical" then Red
    else if urgency == "high" then Orange
    else if urgency == "medium" then Yellow
    else if urgency == "low" then Green
    else Gray
  }

  /**
   * The page speaks of `critical`, the call webhook writes `urgent`: the
   * most urgent stored calls get the grey default badge, and the `critical`
   * filter option finds none of them.
   */
  lemma UrgentCallsUnstyled(calls: seq<CallItem>)
    requires forall i :: 0 <= i < |calls| ==>
      exists u: CallsWebhook.Urgency :: calls[i].urgency == CallsWebhook.UrgencyName(u)
    ensures UrgencyColor(CallsWebhook.UrgencyName(CallsWebhook.Urgent)) == Gray
    ensures FilteredCalls(calls, "critical") == []
  {
  }

  /**
   * The page's badge colours exactly the names of `CALL_URGENCY`, and the
   * webhook writes every one of those names except `critical`, writing
   * `urgent` in its place.
   */
  lemma UrgencyVocabulariesDisagree()
    ensures forall x :: UrgencyColor(x) != Gray <==> x in PricingPlans.CallUrgency
    ensures forall u :: CallsWebhook.UrgencyName(u) in PricingPlans.CallUrgency <==> u != CallsWebhook.Urgent
    ensures "critical" in PricingPlans.CallUrgency
    ensures forall u :: CallsWebhook.UrgencyName(u) != "critical"
  {
  }

  /** The badge keyed on the urgency the webhook actually writes. */
  function UrgencyBadge(u: CallsWebhook.Urgency): (c: string)
    ensures c != Gray
  {
    match u
    case Urgent => Red
    case High => Orange
    case Medium => Yellow
    case Low => Green
  }

  /** Every stored urgency gets its own colour, and the most urgent ones get red. */
  lemma UrgencyBadgeDistinct(u: CallsWebhook.Urgency, v: CallsWebhook.Urgency)
    ensures UrgencyBadge(u) == UrgencyBadge(v) <==> u == v
    ensures UrgencyBadge(u) == Red <==> u == CallsWebhook.Urgent
    ensures UrgencyBadge(u) == UrgencyColor(CallsWebhook.UrgencyName(u)) <==> u != CallsWebhook.Urgent
  {
  }
}
