/**
 * The helpers of the admin lead list (`src/app/admin/leads/page.tsx`): the
 * status and industry filters, the three views of a lead's score (badge,
 * detail colour, research summary), the status badge, and the option lists.
 */
module AdminLeadsPage {
  import opened Seqs
  import LeadQueries

  /** A lead as the page shows it. */
  datatype LeadItem = LeadItem(id: nat, industry: string, score: int, status: string)

  // ---------------------------------------------------------- the filter

  predicate Passes(l: LeadItem, filterStatus: string, filterIndustry: string) {
    (filterStatus == "" || l.status == filterStatus) && (filterIndustry == "" || l.industry == filterIndustry)
  }

  /** `filteredLeads`: both filters applied, order kept. */
  function FilteredLeads(leads: seq<LeadItem>, filterStatus: string, filterIndustry: string): (r: seq<LeadItem>)
    ensures forall l :: l in r <==> l in leads && Passes(l, filterStatus, filterIndustry)
    ensures IsSubsequence(r, leads)
  {
    FilterIsSubsequence(leads, l => Passes(l, filterStatus, filterIndustry));
    Filter(leads, l => Passes(l, filterStatus, filterIndustry))
  }

  /** With no filter set every lead is listed, in order. */
  lemma NoFilterListsAll(leads: seq<LeadItem>)
    ensures FilteredLeads(leads, "", "") == leads
  {
    FilterKeepsAll(leads, l => Passes(l, "", ""));
  }

  // ------------------------------------------------------------ the score

  datatype Prospect = Excellent | Good | Marginal

  /** The score thresholds all three views share: 85 and up, 70 and up, below 70. */
  function Classify(score: int): (p: Prospect)
    ensures p == Excellent <==> score >= 85
    ensures p == Good <==> 70 <= score < 85
    ensures p == Marginal <==> score < 70
  {
    if score >= 85 then Excellent else if score >= 70 then Good else Marginal
  }

  const BadgeGreen := "bg-green-100 text-green-800"
  const BadgeYellow := "bg-yellow-100 text-yellow-800"
  const BadgeRed := "bg-red-100 text-red-800"

  /** `getScoreColor`, the badge in the table. */
  function ScoreColor(score: int): string {
    if score >= 85 then BadgeGreen else if score >= 70 then BadgeYellow else BadgeRed
  }

  const TextGreen := "text-green-600"
  const TextYellow := "text-yellow-600"
  const TextRed := "text-red-600"

  /** The score colour in the detail panel, written out inline. */
  function DetailColor(score: int): string {
    if score >= 85 then TextGreen else if score >= 70 then TextYellow else TextRed
  }

  const ExcellentText := "Excellent prospect - Ready to contact with personalized pitch"
  const GoodText := "Good prospect - Needs more research before outreach"
  const MarginalText := "Marginal prospect - May need further qualification"

  /** The research summary in the detail panel (its leading emoji left out). */
  function ResearchSummary(score: int): string {
    if score >= 85 then ExcellentText else if score >= 70 then GoodText else MarginalText
  }

  /**
   * The badge, the detail colour and the summary are three copies of the
   * same thresholds: each of them names the prospect class, and they agree
   * for every score.
   */
  lemma ScoreViewsAgree(score: int)
    ensures ScoreColor(score) == BadgeGreen <==> Classify(score) == Excellent
    ensures ScoreColor(score) == BadgeYellow <==> Classify(score) == Good
    ensures ScoreColor(score) == BadgeRed <==> Classify(score) == Marginal
    ensures DetailColor(score) == TextGreen <==> Classify(score) == Excellent
    ensures DetailColor(score) == TextYellow <==> Classify(score) == Good
    ensures DetailColor(score) == TextRed <==> Classify(score) == Marginal
    ensures ResearchSummary(score) == ExcellentText <==> Classify(score) == Excellent
    ensures ResearchSummary(score) == GoodText <==> Classify(score) == Good
    ensures ResearchSummary(score) == MarginalText <==> Classify(score) == Marginal
  {
  }

  /** A higher score never gets a worse class. */
  lemma ClassifyMonotone(s1: int, s2: int)
    requires s1 <= s2
    ensures Classify(s1) == Excellent ==> Classify(s2) == Excellent
    ensures Classify(s2) == Marginal ==> Classify(s1) == Marginal
  {
  }

  // ----------------------------------------------------------- the status

  const Blue := "bg-blue-100 text-blue-800"
  const Purple := "bg-purple-100 text-purple-800"
  const Orange := "bg-orange-100 text-orange-800"
  const Green := "bg-green-100 text-green-800"
  const Gray := "bg-gray-100 text-gray-800"

  /** `getStatusColor`: four statuses are coloured, anything else is grey. */
  function StatusColor(status: string): (c: string)
    ensures c == Gray <==> status !in {"new", "researched", "contacted", "converted"}
    ensures c == Blue <==> status == "new"
    ensures c == Purple <==> status == "researched"
    ensures c == Orange <==> status == "contacted"
    ensures c == Green <==> status == "converted"
  {
    if status == "new" then Blue
    else if status == "researched" then Purple
    else if status == "contacted" then Orange
    else if status == "converted" then Green
    else Gray
  }

  /** The statuses offered by the filter and the detail panel. */
  const StatusOptions: seq<string> := ["new", "researched", "contacted", "converted"]

  /**
   * Of the five statuses a stored lead can have, the page knows four: a
   * rejected lead gets the grey badge and cannot be selected by the status
   * filter, every other status is coloured and offered.
   */
  lemma RejectedIsUnknownToPage(status: string)
    requires status in LeadQueries.Statuses
    ensures status == "rejected" <==> StatusColor(status) == Gray
    ensures status == "rejected" <==> status !in StatusOptions
    ensures "rejected" in LeadQueries.Statuses
  {
  }

  /** Filtering on one of the offered statuses never shows a rejected lead. */
  lemma RejectedNeverFiltered(leads: seq<LeadItem>, filterStatus: string, filterIndustry: string)
    requires filterStatus in StatusOptions
    ensures forall l :: l in FilteredLeads(leads, filterStatus, filterIndustry) ==> l.status != "rejected"
  {
  }

  // ------------------------------------------------------ the industries

  function Industry(l: LeadItem): string { l.industry }

  /** `[...new Set(allLeads.map(l => l.industry))]`. */
  function Industries(leads: seq<LeadItem>): (r: seq<string>)
    ensures NoDuplicates(r)
    ensures forall x :: x in r <==> exists l :: l in leads && l.industry == x
  {
    var all := Map(leads, Industry);
    assert forall l :: l in leads ==> l.industry in all by {
      forall l | l in leads
        ensures l.industry in all
      {
        var i :| 0 <= i < |leads| && leads[i] == l;
        assert all[i] == l.industry;
      }
    }
    Distinct(all)
  }

  /** Every industry offered selects at least one lead when the status filter is empty. */
  lemma EveryIndustryOptionMatches(leads: seq<LeadItem>, x: string)
    requires x in Industries(leads)
    ensures x != "" ==> FilteredLeads(leads, "", x) != []
  {
    var l :| l in leads && l.industry == x;
    assert l in FilteredLeads(leads, "", x);
  }
}
