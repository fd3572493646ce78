/**
 * `getLeads` and `getLeadStats` (`src/lib/queries/leads.ts`): one page of
 * leads, newest first, optionally restricted to one status, and the count
 * of leads per pipeline status. `None` stands for a query error.
 */
module LeadQueries {
  import opened Options
  import opened Seqs

  /** A `leads` row, reduced to the columns these queries read. */
  datatype Lead = Lead(id: nat, status: string, createdAt: int)

  function CreatedAt(l: Lead): int { l.createdAt }

  /** The five statuses of the pipeline. */
  const Statuses: seq<string> := ["new", "researched", "contacted", "converted", "rejected"]

  /** `if (status)`: the filter applies only for a present, non-empty status. */
  predicate Restricts(status: Option<string>) {
    status.Some? && status.value != ""
  }

  /** `query.eq('status', status)`, applied only when the status restricts. */
  function Select(rows: seq<Lead>, status: Option<string>): (r: seq<Lead>)
    ensures Restricts(status) ==> forall x :: x in r <==> x in rows && x.status == status.value
    ensures Restricts(status) ==> IsSubsequence(r, rows)
    ensures !Restricts(status) ==> r == rows
  {
    if Restricts(status) then
      FilterIsSubsequence(rows, (l: Lead) => l.status == status.value);
      Filter(rows, (l: Lead) => l.status == status.value)
    else rows
  }

  /**
   * `getLeads`: the status filter, when it applies, selects the rows before
   * ordering and paging; `[]` on error.
   */
  function GetLeads(rows: Option<seq<Lead>>, status: Option<string>, limit: nat, offset: nat): (r: seq<Lead>)
    ensures rows.None? ==> r == []
    ensures |r| <= limit
    ensures Restricts(status) ==> forall i :: 0 <= i < |r| ==> r[i].status == status.value
    ensures SortedDesc(r, CreatedAt)
  {
    if rows.None? then []
    else
      var selected := Select(rows.value, status);
      var sorted := SortDesc(selected, CreatedAt);
      SortDescMembers(selected, CreatedAt);
      RangeOfSorted(sorted, CreatedAt, offset, offset + limit - 1);
      RangeInclusive(sorted, offset, offset + limit - 1)
  }

  /** A missing or empty status lists every lead, exactly as with no filter at all. */
  lemma EmptyStatusIsNoFilter(rows: seq<Lead>, limit: nat, offset: nat)
    ensures GetLeads(Some(rows), Some(""), limit, offset) == GetLeads(Some(rows), None, limit, offset)
    ensures multiset(GetLeads(Some(rows), None, |rows|, 0)) == multiset(rows)
  {
    var sorted := SortDesc(rows, CreatedAt);
    if rows != [] {
      assert sorted[0..|sorted|] == sorted;
    }
  }

  /**
   * A page starting at 0 and as large as the table holds exactly the leads
   * of the requested status (all of them when none restricts), each once.
   */
  lemma FullPageHoldsSelection(rows: seq<Lead>, status: Option<string>)
    ensures multiset(GetLeads(Some(rows), status, |rows|, 0)) == multiset(Select(rows, status))
    ensures forall x :: x in GetLeads(Some(rows), status, |rows|, 0) <==> x in Select(rows, status)
  {
    var selected := Select(rows, status);
    var sorted := SortDesc(selected, CreatedAt);
    assert |sorted| == |selected| by {
      assert |multiset(sorted)| == |multiset(selected)|;
    }
    if sorted != [] {
      assert sorted[0..|sorted|] == sorted;
    }
    var r := GetLeads(Some(rows), status, |rows|, 0);
    assert multiset(r) == multiset(selected);
    forall x
      ensures x in r <==> x in selected
    {
      assert x in r <==> x in multiset(r);
      assert x in selected <==> x in multiset(selected);
    }
  }

  datatype LeadStats = LeadStats(total: nat, newLeads: nat, researched: nat, contacted: nat, converted: nat, rejected: nat)

  function CountStatus(statuses: seq<string>, s: string): (n: nat)
    ensures n <= |statuses|
  {
    CountWhere(statuses, (x: string) => x == s)
  }

  /** `getLeadStats` over the `status` column; all zero on a query error. */
  function GetLeadStats(rows: Option<seq<string>>): (r: LeadStats)
    ensures rows.None? ==> r == LeadStats(0, 0, 0, 0, 0, 0)
    ensures rows.Some? ==> r.total == |rows.value|
    ensures rows.Some? ==> var m := multiset(rows.value);
      && r.newLeads == m["new"] && r.researched == m["researched"] && r.contacted == m["contacted"]
      && r.converted == m["converted"] && r.rejected == m["rejected"]
  {
    if rows.None? then LeadStats(0, 0, 0, 0, 0, 0)
    else
      var leads := rows.value;
      CountIsExactMatch(leads, "new");
      CountIsExactMatch(leads, "researched");
      CountIsExactMatch(leads, "contacted");
      CountIsExactMatch(leads, "converted");
      CountIsExactMatch(leads, "rejected");
      LeadStats(|leads|,
        CountStatus(leads, "new"), CountStatus(leads, "researched"), CountStatus(leads, "contacted"),
        CountStatus(leads, "converted"), CountStatus(leads, "rejected"))
  }

  function CountsTotal(r: LeadStats): int {
    r.newLeads + r.researched + r.contacted + r.converted + r.rejected
  }

  /** Dropping the first row lowers one status count by one when the row is that status, and no other. */
  lemma CountStatusStep(leads: seq<string>, s: string)
    requires leads != []
    ensures CountStatus(leads, s) == CountStatus(leads[1..], s) + (if leads[0] == s then 1 else 0)
  {
  }

  /** Dropping the first row lowers the sum of the five counts by one exactly when its status is one of the five. */
  lemma CountsTotalStep(leads: seq<string>)
    requires leads != []
    ensures CountsTotal(GetLeadStats(Some(leads)))
      == CountsTotal(GetLeadStats(Some(leads[1..]))) + (if leads[0] in Statuses then 1 else 0)
  {
    CountStatusStep(leads, "new");
    CountStatusStep(leads, "researched");
    CountStatusStep(leads, "contacted");
    CountStatusStep(leads, "converted");
    CountStatusStep(leads, "rejected");
  }

  /**
   * The five counts add up to the total exactly when every status is one of
   * the five; any other value (a typo, another case) is counted nowhere.
   */
  lemma {:induction false} CountsCoverTotal(leads: seq<string>)
    ensures CountsTotal(GetLeadStats(Some(leads))) <= |leads|
    ensures CountsTotal(GetLeadStats(Some(leads))) == |leads| <==> forall i :: 0 <= i < |leads| ==> leads[i] in Statuses
    decreases |leads|
  {
    if leads != [] {
      var rest := leads[1..];
      CountsCoverTotal(rest);
      CountsTotalStep(leads);
      if forall i :: 0 <= i < |rest| ==> rest[i] in Statuses {
        assert forall i :: 1 <= i < |leads| ==> leads[i] in Statuses by {
          forall i | 1 <= i < |leads| ensures leads[i] in Statuses {
            assert leads[i] == rest[i - 1];
          }
        }
      } else {
        var j :| 0 <= j < |rest| && rest[j] !in Statuses;
        assert leads[j + 1] !in Statuses;
      }
    }
  }

  /**
   * Each count is the number of rows whose status equals that value exactly;
   * a row of another status, "new" included, leaves it unchanged.
   */
  lemma {:induction false} CountIsExactMatch(leads: seq<string>, s: string)
    ensures CountStatus(leads, s) == multiset(leads)[s]
    ensures s != "new" ==> CountStatus(leads + ["new"], s) == CountStatus(leads, s)
    decreases |leads|
  {
    if leads != [] {
      CountIsExactMatch(leads[1..], s);
      CountStatusStep(leads, s);
      assert leads == [leads[0]] + leads[1..];
    }
    if s != "new" {
      FilterSnocSkip(leads, "new", (x: string) => x == s);
    }
  }

  lemma {:induction false} FilterSnocSkip<T(!new)>(s: seq<T>, x: T, p: T -> bool)
    requires !p(x)
    ensures Filter(s + [x], p) == Filter(s, p)
    decreases |s|
  {
    if s == [] {
      assert [] + [x] == [x];
    } else {
      assert (s + [x])[1..] == s[1..] + [x];
      FilterSnocSkip(s[1..], x, p);
    }
  }
}
