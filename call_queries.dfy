/**
 * `getCallsByClientId` and `getCallStats` (`src/lib/queries/calls.ts`):
 * the newest calls of a client, and the totals over all its calls. The
 * rows a query returns are inputs; `None` stands for a query error.
 */
module CallQueries {
  import opened Options
  import opened Seqs
  import opened JsNumbers

  /** A `calls` row, reduced to the columns these queries read; `createdAt` as a timestamp. */
  datatype Call = Call(id: nat, clientId: nat, durationSeconds: Option<int>, createdAt: int)

  function CreatedAt(c: Call): int { c.createdAt }

  function Seconds(c: Call): int {
    if c.durationSeconds.Some? then c.durationSeconds.value else 0
  }

  /**
   * `eq('client_id', clientId).order('created_at', desc).limit(limit)`:
   * the client's calls, newest first, at most `limit` of them; `[]` on error.
   */
  function GetCallsByClientId(rows: Option<seq<Call>>, clientId: nat, limit: nat): (r: seq<Call>)
    ensures rows.None? ==> r == []
    ensures |r| <= limit
    ensures forall i :: 0 <= i < |r| ==> r[i].clientId == clientId
    ensures SortedDesc(r, CreatedAt)
  {
    if rows.None? then []
    else
      var own := Filter(rows.value, (c: Call) => c.clientId == clientId);
      var sorted := SortDesc(own, CreatedAt);
      var r := Take(sorted, limit);
      assert forall i :: 0 <= i < |r| ==> r[i].clientId == clientId by {
        forall i | 0 <= i < |r|
          ensures r[i].clientId == clientId
        {
          assert r[i] == sorted[i];
          assert sorted[i] in multiset(sorted);
          assert sorted[i] in own;
        }
      }
      r
  }

  /**
   * The result is the newest `limit` of the client's calls: it is drawn from
   * them, it holds `limit` of them (all of them when there are fewer), and
   * any call of the client left out is no newer than every call returned.
   */
  lemma CallsByClientAreNewest(rows: seq<Call>, clientId: nat, limit: nat)
    ensures var own := Filter(rows, (c: Call) => c.clientId == clientId);
      var r := GetCallsByClientId(Some(rows), clientId, limit);
      && multiset(r) <= multiset(own)
      && |r| == (if |own| < limit then |own| else limit)
      && (|own| <= limit ==> multiset(r) == multiset(own))
      && (forall i, x :: (0 <= i < |r| && x in multiset(own) - multiset(r)) ==> x.createdAt <= r[i].createdAt)
  {
    var own := Filter(rows, (c: Call) => c.clientId == clientId);
    var sorted := SortDesc(own, CreatedAt);
    assert |sorted| == |own| by {
      assert |multiset(sorted)| == |multiset(own)|;
    }
    TakeSortedIsTop(own, CreatedAt, limit);
  }

  datatype CallStats = CallStats(totalCalls: nat, totalMinutes: int, avgDurationTenths: int)

  function TotalSeconds(calls: seq<Call>): int { Sum(calls, Seconds) }

  /**
   * `getCallStats`: the number of calls, the total minutes rounded to the
   * nearest minute, and the mean minutes per call rounded to one decimal
   * (held as tenths), 0 with no calls; all zero on a query error.
   */
  function GetCallStats(rows: Option<seq<Call>>): (r: CallStats)
    ensures rows.None? ==> r == CallStats(0, 0, 0)
    ensures rows.Some? ==> r.totalCalls == |rows.value|
    ensures rows.Some? ==> 120 * r.totalMinutes - 60 <= 2 * TotalSeconds(rows.value) < 120 * r.totalMinutes + 60
    ensures rows.Some? && rows.value == [] ==> r.avgDurationTenths == 0
    ensures rows.Some? && rows.value != [] ==>
      var n := |rows.value|;
      12 * n * r.avgDurationTenths - 6 * n <= 2 * TotalSeconds(rows.value) < 12 * n * r.avgDurationTenths + 6 * n
  {
    if rows.None? then CallStats(0, 0, 0)
    else
      var calls := rows.value;
      var seconds := TotalSeconds(calls);
      CallStats(
        |calls|,
        RoundDiv(seconds, 60),
        if |calls| > 0 then RoundDiv(seconds, 6 * |calls|) else 0)
  }

  /** One call of 90 seconds: 2 minutes in total (1.5 rounds up) and an average of 1.5. */
  lemma CallStatsExample(c: Call)
    requires c.durationSeconds == Some(90)
    ensures GetCallStats(Some([c])) == CallStats(1, 2, 15)
  {
    SumCons(c, [], Seconds);
    assert [c] + [] == [c];
    assert TotalSeconds([c]) == 90;
    RoundDivUnique(90, 60, 2);
    RoundDivUnique(90, 6, 15);
  }

  /** Calls without a recorded duration count as calls of 0 seconds. */
  lemma NullDurationsCountAsZero(calls: seq<Call>, c: Call)
    requires c.durationSeconds.None?
    ensures TotalSeconds(calls + [c]) == TotalSeconds(calls)
    ensures GetCallStats(Some(calls + [c])).totalCalls == |calls| + 1
  {
    assert (calls + [c])[..|calls|] == calls;
  }
}
