/**
 * `getAllClientsAdmin` and `getClientStats` (`src/lib/queries/admin.ts`):
 * one page of the client list, newest first, and the subscription totals
 * over all clients. Monthly fees are held in cents, so "rounded to the
 * cent" is a rounding to an integer. `None` stands for a query error.
 */
module AdminQueries {
  import opened Options
  import opened Seqs
  import opened JsNumbers

  /** A `clients` row, reduced to the columns these queries read. */
  datatype ClientSummary = ClientSummary(id: nat, status: string, monthlyFeeCents: Option<int>, createdAt: int)

  function CreatedAt(c: ClientSummary): int { c.createdAt }

  /**
   * `order('created_at', desc).range(offset, offset + limit - 1)`: an
   * inclusive slice of the newest-first list; `[]` on error.
   */
  function GetAllClientsAdmin(rows: Option<seq<ClientSummary>>, limit: nat, offset: nat): (r: seq<ClientSummary>)
    ensures rows.None? ==> r == []
    ensures |r| <= limit
    ensures SortedDesc(r, CreatedAt)
  {
    if rows.None? then []
    else
      var sorted := SortDesc(rows.value, CreatedAt);
      RangeOfSorted(sorted, CreatedAt, offset, offset + limit - 1);
      RangeInclusive(sorted, offset, offset + limit - 1)
  }

  /**
   * Over one fixed newest-first order, consecutive pages neither skip nor
   * repeat a row: page two starts where page one ends.
   */
  lemma PagesAreConsecutive(rows: seq<ClientSummary>, limit: nat, offset: nat)
    ensures GetAllClientsAdmin(Some(rows), limit, offset) + GetAllClientsAdmin(Some(rows), limit, offset + limit)
      == GetAllClientsAdmin(Some(rows), 2 * limit, offset)
  {
    var sorted := SortDesc(rows, CreatedAt);
    assert GetAllClientsAdmin(Some(rows), limit, offset) == RangeInclusive(sorted, offset, offset + limit - 1);
    assert GetAllClientsAdmin(Some(rows), limit, offset + limit) ==
      RangeInclusive(sorted, offset + limit, offset + limit + limit - 1);
    assert GetAllClientsAdmin(Some(rows), 2 * limit, offset) == RangeInclusive(sorted, offset, offset + 2 * limit - 1);
    RangeAdjacent(sorted, offset, limit);
  }

  /** The first page of a list no longer than the page size is the whole list, newest first. */
  lemma FirstPageHoldsAll(rows: seq<ClientSummary>, limit: nat)
    requires |rows| <= limit
    ensures multiset(GetAllClientsAdmin(Some(rows), limit, 0)) == multiset(rows)
  {
    var sorted := SortDesc(rows, CreatedAt);
    if rows != [] {
      assert sorted[0..|sorted|] == sorted;
    }
  }

  datatype ClientStats = ClientStats(totalClients: nat, activeClients: nat, mrrCents: int, avgPlanValueCents: JsNumber)

  predicate IsActive(c: ClientSummary) { c.status == "active" }

  function Fee(c: ClientSummary): int {
    if c.monthlyFeeCents.Some? then c.monthlyFeeCents.value else 0
  }

  function ActiveClients(clients: seq<ClientSummary>): seq<ClientSummary> {
    Filter(clients, IsActive)
  }

  function Mrr(clients: seq<ClientSummary>): int {
    Sum(ActiveClients(clients), Fee)
  }

  /**
   * `getClientStats`: the number of clients, the number of active ones, the
   * sum of active fees, and that sum per active client rounded to the cent
   * (0 with no clients at all); all zero on a query error.
   */
  function GetClientStats(rows: Option<seq<ClientSummary>>): (r: ClientStats)
    ensures rows.None? ==> r == ClientStats(0, 0, 0, Fraction(0, 1))
    ensures rows.Some? ==> r.totalClients == |rows.value| && r.activeClients <= r.totalClients
    ensures rows.Some? ==> r.activeClients == |ActiveClients(rows.value)| && r.mrrCents == Mrr(rows.value)
    ensures rows.Some? && rows.value == [] ==> r.avgPlanValueCents == Fraction(0, 1)
    ensures rows.Some? && rows.value != [] ==> r.avgPlanValueCents == Round(Divide(r.mrrCents, r.activeClients))
  {
    if rows.None? then ClientStats(0, 0, 0, Fraction(0, 1))
    else
      var clients := rows.value;
      var active := ActiveClients(clients);
      var mrr := Sum(active, Fee);
      ClientStats(
        |clients|,
        |active|,
        mrr,
        if |clients| > 0 then Round(Divide(mrr, |active|)) else Fraction(0, 1))
  }

  /** A client counts as active exactly when its status is the string `active`. */
  lemma ActiveMeansStatusActive(rows: seq<ClientSummary>, c: ClientSummary)
    ensures c in ActiveClients(rows) <==> c in rows && c.status == "active"
  {
  }

  /** A client that is not active adds nothing to the MRR. */
  lemma InactiveAddsNothing(rows: seq<ClientSummary>, c: ClientSummary)
    requires c.status != "active"
    ensures Mrr(rows + [c]) == Mrr(rows)
    ensures GetClientStats(Some(rows + [c])).activeClients == GetClientStats(Some(rows)).activeClients
  {
    FilterAppendOne(rows, c, IsActive);
  }

  /** An active client adds its fee, null counted as 0. */
  lemma ActiveAddsFee(rows: seq<ClientSummary>, c: ClientSummary)
    requires c.status == "active"
    ensures Mrr(rows + [c]) == Mrr(rows) + Fee(c)
  {
    FilterAppendOne(rows, c, IsActive);
    var a := ActiveClients(rows);
    assert (a + [c])[..|a|] == a;
  }

  lemma {:induction false} FilterAppendOne<T(!new)>(s: seq<T>, x: T, p: T -> bool)
    ensures Filter(s + [x], p) == if p(x) then Filter(s, p) + [x] else Filter(s, p)
    decreases |s|
  {
    if s == [] {
      assert [] + [x] == [x];
    } else {
      assert (s + [x])[1..] == s[1..] + [x];
      FilterAppendOne(s[1..], x, p);
    }
  }

  /**
   * With clients present but none active, the average is 0 / 0: NaN, not 0.
   * With at least one active client it is the MRR per active client to the
   * nearest cent.
   */
  lemma AveragePlanValue(rows: seq<ClientSummary>)
    requires rows != []
    ensures |ActiveClients(rows)| == 0 ==> GetClientStats(Some(rows)).avgPlanValueCents == NaN
    ensures |ActiveClients(rows)| > 0 ==>
      var r := GetClientStats(Some(rows));
      var n := r.activeClients;
      r.avgPlanValueCents.Fraction? && r.avgPlanValueCents.den == 1 &&
      2 * n * r.avgPlanValueCents.num - n <= 2 * r.mrrCents < 2 * n * r.avgPlanValueCents.num + n
  {
    if |ActiveClients(rows)| == 0 {
      assert ActiveClients(rows) == [];
    }
  }

  /**
   * The average the statistic means: guarded on the number of active
   * clients, so it is always a whole number of cents, 0 with none active,
   * and between the smallest and the largest active fee otherwise.
   */
  function AvgPlanValueGuarded(clients: seq<ClientSummary>): (r: JsNumber)
    ensures r.Fraction? && r.den == 1
    ensures |ActiveClients(clients)| == 0 ==> r.num == 0
  {
    var n := |ActiveClients(clients)|;
    if n > 0 then Round(Divide(Mrr(clients), n)) else Fraction(0, 1)
  }

  lemma AvgPlanValueGuardedBetweenFees(clients: seq<ClientSummary>, lo: int, hi: int)
    requires forall c :: c in clients && IsActive(c) ==> lo <= Fee(c) <= hi
    requires |ActiveClients(clients)| > 0
    ensures lo <= AvgPlanValueGuarded(clients).num <= hi
  {
    var a := ActiveClients(clients);
    forall i | 0 <= i < |a|
      ensures lo <= Fee(a[i]) <= hi
    {
      assert a[i] in a;
    }
    SumBetween(a, Fee, lo, hi);
    RoundDivBetween(Mrr(clients), |a|, lo, hi);
  }
}
