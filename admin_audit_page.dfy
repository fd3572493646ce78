/**
 * The helpers of the admin audit log (`src/app/admin/audit/page.tsx`): the
 * action and result filters, the action badge colour, the list of action
 * options, and the event counts with their success rate. The relative time
 * of each entry is `RelativeTime.FormatTime`.
 */
module AdminAuditPage {
  import opened Strings
  import opened Seqs
  import opened JsNumbers

  /** An audit entry as the page shows it. */
  datatype Entry = Entry(id: nat, action: string, success: bool)

  // ---------------------------------------------------------- the filter

  /**
   * An empty action filter lets everything through, a set one must match
   * exactly; the result filter constrains only for `success` and `failed`.
   */
  predicate Passes(e: Entry, filterAction: string, filterSuccess: string) {
    (filterAction == "" || e.action == filterAction) &&
    !(filterSuccess == "success" && !e.success) &&
    !(filterSuccess == "failed" && e.success)
  }

  /** `filteredEntries`. */
  function FilteredEntries(entries: seq<Entry>, filterAction: string, filterSuccess: string): (r: seq<Entry>)
    ensures forall e :: e in r <==> e in entries && Passes(e, filterAction, filterSuccess)
    ensures IsSubsequence(r, entries)
  {
    FilterIsSubsequence(entries, e => Passes(e, filterAction, filterSuccess));
    Filter(entries, e => Passes(e, filterAction, filterSuccess))
  }

  /** Any result filter other than the two known values shows successes and failures alike. */
  lemma UnknownResultFilterIgnored(entries: seq<Entry>, filterAction: string, filterSuccess: string)
    requires filterSuccess != "success" && filterSuccess != "failed"
    ensures FilteredEntries(entries, filterAction, filterSuccess) == FilteredEntries(entries, filterAction, "")
  {
    var p := (e: Entry) => Passes(e, filterAction, filterSuccess);
    var q := (e: Entry) => Passes(e, filterAction, "");
    var fq := Filter(entries, q);
    FilterNarrow(entries, p, q);
    assert forall i :: 0 <= i < |fq| ==> fq[i] in fq;
    FilterKeepsAll(fq, p);
  }

  // ---------------------------------------------------- the action options

  function Action(e: Entry): string { e.action }

  /** `[...new Set(allEntries.map(e => e.action))]`: taken from all entries, not the filtered ones. */
  function Actions(entries: seq<Entry>): (r: seq<string>)
    ensures NoDuplicates(r)
    ensures forall a :: a in r <==> exists e :: e in entries && e.action == a
  {
    var all := Map(entries, Action);
    assert forall e :: e in entries ==> e.action in all by {
      forall e | e in entries
        ensures e.action in all
      {
        var i :| 0 <= i < |entries| && entries[i] == e;
        assert all[i] == e.action;
      }
    }
    Distinct(all)
  }

  /** Every action offered as an option selects at least one entry when no result filter is set. */
  lemma EveryActionOptionMatches(entries: seq<Entry>, a: string)
    requires a in Actions(entries)
    ensures a != "" ==> FilteredEntries(entries, a, "") != []
  {
    var e :| e in entries && e.action == a;
    assert e in FilteredEntries(entries, a, "");
  }

  /** `action.replace(/_/g, ' ')`: every underscore becomes a space. */
  function Spaced(action: string): (r: string)
    ensures |r| == |action|
    ensures forall i :: 0 <= i < |r| ==> r[i] != '_'
    ensures forall i :: 0 <= i < |r| ==> action[i] == '_' ==> r[i] == ' '
    ensures forall i :: 0 <= i < |r| ==> action[i] != '_' ==> r[i] == action[i]
  {
    seq(|action|, i requires 0 <= i < |action| => if action[i] == '_' then ' ' else action[i])
  }

  /** The option text: the spaced action in capitals. */
  function OptionLabel(action: string): (r: string)
    ensures |r| == |action|
    ensures forall i :: 0 <= i < |r| ==> r[i] != '_' && !('a' <= r[i] <= 'z')
    ensures forall i :: 0 <= i < |r| ==> r[i] == UpperChar(if action[i] == '_' then ' ' else action[i])
  {
    ToUpper(Spaced(action))
  }

  /** Two actions that differ only in case or in `_` versus space get the same option text. */
  lemma OptionLabelsCanCollide()
    ensures OptionLabel("login_failed") == OptionLabel("LOGIN FAILED") == "LOGIN FAILED"
  {
  }

  // ------------------------------------------------------- the badge colour

  const Green := "bg-green-100 text-green-800"
  const Blue := "bg-blue-100 text-blue-800"
  const Red := "bg-red-100 text-red-800"
  const Yellow := "bg-yellow-100 text-yellow-800"
  const Gray := "bg-gray-100 text-gray-800"

  /** `getActionColor`: the first of `created`, `updated`, `deleted`, `failed`, `paused` the action contains. */
  function ActionColor(action: string): (c: string)
    ensures c == Green <==> Contains(action, "created")
    ensures c == Blue <==> !Contains(action, "created") && Contains(action, "updated")
    ensures c == Red <==> !Contains(action, "created") && !Contains(action, "updated") &&
                          (Contains(action, "deleted") || Contains(action, "failed"))
    ensures c == Gray <==> !Contains(action, "created") && !Contains(action, "updated") &&
                           !Contains(action, "deleted") && !Contains(action, "failed") && !Contains(action, "paused")
    ensures c == Yellow <==> !Contains(action, "created") && !Contains(action, "updated") &&
                             !Contains(action, "deleted") && !Contains(action, "failed") && Contains(action, "paused")
  {
    if Contains(action, "created") then Green
    else if Contains(action, "updated") then Blue
    else if Contains(action, "deleted") then Red
    else if Contains(action, "failed") then Red
    else if Contains(action, "paused") then Yellow
    else Gray
  }

  /** The match is on a substring anywhere, and the earlier word wins: a failed creation is green. */
  lemma ActionColorFirstWordWins(prefix: string, suffix: string)
    ensures ActionColor(prefix + "created" + suffix) == Green
    ensures ActionColor("user_created_failed") == Green
  {
    assert (prefix + "created" + suffix)[|prefix|..|prefix| + 7] == "created";
    assert OccursAt(prefix + "created" + suffix, "created", |prefix|);
    assert OccursAt("user_created_failed", "created", 5);
  }

  // ------------------------------------------------------------ the counts

  predicate Succeeded(e: Entry) { e.success }
  predicate Failed(e: Entry) { !e.success }

  /** The "Successful" and "Failed" cards, taken over the filtered list. */
  function SuccessfulCount(entries: seq<Entry>): (n: nat)
    ensures n <= |entries|
  {
    |Filter(entries, Succeeded)|
  }

  function FailedCount(entries: seq<Entry>): (n: nat)
    ensures n <= |entries|
  {
    |Filter(entries, Failed)|
  }

  /** Every shown event is counted exactly once, as successful or as failed. */
  lemma CountsPartitionTotal(entries: seq<Entry>)
    ensures SuccessfulCount(entries) + FailedCount(entries) == |entries|
  {
    FilterComplement(entries, Succeeded, Failed);
  }

  /** `Math.round(successful / total * 100)`. */
  function SuccessRate(entries: seq<Entry>): JsNumber {
    Round(Divide(100 * SuccessfulCount(entries), |entries|))
  }

  /**
   * With entries shown, the rate is a whole percentage from 0 to 100: 100
   * when none failed, 0 when none succeeded. With none shown it is NaN and
   * the card reads "NaN%".
   */
  lemma SuccessRateBounds(entries: seq<Entry>)
    ensures entries == [] ==> SuccessRate(entries) == NaN
    ensures entries != [] ==>
      (SuccessRate(entries).Fraction? && SuccessRate(entries).den == 1 && 0 <= SuccessRate(entries).num <= 100)
    ensures entries != [] && FailedCount(entries) == 0 ==> SuccessRate(entries) == Fraction(100, 1)
    ensures entries != [] && SuccessfulCount(entries) == 0 ==> SuccessRate(entries) == Fraction(0, 1)
  {
    if entries != [] {
      var n := |entries|;
      var s := SuccessfulCount(entries);
      CountsPartitionTotal(entries);
      RoundDivBetween(100 * s, n, 0, 100);
      if FailedCount(entries) == 0 {
        RoundDivUnique(100 * s, n, 100);
      }
      if s == 0 {
        RoundDivUnique(0, n, 0);
      }
    }
  }
}
