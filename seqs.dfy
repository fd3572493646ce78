/**
 * The array operations of JavaScript and of the database's query builder
 * that the modelled code uses: `filter`, `reduce` into a sum, `length` of a
 * filtered list, `[...new Set(xs)]`, `order(..., { ascending: false })`,
 * `limit(n)` and `range(from, to)`.
 */
module Seqs {
  import opened Options

  /** `n` copies of `x`. */
  function Repeat<T>(x: T, n: nat): (r: seq<T>)
    ensures |r| == n && forall i :: 0 <= i < n ==> r[i] == x
  {
    seq(n, _ => x)
  }

  /** `s.map(f)`. */
  function Map<T, U>(s: seq<T>, f: T -> U): (r: seq<U>)
    ensures |r| == |s| && forall i :: 0 <= i < |s| ==> r[i] == f(s[i])
  {
    seq(|s|, i requires 0 <= i < |s| => f(s[i]))
  }

  // ------------------------------------------------------------ filter

  /** `s.filter(p)`: the elements satisfying `p`, in their original order. */
  function Filter<T(!new)>(s: seq<T>, p: T -> bool): (r: seq<T>)
    ensures |r| <= |s|
    ensures forall x :: x in r <==> x in s && p(x)
    decreases |s|
  {
    if s == [] then []
    else if p(s[0]) then [s[0]] + Filter(s[1..], p)
    else Filter(s[1..], p)
  }

  /** `r` can be obtained from `s` by deleting elements: order is preserved. */
  predicate IsSubsequence<T(==)>(r: seq<T>, s: seq<T>)
    decreases |s|
  {
    if r == [] then true
    else if s == [] then false
    else if r[0] == s[0] then IsSubsequence(r[1..], s[1..])
    else IsSubsequence(r, s[1..])
  }

  lemma {:induction false} FilterIsSubsequence<T(!new)>(s: seq<T>, p: T -> bool)
    ensures IsSubsequence(Filter(s, p), s)
    decreases |s|
  {
    if s != [] {
      FilterIsSubsequence(s[1..], p);
      if !p(s[0]) {
        SubsequenceWeaken(Filter(s[1..], p), s[1..], s[0]);
      }
    }
  }

  /** Dropping the head of a subsequence keeps it a subsequence. */
  lemma {:induction false} SubsequenceDropHead<T>(r: seq<T>, s: seq<T>)
    requires r != [] && IsSubsequence(r, s)
    ensures IsSubsequence(r[1..], s)
    decreases |s|, 1
  {
    if s != [] {
      if r[0] == s[0] {
        SubsequenceWeaken(r[1..], s[1..], s[0]);
      } else {
        SubsequenceDropHead(r, s[1..]);
        SubsequenceWeaken(r[1..], s[1..], s[0]);
      }
    }
  }

  /** Putting an element in front keeps a subsequence a subsequence. */
  lemma {:induction false} SubsequenceWeaken<T>(r: seq<T>, s: seq<T>, x: T)
    requires IsSubsequence(r, s)
    ensures IsSubsequence(r, [x] + s)
    decreases |s|, 2
  {
    var t := [x] + s;
    assert t[1..] == s;
    if r != [] && r[0] == x {
      SubsequenceDropHead(r, s);
    }
  }

  /** Filtering twice with the same predicate is filtering once. */
  lemma {:induction false} FilterIdempotent<T(!new)>(s: seq<T>, p: T -> bool)
    ensures Filter(Filter(s, p), p) == Filter(s, p)
    decreases |s|
  {
    if s != [] {
      FilterIdempotent(s[1..], p);
      if p(s[0]) {
        var f := Filter(s, p);
        assert f[0] == s[0] && f[1..] == Filter(s[1..], p);
      }
    }
  }

  /** A predicate every element satisfies keeps the whole list. */
  lemma {:induction false} FilterKeepsAll<T(!new)>(s: seq<T>, p: T -> bool)
    requires forall i :: 0 <= i < |s| ==> p(s[i])
    ensures Filter(s, p) == s
    decreases |s|
  {
    if s != [] {
      FilterKeepsAll(s[1..], p);
    }
  }

  /** Every element passes exactly one of `p` and its negation. */
  lemma {:induction false} FilterComplement<T(!new)>(s: seq<T>, p: T -> bool, q: T -> bool)
    requires forall x :: q(x) == !p(x)
    ensures |Filter(s, p)| + |Filter(s, q)| == |s|
    decreases |s|
  {
    if s != [] {
      FilterComplement(s[1..], p, q);
    }
  }

  /** Filtering by a stronger predicate first changes nothing. */
  lemma {:induction false} FilterNarrow<T(!new)>(s: seq<T>, p: T -> bool, q: T -> bool)
    requires forall x :: p(x) ==> q(x)
    ensures Filter(Filter(s, q), p) == Filter(s, p)
    decreases |s|
  {
    if s != [] {
      FilterNarrow(s[1..], p, q);
      if q(s[0]) {
        var f := Filter(s, q);
        assert f[0] == s[0] && f[1..] == Filter(s[1..], q);
      }
    }
  }

  /** The number of elements satisfying `p`: `s.filter(p).length`. */
  function CountWhere<T(!new)>(s: seq<T>, p: T -> bool): (n: nat)
    ensures n <= |s|
  {
    |Filter(s, p)|
  }

  // --------------------------------------------------------------- sum

  /**
   * `s.reduce((acc, x) => acc + f(x), 0)`: a left fold, so the last element
   * is added last.
   */
  function Sum<T>(s: seq<T>, f: T -> int): int
    decreases |s|
  {
    if s == [] then 0 else Sum(s[..|s| - 1], f) + f(s[|s| - 1])
  }

  /** The fold is additive over concatenation. */
  lemma {:induction false} SumConcat<T>(a: seq<T>, b: seq<T>, f: T -> int)
    ensures Sum(a + b, f) == Sum(a, f) + Sum(b, f)
    decreases |b|
  {
    if b != [] {
      assert (a + b)[..|a + b| - 1] == a + b[..|b| - 1];
      assert (a + b)[|a + b| - 1] == b[|b| - 1];
      SumConcat(a, b[..|b| - 1], f);
    } else {
      assert a + b == a;
    }
  }

  /** Adding up from the front gives the same total as the left fold. */
  lemma {:induction false} SumCons<T>(x: T, s: seq<T>, f: T -> int)
    ensures Sum([x] + s, f) == f(x) + Sum(s, f)
  {
    SumConcat([x], s, f);
    assert [x][..0] == [];
  }

  /** Sum of a non-negative quantity is non-negative. */
  lemma {:induction false} SumNonNegative<T>(s: seq<T>, f: T -> int)
    requires forall i :: 0 <= i < |s| ==> f(s[i]) >= 0
    ensures Sum(s, f) >= 0
    decreases |s|
  {
    if s != [] {
      SumNonNegative(s[..|s| - 1], f);
    }
  }

  /** A sum of n terms, each between lo and hi, lies between n * lo and n * hi. */
  lemma {:induction false} SumBetween<T>(s: seq<T>, f: T -> int, lo: int, hi: int)
    requires forall i :: 0 <= i < |s| ==> lo <= f(s[i]) <= hi
    ensures |s| * lo <= Sum(s, f) <= |s| * hi
    decreases |s|
  {
    if s != [] {
      SumBetween(s[..|s| - 1], f, lo, hi);
      assert |s| * lo == (|s| - 1) * lo + lo;
      assert |s| * hi == (|s| - 1) * hi + hi;
    }
  }

  /** Changing one element changes the sum by the difference. */
  lemma {:induction false} SumUpdate<T>(s: seq<T>, k: nat, x: T, f: T -> int)
    requires k < |s|
    ensures Sum(s[k := x], f) == Sum(s, f) - f(s[k]) + f(x)
    decreases |s|
  {
    var t := s[k := x];
    if k == |s| - 1 {
      assert t[..|t| - 1] == s[..|s| - 1];
    } else {
      assert t[..|t| - 1] == s[..|s| - 1][k := x];
      SumUpdate(s[..|s| - 1], k, x, f);
    }
  }

  // --------------------------------------------------- single-row lookup

  /** The positions of the elements satisfying `p`, in increasing order. */
  function IndicesWhere<T>(s: seq<T>, p: T -> bool): (r: seq<nat>)
    ensures forall i: nat :: i in r <==> i < |s| && p(s[i])
    ensures forall a, b :: 0 <= a < b < |r| ==> r[a] < r[b]
    decreases |s|
  {
    if s == [] then []
    else
      var r := IndicesWhere(s[..|s| - 1], p);
      forall a | 0 <= a < |r|
        ensures r[a] < |s| - 1
      {
        assert r[a] in r;
      }
      if p(s[|s| - 1]) then r + [|s| - 1] else r
  }

  /**
   * A query ending in `.single()`: it yields a row exactly when one row
   * matches; no match and several matches are both errors.
   */
  function Single<T>(s: seq<T>, p: T -> bool): (r: Option<nat>)
    ensures r.Some? ==> r.value < |s| && p(s[r.value])
    ensures r.Some? ==> forall j :: 0 <= j < |s| && p(s[j]) ==> j == r.value
    ensures r.None? ==> (forall j :: 0 <= j < |s| ==> !p(s[j])) ||
                        (exists i, j :: 0 <= i < j < |s| && p(s[i]) && p(s[j]))
  {
    var ix := IndicesWhere(s, p);
    if |ix| == 1 then
      assert ix[0] in ix;
      Some(ix[0])
    else if |ix| == 0 then None
    else
      assert ix[0] in ix && ix[1] in ix;
      None
  }

  /** A sum of non-negative terms is at least each of its terms. */
  lemma {:induction false} SumAtLeastTerm<T>(s: seq<T>, f: T -> int, k: nat)
    requires k < |s| && forall i :: 0 <= i < |s| ==> f(s[i]) >= 0
    ensures Sum(s, f) >= f(s[k])
    decreases |s|
  {
    SumNonNegative(s[..|s| - 1], f);
    if k < |s| - 1 {
      SumAtLeastTerm(s[..|s| - 1], f, k);
    }
  }

  // ---------------------------------------------------------- distinct

  predicate NoDuplicates<T(==)>(s: seq<T>) {
    forall i, j :: 0 <= i < j < |s| ==> s[i] != s[j]
  }

  /** The index of the first occurrence of `x` in `s`. */
  function FirstIndex<T(==)>(s: seq<T>, x: T): (k: nat)
    requires x in s
    ensures k < |s| && s[k] == x && forall j :: 0 <= j < k ==> s[j] != x
  {
    if s[0] == x then 0 else 1 + FirstIndex(s[1..], x)
  }

  /**
   * `[...new Set(s)]`: a set iterates in insertion order, so each value
   * appears once, where it first appeared in `s`.
   */
  function Distinct<T(==,!new)>(s: seq<T>): (r: seq<T>)
    ensures NoDuplicates(r)
    ensures forall x :: x in r <==> x in s
    decreases |s|
  {
    if s == [] then []
    else
      var r := Distinct(s[..|s| - 1]);
      if s[|s| - 1] in r then r else r + [s[|s| - 1]]
  }

  lemma FirstIndexPrefix<T>(s: seq<T>, x: T, n: nat)
    requires n <= |s| && x in s[..n]
    ensures FirstIndex(s, x) == FirstIndex(s[..n], x)
  {
    var k := FirstIndex(s[..n], x);
    assert s[k] == x;
    var k' := FirstIndex(s, x);
    assert k' <= k;
    assert s[..n][k'] == x;
  }

  /** The distinct values appear in the order of their first occurrence. */
  lemma {:induction false} DistinctFirstOccurrenceOrder<T(!new)>(s: seq<T>)
    ensures forall i, j :: 0 <= i < j < |Distinct(s)| ==>
      FirstIndex(s, Distinct(s)[i]) < FirstIndex(s, Distinct(s)[j])
    decreases |s|
  {
    if s != [] {
      var p := s[..|s| - 1];
      var x := s[|s| - 1];
      var r := Distinct(p);
      DistinctFirstOccurrenceOrder(p);
      forall y | y in r
        ensures FirstIndex(s, y) == FirstIndex(p, y) && FirstIndex(s, y) < |s| - 1
      {
        FirstIndexPrefix(s, y, |s| - 1);
      }
      if x !in r {
        assert x !in p;
        assert FirstIndex(s, x) == |s| - 1;
      }
    }
  }

  // ------------------------------------------------ ordering and ranges

  /** Each row's key is at least the next row's. */
  predicate SortedDesc<T>(s: seq<T>, key: T -> int) {
    forall i :: 0 <= i < |s| - 1 ==> key(s[i]) >= key(s[i + 1])
  }

  /** Sorted neighbour by neighbour means sorted across any two positions. */
  lemma {:induction false} SortedDescPairwise<T>(s: seq<T>, key: T -> int, i: nat, j: nat)
    requires SortedDesc(s, key) && i <= j < |s|
    ensures key(s[i]) >= key(s[j])
    decreases j - i
  {
    if i < j {
      SortedDescPairwise(s, key, i + 1, j);
    }
  }

  function InsertDesc<T>(x: T, s: seq<T>, key: T -> int): seq<T>
    decreases |s|
  {
    if s == [] then [x]
    else if key(x) >= key(s[0]) then [x] + s
    else [s[0]] + InsertDesc(x, s[1..], key)
  }

  lemma {:induction false} InsertDescSorted<T>(x: T, s: seq<T>, key: T -> int)
    requires SortedDesc(s, key)
    ensures SortedDesc(InsertDesc(x, s, key), key)
    ensures InsertDesc(x, s, key)[0] == x || (s != [] && InsertDesc(x, s, key)[0] == s[0])
    decreases |s|
  {
    if s != [] && key(x) < key(s[0]) {
      InsertDescSorted(x, s[1..], key);
    }
  }

  /** Inserting adds exactly the one row. */
  lemma {:induction false} InsertDescAdds<T>(x: T, s: seq<T>, key: T -> int)
    ensures multiset(InsertDesc(x, s, key)) == multiset(s) + multiset{x}
    decreases |s|
  {
    if s != [] && key(x) < key(s[0]) {
      InsertDescAdds(x, s[1..], key);
      assert s == [s[0]] + s[1..];
    }
  }

  /**
   * `order(key, { ascending: false })`: the rows, newest first. The order
   * among rows with equal keys is this model's choice, not the database's.
   */
  function SortDesc<T>(s: seq<T>, key: T -> int): (r: seq<T>)
    ensures SortedDesc(r, key)
    ensures multiset(r) == multiset(s)
    decreases |s|
  {
    if s == [] then []
    else
      var rest := SortDesc(s[1..], key);
      InsertDescSorted(s[0], rest, key);
      InsertDescAdds(s[0], rest, key);
      assert s == [s[0]] + s[1..];
      InsertDesc(s[0], rest, key)
  }

  /** `limit(n)`: the first `n` rows, or all of them when there are fewer. */
  function Take<T>(s: seq<T>, n: nat): (r: seq<T>)
    ensures |r| == if n < |s| then n else |s|
    ensures r == s[..|r|]
  {
    if n < |s| then s[..n] else s
  }

  /**
   * `range(from, to)`: the rows at positions `from` to `to` inclusive,
   * clipped at the end of the result set.
   */
  function RangeInclusive<T>(s: seq<T>, from: nat, to: int): (r: seq<T>)
    ensures from <= |s| && from <= to + 1 ==>
      r == s[from..if to + 1 < |s| then to + 1 else |s|]
    ensures |r| <= if to + 1 - from < 0 then 0 else to + 1 - from
  {
    if from >= |s| || to < from then []
    else s[from..if to + 1 < |s| then to + 1 else |s|]
  }

  /** Two consecutive pages of the same size are one page of twice the size. */
  lemma RangeAdjacent<T>(s: seq<T>, offset: nat, limit: nat)
    ensures RangeInclusive(s, offset, offset + limit - 1) + RangeInclusive(s, offset + limit, offset + 2 * limit - 1)
      == RangeInclusive(s, offset, offset + 2 * limit - 1)
  {
    if offset + limit <= |s| {
      var a := RangeInclusive(s, offset, offset + limit - 1);
      var b := RangeInclusive(s, offset + limit, offset + 2 * limit - 1);
      assert a == s[offset..offset + limit];
      var e := if offset + 2 * limit < |s| then offset + 2 * limit else |s|;
      if limit > 0 {
        assert b == s[offset + limit..e];
        assert s[offset..e] == s[offset..offset + limit] + s[offset + limit..e];
      }
    }
  }

  /** In a list sorted newest first, every row from position `k` on is no greater than any row before it. */
  lemma PrefixDominates<T>(s: seq<T>, key: T -> int, k: nat)
    requires SortedDesc(s, key) && k <= |s|
    ensures forall i, x :: 0 <= i < k && x in multiset(s[k..]) ==> key(x) <= key(s[i])
  {
    forall i, x | 0 <= i < k && x in multiset(s[k..])
      ensures key(x) <= key(s[i])
    {
      var j :| 0 <= j < |s[k..]| && s[k..][j] == x;
      SortedDescPairwise(s, key, i, k + j);
    }
  }

  /**
   * The first `n` rows of the descending order are the top `n`: a row left
   * out is no greater than any row kept.
   */
  lemma TakeSortedIsTop<T>(s: seq<T>, key: T -> int, n: nat)
    ensures multiset(Take(SortDesc(s, key), n)) <= multiset(s)
    ensures forall i, x ::
      (0 <= i < |Take(SortDesc(s, key), n)| && x in multiset(s) - multiset(Take(SortDesc(s, key), n))) ==>
        key(x) <= key(Take(SortDesc(s, key), n)[i])
  {
    var sorted := SortDesc(s, key);
    var r := Take(sorted, n);
    var rest := sorted[|r|..];
    assert sorted == r + rest;
    assert multiset(s) - multiset(r) == multiset(rest);
    PrefixDominates(sorted, key, |r|);
  }

  /** A slice of a list sorted newest first is sorted newest first, and holds only rows of the list. */
  lemma RangeOfSorted<T>(s: seq<T>, key: T -> int, from: nat, to: int)
    requires SortedDesc(s, key)
    ensures SortedDesc(RangeInclusive(s, from, to), key)
    ensures forall i :: 0 <= i < |RangeInclusive(s, from, to)| ==> RangeInclusive(s, from, to)[i] in s
  {
    var r := RangeInclusive(s, from, to);
    if r != [] {
      assert forall i :: 0 <= i < |r| ==> r[i] == s[from + i];
    }
  }

  /** Sorting neither adds nor drops a value. */
  lemma SortDescMembers<T>(s: seq<T>, key: T -> int)
    ensures forall x :: x in SortDesc(s, key) <==> x in s
  {
    var r := SortDesc(s, key);
    forall x
      ensures x in r <==> x in s
    {
      assert x in r <==> x in multiset(r);
      assert x in s <==> x in multiset(s);
    }
  }
}
