/** Picking the best supplier. The analysis handler sorts the scored records
    by ascending `riskPercentage` (a stable sort) and takes the head; the
    detailed handler folds the adjusted list with a strict `<`, starting from
    its first element, which keeps the first record of minimal risk. */
module Selection {
  import opened Wrappers
  import opened SupplierRisk

  /** The handler's error when there is nothing to choose from. */
  datatype SelectError = NoSuppliers

  predicate SortedByRisk(s: seq<Analysis>) {
    forall i, j :: 0 <= i < j < |s| ==> s[i].riskPercentage <= s[j].riskPercentage
  }

  /** Index k holds a minimal risk and every earlier record is strictly riskier. */
  predicate IsFirstMin(s: seq<Analysis>, k: int) {
    && 0 <= k < |s|
    && (forall j :: 0 <= j < |s| ==> s[k].riskPercentage <= s[j].riskPercentage)
    && (forall j :: 0 <= j < k ==> s[j].riskPercentage > s[k].riskPercentage)
  }

  /** Reference definition of the position of the first minimal-risk record. */
  function FirstMinIndex(s: seq<Analysis>): (k: nat)
    requires |s| > 0
    ensures IsFirstMin(s, k)
  {
    if |s| == 1 then 0
    else
      var k := FirstMinIndex(s[1..]);
      if s[0].riskPercentage <= s[1 + k].riskPercentage then 0 else 1 + k
  }

  /** At most one index is the first minimum. */
  lemma FirstMinUnique(s: seq<Analysis>, k: int, m: int)
    requires IsFirstMin(s, k) && IsFirstMin(s, m)
    ensures k == m
  {
    assert s[k].riskPercentage == s[m].riskPercentage;
  }

  // ---------------------------------------------------------------------
  // Stable sort of the scored records by ascending risk
  // ---------------------------------------------------------------------

  /** Place x in front of the first record that is not less risky than it. */
  function Insert(x: Analysis, s: seq<Analysis>): (r: seq<Analysis>)
    requires SortedByRisk(s)
    ensures SortedByRisk(r)
    ensures multiset(r) == multiset(s) + multiset{x}
    ensures |r| == |s| + 1
    ensures r[0] == x || (|s| > 0 && r[0] == s[0])
  {
    if |s| == 0 || x.riskPercentage <= s[0].riskPercentage then
      [x] + s
    else
      var t := Insert(x, s[1..]);
      assert s == [s[0]] + s[1..];
      [s[0]] + t
  }

  /** Stable insertion sort: records of equal risk keep their input order. */
  function SortByRisk(s: seq<Analysis>): (r: seq<Analysis>)
    ensures SortedByRisk(r)
    ensures multiset(r) == multiset(s)
    ensures |r| == |s|
  {
    if |s| == 0 then []
    else
      assert s == [s[0]] + s[1..];
      Insert(s[0], SortByRisk(s[1..]))
  }

  /** Every record of the sorted list comes from the input and vice versa. */
  lemma SortedIsPermutation(s: seq<Analysis>, x: Analysis)
    ensures x in SortByRisk(s) <==> x in s
  {
    assert x in SortByRisk(s) <==> x in multiset(SortByRisk(s));
    assert x in s <==> x in multiset(s);
  }

  /** The records of s whose risk equals v, in their order in s. */
  function WithRisk(s: seq<Analysis>, v: real): seq<Analysis> {
    if |s| == 0 then []
    else (if s[0].riskPercentage == v then [s[0]] else []) + WithRisk(s[1..], v)
  }

  lemma {:induction false} InsertKeepsTies(x: Analysis, t: seq<Analysis>, v: real)
    requires SortedByRisk(t)
    ensures WithRisk(Insert(x, t), v) == (if x.riskPercentage == v then [x] else []) + WithRisk(t, v)
    decreases |t|
  {
    var r := Insert(x, t);
    var own := if x.riskPercentage == v then [x] else [];
    if |t| == 0 || x.riskPercentage <= t[0].riskPercentage {
      assert r == [x] + t;
      assert r[1..] == t;
      assert WithRisk(r, v) == own + WithRisk(r[1..], v);
    } else {
      var t0 := t[0];
      var head := if t0.riskPercentage == v then [t0] else [];
      var rest := Insert(x, t[1..]);
      assert r == [t0] + rest;
      assert r[1..] == rest;
      InsertKeepsTies(x, t[1..], v);
      assert WithRisk(r, v) == head + (own + WithRisk(t[1..], v));
      assert WithRisk(t, v) == head + WithRisk(t[1..], v);
      assert head == [] || own == [];
    }
  }

  /** The sort is stable: for every risk value, the records carrying it
      appear in the output in the same order as in the input. */
  lemma {:induction false} SortIsStable(s: seq<Analysis>, v: real)
    ensures WithRisk(SortByRisk(s), v) == WithRisk(s, v)
  {
    if |s| > 0 {
      SortIsStable(s[1..], v);
      InsertKeepsTies(s[0], SortByRisk(s[1..]), v);
    }
  }

  /** The head of the sorted list is the first minimal-risk record of the
      input: the sort's stability decides ties the same way as the fold. */
  lemma {:induction false} SortHeadIsFirstMin(s: seq<Analysis>)
    requires |s| > 0
    ensures SortByRisk(s)[0] == s[FirstMinIndex(s)]
  {
    if |s| > 1 {
      var rest := s[1..];
      var sorted := SortByRisk(rest);
      SortHeadIsFirstMin(rest);
      var k := FirstMinIndex(rest);
      var m := FirstMinIndex(s);
      assert sorted[0] == rest[k];
      assert SortByRisk(s)[0] == InsertHead(s[0], sorted);
      if s[0].riskPercentage <= rest[k].riskPercentage {
        assert IsFirstMin(s, 0);
        FirstMinUnique(s, 0, m);
      } else {
        assert IsFirstMin(s, 1 + k);
        FirstMinUnique(s, 1 + k, m);
      }
    }
  }

  /** The head of Insert(x, t), read off without unfolding the insertion. */
  function InsertHead(x: Analysis, t: seq<Analysis>): (h: Analysis)
    requires SortedByRisk(t)
    ensures h == Insert(x, t)[0]
  {
    if |t| == 0 || x.riskPercentage <= t[0].riskPercentage then x else t[0]
  }

  // ---------------------------------------------------------------------
  // Left fold that replaces the incumbent only by a strictly less risky record
  // ---------------------------------------------------------------------

  /** The reduce callback folded over s, starting from best: the result is
      the seed or one of the records, and no riskier than any of them. */
  function FoldBest(best: Analysis, s: seq<Analysis>): (b: Analysis)
    ensures b == best || b in s
    ensures b.riskPercentage <= best.riskPercentage
    ensures forall j :: 0 <= j < |s| ==> b.riskPercentage <= s[j].riskPercentage
    decreases |s|
  {
    if |s| == 0 then best
    else
      var next := if s[0].riskPercentage < best.riskPercentage then s[0] else best;
      var b := FoldBest(next, s[1..]);
      assert forall j :: 1 <= j < |s| ==> s[j] == s[1..][j - 1];
      b
  }

  /** The fold keeps its seed unless some record is strictly less risky, and
      otherwise returns the first record of the least risk. */
  lemma {:induction false} FoldBestSpec(best: Analysis, s: seq<Analysis>)
    ensures var b := FoldBest(best, s);
      && (b == best || b in s)
      && b.riskPercentage <= best.riskPercentage
      && (forall j :: 0 <= j < |s| ==> b.riskPercentage <= s[j].riskPercentage)
      && (b != best ==> exists k :: IsFirstMin(s, k) && s[k] == b && s[k].riskPercentage < best.riskPercentage)
      && (b == best ==> forall j :: 0 <= j < |s| ==> best.riskPercentage <= s[j].riskPercentage)
    decreases |s|
  {
    if |s| > 0 {
      var next := if s[0].riskPercentage < best.riskPercentage then s[0] else best;
      FoldBestSpec(next, s[1..]);
      var b := FoldBest(next, s[1..]);
      assert b == FoldBest(best, s);
      if b != next {
        var k :| IsFirstMin(s[1..], k) && s[1..][k] == b && s[1..][k].riskPercentage < next.riskPercentage;
        assert IsFirstMin(s, 1 + k);
      } else if next == s[0] && next != best {
        assert IsFirstMin(s, 0);
      }
    }
  }

  /** The reduce exactly as the handler calls it, seeded with the first
      record: it returns a record of the list with the least risk. */
  function ReduceBest(s: seq<Analysis>): (b: Analysis)
    requires |s| > 0
    ensures b in s
    ensures forall j :: 0 <= j < |s| ==> b.riskPercentage <= s[j].riskPercentage
  {
    FoldBest(s[0], s)
  }

  /** The reduce returns the first record of minimal risk. */
  lemma ReduceIsFirstMin(s: seq<Analysis>)
    requires |s| > 0
    ensures ReduceBest(s) == s[FirstMinIndex(s)]
  {
    FoldBestSpec(s[0], s);
    var b := ReduceBest(s);
    if b == s[0] {
      assert IsFirstMin(s, 0);
      FirstMinUnique(s, 0, FirstMinIndex(s));
    } else {
      var k :| IsFirstMin(s, k) && s[k] == b && s[k].riskPercentage < s[0].riskPercentage;
      FirstMinUnique(s, k, FirstMinIndex(s));
    }
  }

  /** Both ways of choosing agree: sorting and taking the head gives the same
      record as the reduce. */
  lemma SortAndReduceAgree(s: seq<Analysis>)
    requires |s| > 0
    ensures SortByRisk(s)[0] == ReduceBest(s)
  {
    SortHeadIsFirstMin(s);
    ReduceIsFirstMin(s);
  }

  /** The detailed handler's choice: an empty list is an error, otherwise the
      reduce runs left to right keeping the incumbent on ties. */
  method SelectBest(s: seq<Analysis>) returns (r: Result<Analysis, SelectError>)
    ensures r.Failure? <==> |s| == 0
    ensures r.Failure? ==> r.error == NoSuppliers
    ensures r.Success? ==> r.value == s[FirstMinIndex(s)]
  {
    if |s| == 0 {
      return Failure(NoSuppliers);
    }
    var b := 0;
    var i := 0;
    while i < |s|
      invariant 0 <= i <= |s|
      invariant 0 <= b < |s| && (b < i || b == 0)
      invariant forall j :: 0 <= j < i ==> s[b].riskPercentage <= s[j].riskPercentage
      invariant forall j :: 0 <= j < b ==> s[j].riskPercentage > s[b].riskPercentage
    {
      if s[i].riskPercentage < s[b].riskPercentage {
        b := i;
      }
      i := i + 1;
    }
    FirstMinUnique(s, b, FirstMinIndex(s));
    return Success(s[b]);
  }
}
