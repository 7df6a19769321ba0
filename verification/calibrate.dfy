/** Threshold calibration. Confidences and thresholds are reals; a sample's rows carry what each head said and
    whether it was right. */
module Calibrate {
  import opened Options

  datatype Sample = Sample(catConf: real, priConf: real, catOk: bool, priOk: bool)

  datatype Row = Row(threshold: real, reviewRate: real, autoErrorRate: Option<real>, nAuto: nat, nReview: nat)

  const MAX_AUTO_ERROR: real := 0.08
  const FALLBACK_THRESHOLD: real := 0.60

  predicate Auto(x: Sample, t: real) { x.catConf >= t && x.priConf >= t }

  predicate Wrong(x: Sample) { !(x.catOk && x.priOk) }

  /** The positions of the sample that are accepted without review at threshold t. */
  ghost function AutoSet(xs: seq<Sample>, t: real): (s: set<nat>)
    ensures forall i: nat :: i in s <==> i < |xs| && Auto(xs[i], t)
  {
    set i: nat | i < |xs| && Auto(xs[i], t)
  }

  function CountAuto(xs: seq<Sample>, t: real): nat {
    if xs == [] then 0 else CountAuto(xs[..|xs| - 1], t) + if Auto(xs[|xs| - 1], t) then 1 else 0
  }

  function CountWrong(xs: seq<Sample>, t: real): nat {
    if xs == [] then 0
    else CountWrong(xs[..|xs| - 1], t) + if Auto(xs[|xs| - 1], t) && Wrong(xs[|xs| - 1]) then 1 else 0
  }

  function RowAt(xs: seq<Sample>, t: real): Row
    requires xs != []
  {
    var auto := CountAuto(xs, t);
    var review := if auto <= |xs| then |xs| - auto else 0;
    Row(t, review as real / |xs| as real,
        if auto == 0 then None else Some(CountWrong(xs, t) as real / auto as real), auto, review)
  }

  /** sweep_threshold: one row per threshold, in the thresholds' order. */
  method SweepThreshold(xs: seq<Sample>, thresholds: seq<real>) returns (rows: seq<Row>)
    requires xs != []
    ensures |rows| == |thresholds| && forall k :: 0 <= k < |rows| ==> rows[k] == RowAt(xs, thresholds[k])
  {
    rows := [];
    for k := 0 to |thresholds|
      invariant |rows| == k && forall j :: 0 <= j < k ==> rows[j] == RowAt(xs, thresholds[j])
    {
      var t := thresholds[k];
      var auto, review, wrong: nat := 0, 0, 0;
      for i := 0 to |xs|
        invariant auto == CountAuto(xs[..i], t) && wrong == CountWrong(xs[..i], t) && auto + review == i
      {
        assert xs[..i + 1][..i] == xs[..i];
        if Auto(xs[i], t) {
          auto := auto + 1;
          if Wrong(xs[i]) { wrong := wrong + 1; }
        } else {
          review := review + 1;
        }
      }
      assert xs[..|xs|] == xs;
      rows := rows + [Row(t, review as real / |xs| as real,
                          if auto == 0 then None else Some(wrong as real / auto as real), auto, review)];
    }
  }

  predicate Candidate(r: Row, budget: real) { r.autoErrorRate.Some? && r.autoErrorRate.value <= budget }

  function Candidates(rows: seq<Row>, budget: real): (cs: seq<Row>)
    ensures forall r :: r in cs <==> r in rows && Candidate(r, budget)
  {
    if rows == [] then [] else (if Candidate(rows[0], budget) then [rows[0]] else []) + Candidates(rows[1..], budget)
  }

  /** The key (review rate, -threshold), compared lexicographically. */
  predicate KeyLess(a: Row, b: Row) {
    a.reviewRate < b.reviewRate || (a.reviewRate == b.reviewRate && a.threshold > b.threshold)
  }

  /** Python's min(rows, key=...): the first row no other row beats. */
  function MinRow(rows: seq<Row>): (r: Row)
    requires rows != []
    ensures r in rows && forall o :: o in rows ==> !KeyLess(o, r)
  {
    if |rows| == 1 then rows[0]
    else
      var rest := MinRow(rows[1..]);
      assert forall o :: o in rows ==> o == rows[0] || o in rows[1..];
      if KeyLess(rest, rows[0]) then rest else rows[0]
  }

  function ChooseThreshold(rows: seq<Row>, budget: real): real {
    var cs := Candidates(rows, budget);
    if cs == [] then FALLBACK_THRESHOLD else MinRow(cs).threshold
  }

  // ------------------------------------------------------------ temperature

  /** fit_temperature: a grid search that keeps the first temperature with the smallest loss. */
  method FitTemperature(grid: seq<real>, loss: real -> real) returns (best: real)
    ensures grid == [] ==> best == 1.0
    ensures grid != [] ==> exists k :: 0 <= k < |grid| && best == grid[k] && IsFirstMinimum(grid, loss, k)
  {
    best := 1.0;
    var bestLoss: Option<real> := None;
    ghost var at := 0;
    for k := 0 to |grid|
      invariant k == 0 ==> best == 1.0 && bestLoss == None
      invariant k > 0 ==>
        at < k && best == grid[at] && bestLoss == Some(loss(grid[at])) && IsFirstMinimum(grid[..k], loss, at)
    {
      var l := loss(grid[k]);
      if bestLoss.None? || l < bestLoss.value {
        best, bestLoss, at := grid[k], Some(l), k;
      }
    }
    assert grid[..|grid|] == grid;
  }

  ghost predicate IsFirstMinimum(grid: seq<real>, loss: real -> real, k: nat)
    requires k < |grid|
  {
    && (forall j :: 0 <= j < |grid| ==> loss(grid[k]) <= loss(grid[j]))
    && forall j :: 0 <= j < k ==> loss(grid[k]) < loss(grid[j])
  }

  // ------------------------------------------------------------------ counts

  lemma {:induction false} CountsAreSizes(xs: seq<Sample>, t: real)
    ensures CountAuto(xs, t) == |AutoSet(xs, t)| <= |xs| && CountWrong(xs, t) <= CountAuto(xs, t)
  {
    if xs == [] {
      assert AutoSet(xs, t) == {};
    } else {
      var init, n := xs[..|xs| - 1], |xs| - 1;
      CountsAreSizes(init, t);
      assert AutoSet(xs, t) == AutoSet(init, t) + if Auto(xs[n], t) then {n} else {};
    }
  }

  /** Accepted and wrong in either head. */
  ghost function ErrorSet(xs: seq<Sample>, t: real): (s: set<nat>)
    ensures forall i: nat :: i in s <==>
      i < |xs| && xs[i].catConf >= t && xs[i].priConf >= t && (!xs[i].catOk || !xs[i].priOk)
  {
    set i: nat | i < |xs| && Auto(xs[i], t) && Wrong(xs[i])
  }

  lemma {:induction false} ErrorsAreSizes(xs: seq<Sample>, t: real)
    ensures CountWrong(xs, t) == |ErrorSet(xs, t)|
  {
    if xs == [] {
      assert ErrorSet(xs, t) == {};
    } else {
      var init, n := xs[..|xs| - 1], |xs| - 1;
      ErrorsAreSizes(init, t);
      assert ErrorSet(xs, t) == ErrorSet(init, t) + if Auto(xs[n], t) && Wrong(xs[n]) then {n} else {};
    }
  }

  /** What a row says. Accepted without review is a sample on which neither head is below the threshold; it counts as
      an error if either head was wrong. */
  lemma RowMeans(xs: seq<Sample>, t: real)
    requires xs != []
    ensures var r := RowAt(xs, t);
      && (forall i: nat :: i in AutoSet(xs, t) <==> i < |xs| && t <= xs[i].catConf && t <= xs[i].priConf)
      && r.threshold == t && r.nAuto == |AutoSet(xs, t)| && r.nReview == |xs| - r.nAuto
      && r.reviewRate * |xs| as real == r.nReview as real
      && (r.nAuto == 0 ==> r.autoErrorRate == None)
      && (r.nAuto > 0 ==>
            r.autoErrorRate.Some? && r.autoErrorRate.value * r.nAuto as real == |ErrorSet(xs, t)| as real)
  {
    CountsAreSizes(xs, t);
    ErrorsAreSizes(xs, t);
    DivideBack(RowAt(xs, t).nReview as real, |xs| as real);
    if CountAuto(xs, t) > 0 { DivideBack(CountWrong(xs, t) as real, CountAuto(xs, t) as real); }
  }

  lemma DivideBack(a: real, n: real)
    requires n > 0.0
    ensures a / n * n == a
  {
  }

  lemma CandidateMeans(r: Row, wrong: nat, budget: real)
    requires r.nAuto == 0 ==> r.autoErrorRate == None
    requires r.nAuto > 0 ==> r.autoErrorRate.Some? && r.autoErrorRate.value * r.nAuto as real == wrong as real
    ensures Candidate(r, budget) <==> r.nAuto > 0 && wrong as real <= budget * r.nAuto as real
  {
    if r.nAuto > 0 { RateWithin(r.autoErrorRate.value, wrong as real, r.nAuto as real, budget); }
  }

  lemma RateWithin(rate: real, wrong: real, n: real, budget: real)
    requires n > 0.0 && rate * n == wrong
    ensures rate <= budget <==> wrong <= budget * n
  {
    if rate <= budget { assert rate * n <= budget * n; }
    if rate > budget { assert rate * n > budget * n; }
  }

  /** A threshold is within the budget exactly if it accepts something and its errors are at most that share of it. */
  lemma WithinBudgetMeans(xs: seq<Sample>, t: real, budget: real)
    requires xs != []
    ensures WithinBudget(xs, t, budget) <==>
      AutoSet(xs, t) != {} && |ErrorSet(xs, t)| as real <= budget * |AutoSet(xs, t)| as real
  {
    RowMeans(xs, t);
    CandidateMeans(RowAt(xs, t), |ErrorSet(xs, t)|, budget);
  }

  /** Every row splits the sample: accepted and reviewed add up. */
  lemma RowsSplitTheSample(xs: seq<Sample>, t: real)
    requires xs != []
    ensures var r := RowAt(xs, t);
      r.nAuto + r.nReview == |xs| && r.nAuto == |AutoSet(xs, t)| && (r.autoErrorRate == None <==> AutoSet(xs, t) == {})
  {
    CountsAreSizes(xs, t);
  }

  /** Raising the threshold only takes positions out of the auto-accept set. */
  lemma AutoSetsNest(xs: seq<Sample>, t: real, t': real)
    requires t <= t'
    ensures AutoSet(xs, t') <= AutoSet(xs, t)
  {
  }

  lemma SubsetsOfOneSize(a: set<nat>, b: set<nat>)
    requires a <= b && |a| == |b|
    ensures a == b
  {
    assert b == a + (b - a);
    assert |b| == |a| + |b - a|;
  }

  lemma SubsetSize(a: set<nat>, b: set<nat>)
    requires a <= b
    ensures |a| <= |b|
  {
    assert b == a + (b - a);
  }

  /** Comparing review rates is comparing how many were accepted. */
  lemma RatesCompareCounts(xs: seq<Sample>, t: real, t': real)
    requires xs != []
    ensures RowAt(xs, t).reviewRate <= RowAt(xs, t').reviewRate <==> |AutoSet(xs, t)| >= |AutoSet(xs, t')|
  {
    CountsAreSizes(xs, t);
    CountsAreSizes(xs, t');
    DivideCompares((|xs| - CountAuto(xs, t)) as real, (|xs| - CountAuto(xs, t')) as real, |xs| as real);
  }

  lemma DivideCompares(a: real, b: real, n: real)
    requires n > 0.0
    ensures a / n <= b / n <==> a <= b
  {
  }

  lemma {:induction false} WrongDependsOnSet(xs: seq<Sample>, t: real, t': real)
    requires AutoSet(xs, t) == AutoSet(xs, t')
    ensures CountAuto(xs, t) == CountAuto(xs, t') && CountWrong(xs, t) == CountWrong(xs, t')
  {
    if xs != [] {
      var init, n := xs[..|xs| - 1], |xs| - 1;
      assert Auto(xs[n], t) <==> Auto(xs[n], t') by { assert n in AutoSet(xs, t) <==> n in AutoSet(xs, t'); }
      forall i ensures i in AutoSet(init, t) <==> i in AutoSet(init, t') {
        assert i in AutoSet(xs, t) <==> i in AutoSet(xs, t');
        if 0 <= i < n { assert init[i] == xs[i]; }
      }
      WrongDependsOnSet(init, t, t');
    }
  }

  // ------------------------------------------------------------- the choice

  ghost predicate Ascending(ts: seq<real>) {
    forall i, j :: 0 <= i < j < |ts| ==> ts[i] < ts[j]
  }

  predicate WithinBudget(xs: seq<Sample>, t: real, budget: real)
    requires xs != []
  {
    Candidate(RowAt(xs, t), budget)
  }

  /** k is the lowest swept threshold whose error rate is within the budget. */
  ghost predicate LowestWithin(xs: seq<Sample>, ts: seq<real>, budget: real, k: nat)
    requires xs != []
  {
    k < |ts| && WithinBudget(xs, ts[k], budget) && forall j :: 0 <= j < k ==> !WithinBudget(xs, ts[j], budget)
  }

  function Rows(xs: seq<Sample>, ts: seq<real>): (rows: seq<Row>)
    requires xs != []
    ensures |rows| == |ts| && forall k :: 0 <= k < |rows| ==> rows[k] == RowAt(xs, ts[k])
  {
    seq(|ts|, k requires 0 <= k < |ts| => RowAt(xs, ts[k]))
  }

  /** Thresholds with one auto-accept set have one row, but for the threshold itself. */
  lemma SameSetSameRow(xs: seq<Sample>, t: real, t': real)
    requires xs != [] && AutoSet(xs, t) == AutoSet(xs, t')
    ensures RowAt(xs, t') == RowAt(xs, t).(threshold := t')
  {
    WrongDependsOnSet(xs, t, t');
  }

  lemma WinnerHasLowestSet(xs: seq<Sample>, ts: seq<real>, budget: real, lo: nat, win: nat)
    requires xs != [] && Ascending(ts) && LowestWithin(xs, ts, budget, lo)
    requires win < |ts| && WithinBudget(xs, ts[win], budget) && !KeyLess(RowAt(xs, ts[lo]), RowAt(xs, ts[win]))
    ensures lo <= win && AutoSet(xs, ts[win]) == AutoSet(xs, ts[lo])
  {
    assert lo <= win;
    if lo < win { assert ts[lo] < ts[win]; }
    AutoSetsNest(xs, ts[lo], ts[win]);
    RatesCompareCounts(xs, ts[win], ts[lo]);
    RatesCompareCounts(xs, ts[lo], ts[win]);
    SubsetSize(AutoSet(xs, ts[win]), AutoSet(xs, ts[lo]));
    SubsetsOfOneSize(AutoSet(xs, ts[win]), AutoSet(xs, ts[lo]));
  }

  /** Main result. Over an ascending sweep, the chosen threshold is the largest swept one whose auto-accept set equals
      that of the lowest threshold within the budget. */
  lemma ChoiceIsLargestEquivalent(xs: seq<Sample>, ts: seq<real>, budget: real, lo: nat) returns (win: nat)
    requires xs != [] && Ascending(ts) && LowestWithin(xs, ts, budget, lo)
    ensures lo <= win < |ts| && ChooseThreshold(Rows(xs, ts), budget) == ts[win]
    ensures forall j :: 0 <= j < |ts| && AutoSet(xs, ts[j]) == AutoSet(xs, ts[lo]) ==> ts[j] <= ts[win]
    ensures AutoSet(xs, ts[win]) == AutoSet(xs, ts[lo])
  {
    var rows := Rows(xs, ts);
    var cs := Candidates(rows, budget);
    assert rows[lo] in cs;
    var r := MinRow(cs);
    win :| 0 <= win < |rows| && rows[win] == r;
    assert !KeyLess(rows[lo], r);
    WinnerHasLowestSet(xs, ts, budget, lo, win);
    forall j | 0 <= j < |ts| && AutoSet(xs, ts[j]) == AutoSet(xs, ts[lo]) ensures ts[j] <= ts[win] {
      SameSetSameRow(xs, ts[lo], ts[j]);
      SameSetSameRow(xs, ts[lo], ts[win]);
      assert rows[j] in cs && !KeyLess(rows[j], r);
    }
  }

  lemma {:induction false} NoCandidates(rows: seq<Row>, budget: real)
    requires forall r :: r in rows ==> !Candidate(r, budget)
    ensures Candidates(rows, budget) == []
  {
    if rows != [] { NoCandidates(rows[1..], budget); }
  }

  /** With no threshold within the budget, the fallback. */
  lemma FallbackWhenNoneQualifies(xs: seq<Sample>, ts: seq<real>, budget: real)
    requires xs != [] && forall k :: 0 <= k < |ts| ==> !WithinBudget(xs, ts[k], budget)
    ensures ChooseThreshold(Rows(xs, ts), budget) == 0.60
  {
  }

  /** With any threshold within the budget, in whatever order they were swept, one of those. */
  lemma ChoiceIsWithinBudget(xs: seq<Sample>, ts: seq<real>, budget: real, k: nat) returns (win: nat)
    requires xs != [] && k < |ts| && WithinBudget(xs, ts[k], budget)
    ensures win < |ts| && WithinBudget(xs, ts[win], budget) && ChooseThreshold(Rows(xs, ts), budget) == ts[win]
  {
    var rows := Rows(xs, ts);
    var cs := Candidates(rows, budget);
    assert rows[k] in cs;
    var r := MinRow(cs);
    win :| 0 <= win < |rows| && rows[win] == r;
  }

  /** The chosen threshold need not be the lowest one within the budget: one sample accepted throughout, two thresholds,
      and the higher is returned. */
  lemma NotTheLowest() returns (xs: seq<Sample>, ts: seq<real>)
    ensures xs != [] && Ascending(ts) && LowestWithin(xs, ts, MAX_AUTO_ERROR, 0)
    ensures ChooseThreshold(Rows(xs, ts), MAX_AUTO_ERROR) > ts[0]
  {
    xs, ts := [Sample(0.95, 0.95, true, true)], [0.4, 0.42];
    assert xs[..0] == [];
    assert CountAuto(xs, 0.4) == 1 && CountWrong(xs, 0.4) == 0;
    assert RowAt(xs, 0.4).autoErrorRate == Some(0.0);
    var win := ChoiceIsLargestEquivalent(xs, ts, MAX_AUTO_ERROR, 0);
    assert AutoSet(xs, ts[1]) == AutoSet(xs, ts[0]);
  }

  /** Threshold j is the largest swept one whose auto-accept set is that of the lowest threshold within the budget. */
  ghost predicate LargestEquivalent(xs: seq<Sample>, ts: seq<real>, budget: real, lo: nat, j: int)
    requires xs != []
  {
    && LowestWithin(xs, ts, budget, lo) && 0 <= j < |ts| && AutoSet(xs, ts[j]) == AutoSet(xs, ts[lo])
    && forall i :: 0 <= i < |ts| && AutoSet(xs, ts[i]) == AutoSet(xs, ts[lo]) ==> ts[i] <= ts[j]
  }

  ghost predicate SweepChooses(xs: seq<Sample>, ts: seq<real>, budget: real, t: real)
    requires xs != []
  {
    exists lo: nat, j :: LargestEquivalent(xs, ts, budget, lo, j) && ts[j] == t
  }

  lemma {:induction false} LowestExists(xs: seq<Sample>, ts: seq<real>, budget: real, k: nat) returns (lo: nat)
    requires xs != [] && k < |ts| && WithinBudget(xs, ts[k], budget)
    ensures LowestWithin(xs, ts, budget, lo)
  {
    if i :| 0 <= i < k && WithinBudget(xs, ts[i], budget) {
      lo := LowestExists(xs, ts, budget, i);
    } else {
      lo := k;
    }
  }

  /** The answer 0.60 means one of two things: no threshold is within the budget, or 0.60 itself was swept and
      chosen. */
  lemma FallbackExactly(xs: seq<Sample>, ts: seq<real>, budget: real)
    requires xs != [] && Ascending(ts)
    ensures ChooseThreshold(Rows(xs, ts), budget) == FALLBACK_THRESHOLD <==>
      (forall k :: 0 <= k < |ts| ==> !WithinBudget(xs, ts[k], budget)) ||
        SweepChooses(xs, ts, budget, FALLBACK_THRESHOLD)
  {
    if k :| 0 <= k < |ts| && WithinBudget(xs, ts[k], budget) {
      var lo := LowestExists(xs, ts, budget, k);
      var win := ChoiceIsLargestEquivalent(xs, ts, budget, lo);
      assert LargestEquivalent(xs, ts, budget, lo, win);
      if SweepChooses(xs, ts, budget, FALLBACK_THRESHOLD) {
        var lo': nat, j :| LargestEquivalent(xs, ts, budget, lo', j) && ts[j] == FALLBACK_THRESHOLD;
        assert lo' == lo;
      }
    } else {
      FallbackWhenNoneQualifies(xs, ts, budget);
    }
  }

  /** The second happens: one sample, 0.60 the only threshold, within the budget and chosen. */
  lemma SweptSixty() returns (xs: seq<Sample>, ts: seq<real>)
    ensures xs != [] && |ts| == 1 && WithinBudget(xs, ts[0], MAX_AUTO_ERROR)
    ensures ChooseThreshold(Rows(xs, ts), MAX_AUTO_ERROR) == FALLBACK_THRESHOLD == ts[0]
  {
    xs, ts := [Sample(0.95, 0.95, true, true)], [0.60];
    assert xs[..0] == [];
    assert CountAuto(xs, 0.60) == 1 && CountWrong(xs, 0.60) == 0;
    assert RowAt(xs, 0.60).autoErrorRate == Some(0.0);
    var win := ChoiceIsWithinBudget(xs, ts, MAX_AUTO_ERROR, 0);
  }
}
