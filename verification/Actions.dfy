/** The discrete sell fractions, and how a schedule over the original order is chased with them. */
module Actions {
  import opened Arith

  /** The deployed table: each entry is a fraction of the remaining inventory. */
  const ACTION_FRACTIONS: seq<real> :=
    [0.000, 0.001, 0.003, 0.005, 0.008, 0.010, 0.015, 0.020, 0.030, 0.050, 0.070, 0.100, 0.150, 0.200, 0.300, 0.400,
     0.500, 0.700, 0.900, 1.000]

  function ClampUnit(x: real): real {
    Max(0.0, Min(1.0, x))
  }

  /** The first position of a least element. */
  function ArgMin(ds: seq<real>): (k: nat)
    requires ds != []
    ensures k < |ds|
    ensures forall j :: 0 <= j < |ds| ==> ds[k] <= ds[j] && (j < k ==> ds[k] < ds[j])
  {
    var last := |ds| - 1;
    if last == 0 then 0
    else
      var k := ArgMin(ds[..last]);
      if ds[last] < ds[k] then last else k
  }

  function Distances(fractions: seq<real>, target: real): seq<real> {
    seq(|fractions|, i requires 0 <= i < |fractions| => Abs(fractions[i] - target))
  }

  function NearestAction(target: real, fractions: seq<real>): (k: nat)
    requires fractions != []
    ensures k < |fractions|
    ensures forall j :: 0 <= j < |fractions| ==>
              && Abs(fractions[k] - ClampUnit(target)) <= Abs(fractions[j] - ClampUnit(target))
              && (j < k ==> Abs(fractions[k] - ClampUnit(target)) < Abs(fractions[j] - ClampUnit(target)))
  {
    var ds := Distances(fractions, ClampUnit(target));
    var k := ArgMin(ds);
    assert forall j :: 0 <= j < |fractions| ==> ds[j] == Abs(fractions[j] - ClampUnit(target));
    k
  }

  /** An ascending table from nothing to everything, without a gap wider than `gap`. */
  ghost predicate IsTable(fractions: seq<real>, gap: real) {
    && |fractions| >= 2 && fractions[0] == 0.0 && fractions[|fractions| - 1] == 1.0
    && (forall i, j :: 0 <= i <= j < |fractions| ==> fractions[i] <= fractions[j])
    && (forall i :: 0 <= i < |fractions| - 1 ==> fractions[i + 1] - fractions[i] <= gap)
  }

  lemma {:induction false} NeighboursAscend(s: seq<real>, i: nat, j: nat)
    requires forall k :: 0 <= k < |s| - 1 ==> s[k] <= s[k + 1]
    requires i <= j < |s|
    ensures s[i] <= s[j]
  {
    if i < j {
      NeighboursAscend(s, i, j - 1);
    }
  }

  lemma NeighboursSuffice(s: seq<real>, gap: real)
    requires |s| >= 2 && s[0] == 0.0 && s[|s| - 1] == 1.0
    requires forall k :: 0 <= k < |s| - 1 ==> s[k] <= s[k + 1] <= s[k] + gap
    ensures IsTable(s, gap)
  {
    forall i, j | 0 <= i <= j < |s| ensures s[i] <= s[j] {
      NeighboursAscend(s, i, j);
    }
  }

  lemma DeployedTable()
    ensures IsTable(ACTION_FRACTIONS, 0.2)
  {
    hide IsTable;
    NeighboursSuffice(ACTION_FRACTIONS, 0.2);
  }

  /** A larger target never picks an earlier action. */
  lemma NearestIsMonotone(fractions: seq<real>, gap: real, a: real, b: real)
    requires IsTable(fractions, gap) && a <= b
    ensures NearestAction(a, fractions) <= NearestAction(b, fractions)
  {
  }

  lemma {:induction false} Bracket(fractions: seq<real>, x: real, n: nat) returns (k: nat)
    requires 1 < n <= |fractions| && fractions[0] <= x <= fractions[n - 1]
    ensures k + 1 < n && fractions[k] <= x <= fractions[k + 1]
  {
    if n == 2 || fractions[n - 2] <= x {
      k := n - 2;
    } else {
      k := Bracket(fractions, x, n - 1);
    }
  }

  /** Rounding to the table costs at most half its widest gap. */
  lemma RoundingIsHalfGap(fractions: seq<real>, gap: real, target: real)
    requires IsTable(fractions, gap)
    ensures Abs(fractions[NearestAction(target, fractions)] - ClampUnit(target)) <= 0.5 * gap
  {
    var k := Bracket(fractions, ClampUnit(target), |fractions|);
    var a := NearestAction(target, fractions);
    assert Abs(fractions[a] - ClampUnit(target)) <= Abs(fractions[k] - ClampUnit(target));
    assert Abs(fractions[a] - ClampUnit(target)) <= Abs(fractions[k + 1] - ClampUnit(target));
  }

  /** The two ends of the table are hit exactly. */
  lemma EndsAreExact(fractions: seq<real>, gap: real)
    requires IsTable(fractions, gap)
    ensures fractions[NearestAction(0.0, fractions)] == 0.0
    ensures fractions[NearestAction(1.0, fractions)] == 1.0
  {
  }

  // ----- Schedules -----

  /** Round half to even. */
  function Round(x: real): int {
    var low := x.Floor;
    var part := x - low as real;
    if part < 0.5 || (part == 0.5 && low % 2 == 0) then low else low + 1
  }

  /** The nearest whole number, the even one of two as near. */
  lemma RoundIsNearest(x: real)
    ensures Abs(x - Round(x) as real) <= 0.5
    ensures Abs(x - Round(x) as real) == 0.5 ==> Round(x) % 2 == 0
  {
  }

  lemma RoundIsMonotone(x: real, y: real)
    requires x <= y
    ensures Round(x) <= Round(y)
  {
  }

  /** The inventory scheduled to be left after entry `k`; everything before the first entry. */
  function TargetAfter(schedule: seq<real>, k: int): real {
    if k < 0 then 1.0
    else Max(0.0, 1.0 - Sum(schedule[..if k + 1 < |schedule| then k + 1 else |schedule|]))
  }

  /** The fraction of the remaining inventory whose sale brings it down to `after`. */
  function CatchUp(q: real, after: real): real
    requires q > 0.0
  {
    Max(0.0, (q - after) / q)
  }

  function ScheduleTarget(schedule: seq<real>, q: real, t: real, totalSteps: nat, track: bool): real
    requires schedule != [] && 0.0 <= t <= 1.0
  {
    if q <= 0.000001 then 1.0
    else if track then CatchUp(q, TargetAfter(schedule, Round((1.0 - t) * (totalSteps as real))))
    else
      var k := ((1.0 - t) * (totalSteps as real)).Floor;
      Min(1.0, schedule[if 0 <= k < |schedule| then k else |schedule| - 1] / q)
  }

  lemma {:induction false} SumOfLonger(xs: seq<real>, m: nat, n: nat)
    requires NonNegative(xs) && m <= n <= |xs|
    ensures 0.0 <= Sum(xs[..m]) <= Sum(xs[..n])
    decreases n - m
  {
    if m == n {
      SumNonNegative(xs[..m]);
    } else {
      SumOfLonger(xs, m, n - 1);
      assert xs[..n][..n - 1] == xs[..n - 1];
    }
  }

  /** The scheduled path never rises and stays between nothing and everything. */
  lemma TargetFalls(schedule: seq<real>, j: int, k: int)
    requires NonNegative(schedule) && j <= k
    ensures 0.0 <= TargetAfter(schedule, k) <= TargetAfter(schedule, j) <= 1.0
  {
    hide Sum;
    if k >= 0 {
      var n := if k + 1 < |schedule| then k + 1 else |schedule|;
      var m := if j < 0 then 0 else if j + 1 < |schedule| then j + 1 else |schedule|;
      SumOfLonger(schedule, m, n);
    }
  }

  // ----- Closed-loop tracking -----

  /** The inventory after selling exactly what the chosen action says. */
  function Sold(fractions: seq<real>, q: real, target: real): real
    requires fractions != []
  {
    q - Times(fractions[NearestAction(target, fractions)], q)
  }

  lemma SaleHitsPath(q: real, after: real, f: real, half: real)
    requires 0.0 < q <= 1.0 && 0.0 <= after <= q && half >= 0.0
    requires Abs(f - CatchUp(q, after)) <= half
    ensures Abs(q - Times(f, q) - after) <= half
  {
    var x := (q - after) / q;
    assert x >= 0.0;
    assert x * q == q - after;
    var e := x - f;
    TimesSplit(f, e, q);
    if e >= 0.0 {
      TimesMono(q, 1.0, e);
      TimesMono(0.0, e, q);
    } else {
      TimesMono(q, 1.0, -e);
      TimesMono(e, 0.0, q);
      assert Times(e, q) == -Times(q, -e);
    }
    TimesSwap(q, e);
    assert Times(1.0, e) == e && Times(1.0, -e) == -e && Times(0.0, q) == 0.0;
  }

  /** One step: an inventory within half a gap of the path so far is within half a gap of a path that did not rise. */
  lemma TrackingStep(fractions: seq<real>, gap: real, q: real, before: real, after: real)
    requires IsTable(fractions, gap) && 0.0 < q <= 1.0 && 0.0 <= after <= before
    requires before - q <= 0.5 * gap
    ensures var next := Sold(fractions, q, CatchUp(q, after));
            0.0 <= next <= q && Abs(next - after) <= 0.5 * gap
  {
    hide Times, NearestAction;
    var f := fractions[NearestAction(CatchUp(q, after), fractions)];
    assert 0.0 <= f <= 1.0;
    TimesMono(f, 1.0, q);
    TimesMono(0.0, f, q);
    TimesZero(q);
    TimesOne(q);
    RoundingIsHalfGap(fractions, gap, CatchUp(q, after));
    EndsAreExact(fractions, gap);
    if after <= q {
      CatchUpIsFraction(q, after);
      SaleHitsPath(q, after, f, 0.5 * gap);
    } else {
      CatchUpWaits(q, after);
    }
  }

  lemma CatchUpIsFraction(q: real, after: real)
    requires q > 0.0 && 0.0 <= after <= q
    ensures 0.0 <= CatchUp(q, after) <= 1.0 && ClampUnit(CatchUp(q, after)) == CatchUp(q, after)
  {
  }

  lemma CatchUpWaits(q: real, after: real)
    requires q > 0.0 && after >= q
    ensures CatchUp(q, after) == 0.0
  {
  }

  lemma CatchUpRises(q: real, a: real, b: real)
    requires q > 0.0 && a <= b
    ensures CatchUp(q, b) <= CatchUp(q, a)
  {
  }
}
