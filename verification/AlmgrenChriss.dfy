/** The Almgren-Chriss schedule: how it is built, when it sells the whole order, and what following it does. */
module AlmgrenChriss {
  import opened Arith
  import opened Actions
  import opened Rate

  const TINY := 0.0000000001

  // ----- The inventory curve -----

  /** What is used of the exponential. */
  ghost predicate IsExponential(exp: real -> real) {
    && exp(0.0) == 1.0
    && (forall x :: exp(x) > 0.0)
    && (forall x, y :: x < y ==> exp(x) < exp(y))
    && (forall x, y :: exp(x + y) == Times(exp(x), exp(y)))
  }

  lemma ExpRises(exp: real -> real, x: real, y: real)
    requires IsExponential(exp) && x < y
    ensures 0.0 < exp(x) < exp(y) && exp(0.0) == 1.0
  {
  }

  lemma ExpOfSum(exp: real -> real, x: real, y: real)
    requires IsExponential(exp)
    ensures exp(x + y) == Times(exp(x), exp(y)) && exp(0.0) == 1.0
  {
  }

  function Sinh(exp: real -> real, x: real): real {
    0.5 * (exp(x) - exp(-x))
  }

  lemma SinhRises(exp: real -> real, x: real, y: real)
    requires IsExponential(exp) && 0.0 <= x <= y
    ensures 0.0 <= Sinh(exp, x) <= Sinh(exp, y)
    ensures x == 0.0 ==> Sinh(exp, x) == 0.0
    ensures x > 0.0 ==> Sinh(exp, x) > 0.0
  {
    hide IsExponential;
    if x < y {
      ExpRises(exp, x, y);
      ExpRises(exp, -y, -x);
    }
    if x > 0.0 {
      ExpRises(exp, -x, x);
    }
  }

  /** A ratio of hyperbolic sines, in a form that never overflows when the arguments are large. */
  function SinhRatio(exp: real -> real, x: real, y: real): real
    requires IsExponential(exp) && y >= 0.0
  {
    if y > 20.0 then
      ExpRises(exp, -2.0 * y, 0.0);
      exp(x - y) * (1.0 - exp(-2.0 * x)) / (1.0 - exp(-2.0 * y))
    else
      SinhRises(exp, 0.0, y);
      Sinh(exp, x) / (Sinh(exp, y) + TINY)
  }

  /** What the hyperbolic sine is divided by. */
  function Scale(exp: real -> real, y: real): real {
    if y > 20.0 then Sinh(exp, y) else Sinh(exp, y) + TINY
  }

  /** Both forms are the ratio, exactly for large arguments and up to the guard against a zero divisor for others. */
  lemma RatioIs(exp: real -> real, x: real, y: real)
    requires IsExponential(exp) && y >= 0.0
    ensures Scale(exp, y) > 0.0 && SinhRatio(exp, x, y) == Sinh(exp, x) / Scale(exp, y)
  {
    hide IsExponential;
    SinhRises(exp, y, y);
    if y > 20.0 {
      StableFormIsRatio(exp, x, y);
    }
  }

  lemma StableFormIsRatio(exp: real -> real, x: real, y: real)
    requires IsExponential(exp) && y > 0.0
    ensures Sinh(exp, y) > 0.0 && exp(-2.0 * y) < 1.0
    ensures exp(x - y) * (1.0 - exp(-2.0 * x)) / (1.0 - exp(-2.0 * y)) == Sinh(exp, x) / Sinh(exp, y)
  {
    hide IsExponential, Times;
    SinhRises(exp, y, y);
    ExpRises(exp, -2.0 * y, 0.0);
    ExpRises(exp, -y, y);
    ExpOfSum(exp, x, -y);
    ExpOfSum(exp, x, -x);
    ExpOfSum(exp, y, -y);
    ExpOfSum(exp, -x, -x);
    ExpOfSum(exp, -y, -y);
    assert x - y == x + -y && -2.0 * x == -x + -x && -2.0 * y == -y + -y && x + -x == 0.0 && y + -y == 0.0;
    RatioOfInverses(exp(x), exp(-x), exp(y), exp(-y));
    hide *;
  }

  /** For numbers and their inverses. */
  lemma RatioOfInverses(a: real, ai: real, b: real, bi: real)
    requires Times(a, ai) == 1.0 && Times(b, bi) == 1.0 && Times(bi, bi) < 1.0 && b > bi
    ensures Times(a, bi) * (1.0 - Times(ai, ai)) / (1.0 - Times(bi, bi)) == (0.5 * (a - ai)) / (0.5 * (b - bi))
  {
    var c, d := 1.0 - Times(ai, ai), 1.0 - Times(bi, bi);
    CancelInverse(a, ai);
    CancelInverse(b, bi);
    hide Times;
    var n, u, v := Times(a, bi) * c, a - ai, b - bi;
    Regroup(a, bi, c, b, d);
    SameQuotient(n, d, u, v);
    SameQuotient(u, v, 0.5 * u, 0.5 * v);
  }

  lemma CancelInverse(a: real, ai: real)
    requires Times(a, ai) == 1.0
    ensures Times(a, 1.0 - Times(ai, ai)) == a - ai
  {
    assert a * (ai * ai) == (a * ai) * ai;
  }

  lemma Regroup(a: real, bi: real, c: real, b: real, d: real)
    requires Times(b, bi) == 1.0
    ensures Times(a, bi) * c * Times(b, d) == Times(a, c) * d
  {
    var x, y := a * c, b * bi;
    assert a * bi * c * (b * d) == x * d * y;
  }

  lemma SameQuotient(n: real, d: real, u: real, v: real)
    requires d > 0.0 && v > 0.0 && n * v == u * d
    ensures n / d == u / v
  {
    var a, b := n / d, u / v;
    assert a * d == n && b * v == u;
    assert (a - b) * (d * v) == 0.0;
  }

  /** What is left of the order after `t` of `steps` steps; nothing at the end. */
  function Left(exp: real -> real, kappa: real, steps: nat, t: nat): real
    requires IsExponential(exp) && kappa >= 0.0
  {
    TimesMono(0.0, kappa, steps as real);
    if t < steps then SinhRatio(exp, Times(kappa, (steps - t) as real), Times(kappa, steps as real)) else 0.0
  }

  lemma LeftFalls(exp: real -> real, kappa: real, steps: nat, t: nat)
    requires IsExponential(exp) && kappa >= 0.0 && t < steps
    ensures 0.0 <= Left(exp, kappa, steps, t + 1) <= Left(exp, kappa, steps, t)
  {
    hide SinhRatio, Sinh, Scale, IsExponential, Times;
    var y := Times(kappa, steps as real);
    var early, late := Times(kappa, (steps - t) as real), Times(kappa, (steps - t - 1) as real);
    TimesNatRises(kappa, 0, steps - t - 1);
    TimesNatRises(kappa, steps - t - 1, steps - t);
    TimesNatRises(kappa, 0, steps);
    TimesZero(kappa);
    SinhRises(exp, late, early);
    RatioIs(exp, early, y);
    RatioIs(exp, late, y);
    QuotientsRise(Sinh(exp, late), Sinh(exp, early), Scale(exp, y));
  }

  lemma TimesNatRises(k: real, m: nat, n: nat)
    requires k >= 0.0 && m <= n
    ensures Times(k, m as real) <= Times(k, n as real)
  {
  }

  lemma QuotientsRise(a: real, b: real, d: real)
    requires 0.0 <= a <= b && d > 0.0
    ensures 0.0 <= a / d <= b / d
  {
  }

  // ----- The schedule -----

  /** Sell fractions of the original order, from the inventory curve: clipped at nothing and normalised. */
  function Normalised(raw: seq<real>): seq<real> {
    var clipped := seq(|raw|, i requires 0 <= i < |raw| => Max(raw[i], 0.0));
    if Sum(clipped) > TINY then
      seq(|raw|, i requires 0 <= i < |raw| => clipped[i] / Sum(clipped))
    else clipped
  }

  lemma {:induction false} SumOfScaled(xs: seq<real>, ys: seq<real>, d: real)
    requires d > 0.0 && |xs| == |ys| && forall i :: 0 <= i < |xs| ==> ys[i] == xs[i] / d
    ensures Sum(ys) == Sum(xs) / d
  {
    if xs == [] {
      assert 0.0 / d == 0.0;
    } else {
      var n := |xs| - 1;
      SumOfScaled(xs[..n], ys[..n], d);
      DivideSplit(Sum(xs[..n]), xs[n], d);
    }
  }

  /** What is left before each step less what is left after it. */
  function Drops(left: seq<real>): seq<real>
    requires left != []
  {
    seq(|left| - 1, i requires 0 <= i < |left| - 1 => left[i] - left[i + 1])
  }

  ghost predicate FallsToNothing(left: seq<real>) {
    left != [] && left[|left| - 1] == 0.0 && forall i :: 0 <= i < |left| - 1 ==> left[i + 1] <= left[i]
  }

  lemma {:induction false} DropsTelescope(left: seq<real>)
    requires left != []
    ensures Sum(Drops(left)) == left[0] - left[|left| - 1]
  {
    if |left| > 1 {
      var front := left[..|left| - 1];
      DropsTelescope(front);
      assert Drops(left)[..|left| - 2] == Drops(front);
    }
  }

  /**
    * A curve that falls to nothing gives a schedule without negative entries that sums to one if and only if it starts
    * above 1e-10. Otherwise it is not normalised and sums to where the curve starts.
    */
  lemma FallingCurveSums(left: seq<real>)
    requires FallsToNothing(left)
    ensures var s := Normalised(Drops(left));
            && |s| == |left| - 1 && NonNegative(s)
            && Sum(s) == if left[0] > TINY then 1.0 else left[0]
  {
    hide Sum;
    var raw := Drops(left);
    var clipped := seq(|raw|, i requires 0 <= i < |raw| => Max(raw[i], 0.0));
    assert clipped == raw;
    DropsTelescope(left);
    var total := Sum(clipped);
    if total > TINY {
      forall i | 0 <= i < |raw| ensures clipped[i] / total >= 0.0 {
      }
      SumOfScaled(clipped, Normalised(raw), total);
      DivideSplit(total, total, total);
    }
  }

  function CurveOf(exp: real -> real, kappa: real, steps: nat): seq<real>
    requires IsExponential(exp) && kappa >= 0.0
  {
    seq(steps + 1, t requires 0 <= t <= steps => Left(exp, kappa, steps, t))
  }

  lemma CurveFalls(exp: real -> real, kappa: real, steps: nat, k: nat)
    requires IsExponential(exp) && kappa >= 0.0 && k <= steps
    ensures var left := CurveOf(exp, kappa, steps);
            && |left| == steps + 1 && FallsToNothing(left)
            && left[0] == Left(exp, kappa, steps, 0) && left[k] == Left(exp, kappa, steps, k)
  {
    hide IsExponential, SinhRatio, Times;
    forall i | 0 <= i < steps ensures Left(exp, kappa, steps, i + 1) <= Left(exp, kappa, steps, i) {
      LeftFalls(exp, kappa, steps, i);
    }
  }

  /** The share of the original order to sell at each step. */
  function Schedule(exp: real -> real, kappa: real, steps: nat): seq<real>
    requires IsExponential(exp) && kappa >= 0.0
  {
    Normalised(Drops(CurveOf(exp, kappa, steps)))
  }

  /** The curve falls from far enough up: by its form for large arguments from one, otherwise from above 1e-10. */
  predicate Steep(exp: real -> real, y: real) {
    y > 20.0 || (1.0 - TINY) * (exp(y) - exp(-y)) > 2.0 * TINY * TINY
  }

  lemma StartsAbove(exp: real -> real, kappa: real, steps: nat)
    requires IsExponential(exp) && kappa >= 0.0 && steps > 0
    ensures Left(exp, kappa, steps, 0) > TINY <==> Steep(exp, Times(kappa, steps as real))
  {
    hide SinhRatio, Sinh, IsExponential, Times;
    var y := Times(kappa, steps as real);
    TimesNatRises(kappa, 0, steps);
    TimesZero(kappa);
    SinhRises(exp, 0.0, y);
    RatioIs(exp, y, y);
    QuotientAbove(Sinh(exp, y), Scale(exp, y), TINY);
    TwiceSinh(exp, y);
    if y > 20.0 {
      QuotientAbove(Sinh(exp, y), Sinh(exp, y), TINY);
    }
  }

  lemma TwiceSinh(exp: real -> real, y: real)
    ensures exp(y) - exp(-y) == 2.0 * Sinh(exp, y)
  {
  }

  lemma QuotientAbove(n: real, d: real, bound: real)
    requires d > 0.0
    ensures n / d > bound <==> n > bound * d
  {
    assert n / d * d == n;
  }

  /**
    * The schedule has one entry a step, none of them negative. It sums to one, and so sells the whole order, if and
    * only if the curve is steep enough; otherwise the sum is at most 1e-10.
    */
  lemma ScheduleSumsToOne(exp: real -> real, kappa: real, steps: nat)
    requires IsExponential(exp) && kappa >= 0.0 && steps > 0
    ensures var s, steep := Schedule(exp, kappa, steps), Steep(exp, Times(kappa, steps as real));
            && |s| == steps && NonNegative(s)
            && (Sum(s) == 1.0 <==> steep)
            && (!steep ==> Sum(s) == Left(exp, kappa, steps, 0) <= TINY)
            && (TargetAfter(s, steps - 1) == 0.0 <==> steep)
  {
    hide Left, Normalised, Drops, Sum, CurveOf, FallsToNothing, IsExponential, Times, Steep;
    CurveFalls(exp, kappa, steps, 0);
    StartsAbove(exp, kappa, steps);
    var left := CurveOf(exp, kappa, steps);
    FallingCurveSums(left);
    var s := Schedule(exp, kappa, steps);
    assert s[..steps] == s;
  }

  /**
    * The schedule of a steep curve runs along it: before each step the part still ahead is to the whole as the curve
    * there is to where it starts.
    */
  lemma ScheduleRunsAlongCurve(exp: real -> real, kappa: real, steps: nat, k: nat)
    requires IsExponential(exp) && kappa >= 0.0 && k <= steps && steps > 0
    requires Steep(exp, Times(kappa, steps as real))
    ensures var s := Schedule(exp, kappa, steps);
            |s| == steps && Times(1.0 - Sum(s[..k]), Left(exp, kappa, steps, 0)) == Left(exp, kappa, steps, k)
  {
    hide Left, Normalised, Drops, Sum, CurveOf, FallsToNothing, IsExponential, Times, Steep;
    CurveFalls(exp, kappa, steps, k);
    StartsAbove(exp, kappa, steps);
    var left := CurveOf(exp, kappa, steps);
    NormalisedRunsAlong(left, k);
  }

  lemma NormalisedRunsAlong(left: seq<real>, k: nat)
    requires FallsToNothing(left) && k < |left| && left[0] > TINY
    ensures var s := Normalised(Drops(left));
            |s| == |left| - 1 && Times(1.0 - Sum(s[..k]), left[0]) == left[k]
  {
    hide Sum, Drops;
    var raw := Drops(left);
    DropsTelescope(left);
    DropsTelescope(left[..k + 1]);
    DropsOfPrefix(left, k);
    NormalisedIs(left);
    hide Normalised;
    SumOfScaled(raw[..k], Normalised(raw)[..k], left[0]);
    OneLess(left[0], left[k], Sum(raw[..k]));
  }

  lemma DropsOfPrefix(left: seq<real>, k: nat)
    requires k < |left|
    ensures |Drops(left)| == |left| - 1 && Drops(left)[..k] == Drops(left[..k + 1])
  {
  }

  /** Nothing is clipped from a falling curve, and its drops are divided by their sum, which is where it starts. */
  lemma NormalisedIs(left: seq<real>)
    requires FallsToNothing(left) && left[0] > TINY
    ensures var raw := Drops(left);
            var s := Normalised(raw);
            |s| == |raw| && forall i :: 0 <= i < |raw| ==> s[i] == raw[i] / left[0]
  {
    hide Sum;
    var raw := Drops(left);
    var clipped := seq(|raw|, i requires 0 <= i < |raw| => Max(raw[i], 0.0));
    assert clipped == raw;
    DropsTelescope(left);
  }

  lemma OneLess(whole: real, rest: real, part: real)
    requires whole > 0.0 && part == whole - rest
    ensures Times(1.0 - part / whole, whole) == rest
  {
    var q := part / whole;
    assert q * whole == part;
  }

  /** Risk aversion times the variance is to the impact, and 1e-10, as the square of kappa. */
  lemma KappaIsRoot(sqrt: real -> real, lam: real, sigma: real, eta: real)
    requires IsSqrt(sqrt) && eta >= 0.0 && lam >= 0.0
    ensures var kappa := Kappa(sqrt, lam, sigma, eta);
            kappa >= 0.0 && Times(Times(kappa, kappa), eta + TINY) == Times(lam, Times(sigma, sigma))
  {
    var x := lam * (sigma * sigma);
    assert sigma * sigma >= 0.0;
    assert x >= 0.0;
    var q := x / (eta + TINY);
    assert q * (eta + TINY) == x && q >= 0.0;
    assert Times(sqrt(q), sqrt(q)) == q;
  }

  /** How fast the curve falls, from risk aversion, volatility and impact. */
  function Kappa(sqrt: real -> real, lam: real, sigma: real, eta: real): real
    requires eta >= 0.0
  {
    sqrt(lam * (sigma * sigma) / (eta + TINY))
  }

  /** Without risk aversion, or without volatility, nothing is ever scheduled. */
  lemma NoRiskNoSchedule(exp: real -> real, sqrt: real -> real, lam: real, sigma: real, eta: real, steps: nat)
    requires IsExponential(exp) && sqrt(0.0) == 0.0 && eta >= 0.0 && steps > 0 && (lam == 0.0 || sigma == 0.0)
    ensures var kappa := Kappa(sqrt, lam, sigma, eta);
            kappa == 0.0 && !Steep(exp, Times(kappa, steps as real)) && Sum(Schedule(exp, kappa, steps)) == 0.0
  {
    hide IsExponential, Times, Sum;
    assert lam * (sigma * sigma) == 0.0;
    assert 0.0 / (eta + TINY) == 0.0;
    TimesZero(steps as real);
    SinhRises(exp, 0.0, 0.0);
    ScheduleSumsToOne(exp, 0.0, steps);
    assert Left(exp, 0.0, steps, 0) == 0.0;
  }

  // ----- The policy -----

  /** The policy's action: sell out near the end, otherwise follow the schedule. */
  function AcAction(fractions: seq<real>, schedule: seq<real>, totalSteps: nat, track: bool, q: real, t: real): nat
    requires fractions != [] && schedule != [] && 0.0 <= t <= 1.0
  {
    if EndGame(q, t) then NearestAction(1.0, fractions)
    else NearestAction(ScheduleTarget(schedule, q, t, totalSteps, track), fractions)
  }

  // ----- Following the schedule -----

  /** The fraction of the episode left after `n` of `totalSteps` steps. */
  function TimeAt(n: nat, totalSteps: nat): (t: real)
    requires n < totalSteps
    ensures 0.0 <= t <= 1.0
  {
    assert 0.0 <= (n as real) / (totalSteps as real) <= 1.0;
    1.0 - (n as real) / (totalSteps as real)
  }

  /** Inventory after `n` steps of the policy with exact fills, and whether an end-game branch fired. */
  function Followed(fractions: seq<real>, schedule: seq<real>, totalSteps: nat, track: bool, n: nat): (real, bool)
    requires fractions != [] && schedule != [] && n <= totalSteps
  {
    if n == 0 then (1.0, false)
    else
      var (q, ended) := Followed(fractions, schedule, totalSteps, track, n - 1);
      var t := TimeAt(n - 1, totalSteps);
      (q - Times(fractions[AcAction(fractions, schedule, totalSteps, track, q, t)], q), ended || EndGame(q, t))
  }

  lemma ActionAtStep(fractions: seq<real>, schedule: seq<real>, totalSteps: nat, q: real, n: nat)
    requires fractions != [] && schedule != [] && n < totalSteps
    ensures AcAction(fractions, schedule, totalSteps, true, q, TimeAt(n, totalSteps))
         == NearestAction(if EndGame(q, TimeAt(n, totalSteps)) then 1.0 else CatchUp(q, TargetAfter(schedule, n)),
                          fractions)
  {
    hide NearestAction, TargetAfter, CatchUp, TimeAt;
    var t := TimeAt(n, totalSteps);
    EntryOfStep(n, totalSteps);
    assert !EndGame(q, t) ==> ScheduleTarget(schedule, q, t, totalSteps, true) == CatchUp(q, TargetAfter(schedule, n));
  }

  lemma EntryOfStep(n: nat, totalSteps: nat)
    requires n < totalSteps
    ensures Round((1.0 - TimeAt(n, totalSteps)) * (totalSteps as real)) == n
  {
  }

  /**
    * Rounding never accumulates along a schedule either: until an end-game branch fires the inventory after `n` steps
    * is within half the widest table gap of the scheduled inventory; and an end-game sale leaves nothing.
    */
  lemma {:induction false} PolicyStaysOnSchedule(fractions: seq<real>, gap: real, schedule: seq<real>,
                                                 totalSteps: nat, n: nat)
    requires IsTable(fractions, gap) && schedule != [] && NonNegative(schedule) && n <= totalSteps
    ensures var (q, ended) := Followed(fractions, schedule, totalSteps, true, n);
            && 0.0 <= q <= 1.0
            && (!ended ==> Abs(q - TargetAfter(schedule, n - 1)) <= 0.5 * gap)
            && (ended ==> q == 0.0)
  {
    hide NearestAction, IsTable, TargetAfter, Sum, AcAction, TimeAt, CatchUp, Times;
    GapIsNonNegative(fractions, gap);
    if n == 0 {
      BeforeTheFirst(schedule);
    } else {
      PolicyStaysOnSchedule(fractions, gap, schedule, totalSteps, n - 1);
      var (q, ended) := Followed(fractions, schedule, totalSteps, true, n - 1);
      var t := TimeAt(n - 1, totalSteps);
      ActionAtStep(fractions, schedule, totalSteps, q, n - 1);
      if EndGame(q, t) {
        SellingEverything(fractions, gap, q);
      } else {
        TargetFalls(schedule, n - 2, n - 1);
        TrackingStep(fractions, gap, q, TargetAfter(schedule, n - 2), TargetAfter(schedule, n - 1));
      }
    }
  }

  lemma BeforeTheFirst(schedule: seq<real>)
    ensures TargetAfter(schedule, -1) == 1.0
  {
  }

  // ----- Without tracking -----

  /**
    * At step `n` the open loop aims at selling that step's share of the original order, or all that is left when that
    * is less; and everything when next to nothing is left.
    */
  lemma OpenLoopSellsItsShare(schedule: seq<real>, totalSteps: nat, q: real, n: nat)
    requires |schedule| == totalSteps && n < totalSteps
    ensures var target := ScheduleTarget(schedule, q, TimeAt(n, totalSteps), totalSteps, false);
            if q <= 0.000001 then target == 1.0 else Times(target, q) == Min(schedule[n], q)
  {
    StepOfTime(n, totalSteps);
    if q > 0.000001 {
      OpenTarget(schedule, q, TimeAt(n, totalSteps), totalSteps, n);
      LesserShare(schedule[n], q);
    }
    hide TimeAt;
  }

  lemma OpenTarget(schedule: seq<real>, q: real, t: real, totalSteps: nat, n: nat)
    requires n < |schedule| && 0.0 <= t <= 1.0 && q > 0.000001
    requires ((1.0 - t) * (totalSteps as real)).Floor == n
    ensures ScheduleTarget(schedule, q, t, totalSteps, false) == Min(1.0, schedule[n] / q)
  {
  }

  lemma LesserShare(x: real, q: real)
    requires q > 0.0
    ensures Times(Min(1.0, x / q), q) == Min(x, q)
  {
    var y := x / q;
    assert y * q == x;
    if y >= 1.0 {
      TimesMono(1.0, y, q);
    } else {
      TimesMono(y, 1.0, q);
    }
  }

  lemma StepOfTime(n: nat, totalSteps: nat)
    requires n < totalSteps
    ensures ((1.0 - TimeAt(n, totalSteps)) * (totalSteps as real)).Floor == n
  {
  }

  lemma TooSmallToSell(fractions: seq<real>, gap: real, target: real)
    requires IsTable(fractions, gap) && 0.0 <= target && 2.0 * target < fractions[1]
    ensures fractions[NearestAction(target, fractions)] == 0.0
  {
    var k := NearestAction(target, fractions);
    assert target <= 1.0;
    assert Abs(fractions[k] - target) <= Abs(fractions[0] - target);
  }

  /**
    * The open loop never corrects its rounding: a schedule of trades smaller than half the first step of the table
    * sells nothing at all before the end game, however long it runs.
    */
  lemma {:induction false} OpenLoopCanStall(fractions: seq<real>, gap: real, schedule: seq<real>,
                                            totalSteps: nat, n: nat)
    requires IsTable(fractions, gap) && schedule != [] && n <= totalSteps
    requires forall i :: 0 <= i < |schedule| ==> 0.0 <= schedule[i] && 2.0 * schedule[i] < fractions[1]
    ensures var (q, ended) := Followed(fractions, schedule, totalSteps, false, n); !ended ==> q == 1.0
  {
    hide NearestAction, TimeAt, Times, AcAction, IsTable;
    if n > 0 {
      OpenLoopCanStall(fractions, gap, schedule, totalSteps, n - 1);
      GapIsNonNegative(fractions, gap);
      if !EndGame(1.0, TimeAt(n - 1, totalSteps)) {
        OpenAction(fractions, gap, schedule, totalSteps, TimeAt(n - 1, totalSteps));
        TimesZero(1.0);
      }
    }
  }

  lemma OpenAction(fractions: seq<real>, gap: real, schedule: seq<real>, totalSteps: nat, t: real)
    requires IsTable(fractions, gap) && schedule != [] && 0.0 <= t <= 1.0 && !EndGame(1.0, t)
    requires forall i :: 0 <= i < |schedule| ==> 0.0 <= schedule[i] && 2.0 * schedule[i] < fractions[1]
    ensures fractions[AcAction(fractions, schedule, totalSteps, false, 1.0, t)] == 0.0
  {
    hide NearestAction, TargetAfter;
    var k := ((1.0 - t) * (totalSteps as real)).Floor;
    var x := schedule[if 0 <= k < |schedule| then k else |schedule| - 1];
    assert x / 1.0 == x;
    TooSmallToSell(fractions, gap, Min(1.0, x));
  }

  /**
    * A schedule that was not normalised stalls even the tracked policy: it sells nothing before the end game.
    */
  lemma {:induction false} UnnormalisedStalls(fractions: seq<real>, gap: real, schedule: seq<real>, totalSteps: nat,
                                              n: nat)
    requires IsTable(fractions, gap) && schedule != [] && NonNegative(schedule) && n <= totalSteps
    requires Sum(schedule) <= TINY && 2.0 * TINY < fractions[1]
    ensures var (q, ended) := Followed(fractions, schedule, totalSteps, true, n); !ended ==> q == 1.0
  {
    hide NearestAction, TimeAt, Times, AcAction, IsTable, TargetAfter;
    if n > 0 {
      UnnormalisedStalls(fractions, gap, schedule, totalSteps, n - 1);
      GapIsNonNegative(fractions, gap);
      var t := TimeAt(n - 1, totalSteps);
      if !EndGame(1.0, t) {
        ActionAtStep(fractions, schedule, totalSteps, 1.0, n - 1);
        AlmostAllLeft(schedule, n - 1);
        TooSmallToSell(fractions, gap, CatchUp(1.0, TargetAfter(schedule, n - 1)));
        TimesZero(1.0);
      }
    }
  }

  lemma AlmostAllLeft(schedule: seq<real>, k: nat)
    requires NonNegative(schedule) && Sum(schedule) <= TINY
    ensures 0.0 <= CatchUp(1.0, TargetAfter(schedule, k)) <= TINY
  {
    hide Sum;
    var n := if k + 1 < |schedule| then k + 1 else |schedule|;
    SumOfLonger(schedule, n, |schedule|);
    assert schedule[..|schedule|] == schedule;
  }

  /** So a policy without risk aversion leaves the whole order to the end game. */
  lemma NoRiskStalls(exp: real -> real, sqrt: real -> real, sigma: real, eta: real, steps: nat, n: nat)
    requires IsExponential(exp) && sqrt(0.0) == 0.0 && eta >= 0.0 && n <= steps && steps > 0
    ensures var schedule := Schedule(exp, Kappa(sqrt, 0.0, sigma, eta), steps);
            && schedule != []
            && var (q, ended) := Followed(ACTION_FRACTIONS, schedule, steps, true, n); !ended ==> q == 1.0
  {
    hide Schedule, Kappa, Steep, Followed;
    NoRiskNoSchedule(exp, sqrt, 0.0, sigma, eta, steps);
    ScheduleSumsToOne(exp, 0.0, steps);
    DeployedTable();
    UnnormalisedStalls(ACTION_FRACTIONS, 0.2, Schedule(exp, 0.0, steps), steps, n);
  }
}
