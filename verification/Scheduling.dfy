/** Block-by-block execution under the slippage gate, and the schedule it follows in Optimal mode. */
module Scheduling {
  import opened Wrappers
  import opened Arith
  import opened Risk

  /** Below this nothing is left to execute. */
  const SNAP := 0.00000001
  /** Chunks no larger than this are not worth booking. */
  const DUST := 0.0000000001

  type Positive = x: real | x > 0.0 witness 1.0

  function Clamp(x: real, low: real, high: real): real {
    Max(low, Min(x, high))
  }

  // ----- The schedule -----

  /** The inventory curve: none when it degenerates to equal slices, otherwise the fraction left after `k` steps. */
  datatype Curve = Degenerate | Path(left: nat -> real)

  function EqualSlices(total: real, horizon: nat): seq<real>
    requires horizon > 0
  {
    seq(horizon, _ => total / (horizon as real))
  }

  function Inventory(total: real, horizon: nat, left: nat -> real, k: nat): real {
    if k == 0 then total else if k >= horizon then 0.0 else total * left(k)
  }

  function Differences(total: real, horizon: nat, left: nat -> real): seq<real> {
    seq(horizon, k requires 0 <= k < horizon =>
      Inventory(total, horizon, left, k) - Inventory(total, horizon, left, k + 1))
  }

  /** The last trade absorbs whatever the others leave. */
  function Absorbed(total: real, trades: seq<real>): seq<real>
    requires trades != []
  {
    var last := |trades| - 1;
    trades[last := trades[last] + (total - Sum(trades))]
  }

  function Schedule(total: real, horizon: nat, curve: Curve): seq<real>
    requires horizon > 0
  {
    match curve
    case Degenerate => Absorbed(total, EqualSlices(total, horizon))
    case Path(left) => Absorbed(total, Differences(total, horizon, left))
  }

  /** What is known of sinh(k(T-j)) / sinh(kT): it falls from one to nothing. */
  ghost predicate Falls(left: nat -> real) {
    && (forall k: nat :: 0.0 <= left(k) <= 1.0)
    && (forall j: nat, k: nat :: j <= k ==> left(j) >= left(k))
  }

  lemma AbsorbedSumsToTotal(total: real, trades: seq<real>)
    requires trades != []
    ensures Sum(Absorbed(total, trades)) == total && |Absorbed(total, trades)| == |trades|
  {
  }

  lemma {:induction false} SlicesSum(total: real, horizon: nat, n: nat)
    requires horizon > 0 && n <= horizon
    ensures Sum(EqualSlices(total, horizon)[..n]) == (n as real) * (total / (horizon as real))
  {
    if n == 0 {
    } else {
      SlicesSum(total, horizon, n - 1);
      var s := EqualSlices(total, horizon);
      assert s[..n][..n - 1] == s[..n - 1];
      assert (n as real) == ((n - 1) as real) + 1.0;
      assert (n as real) * s[n - 1] == ((n - 1) as real) * s[n - 1] + s[n - 1];
    }
  }

  lemma {:induction false} DifferencesSum(total: real, horizon: nat, left: nat -> real, n: nat)
    requires n <= horizon
    ensures Sum(Differences(total, horizon, left)[..n]) == total - Inventory(total, horizon, left, n)
  {
    hide Inventory;
    if n == 0 {
      assert Inventory(total, horizon, left, 0) == total by { InventoryEnds(total, horizon, left); }
    } else {
      DifferencesSum(total, horizon, left, n - 1);
      var s := Differences(total, horizon, left);
      assert s[..n][..n - 1] == s[..n - 1];
    }
  }

  lemma InventoryEnds(total: real, horizon: nat, left: nat -> real)
    ensures Inventory(total, horizon, left, 0) == total
    ensures horizon > 0 ==> Inventory(total, horizon, left, horizon) == 0.0
  {
  }

  /** A schedule has one trade a step, none of them negative, and together they are the whole inventory. */
  lemma ScheduleExecutesEverything(total: real, horizon: nat, curve: Curve)
    requires total >= 0.0 && horizon > 0 && (curve.Path? ==> Falls(curve.left))
    ensures var s := Schedule(total, horizon, curve);
            && |s| == horizon && Sum(s) == total
            && (forall k :: 0 <= k < |s| ==> s[k] >= 0.0)
  {
    hide Sum;
    match curve
    case Degenerate =>
      var s := EqualSlices(total, horizon);
      AbsorbedSumsToTotal(total, s);
      SlicesSum(total, horizon, horizon);
      assert s[..horizon] == s;
      assert (horizon as real) * (total / (horizon as real)) == total;
      assert total / (horizon as real) >= 0.0;
    case Path(left) =>
      var s := Differences(total, horizon, left);
      AbsorbedSumsToTotal(total, s);
      DifferencesSum(total, horizon, left, horizon);
      assert s[..horizon] == s;
      InventoryEnds(total, horizon, left);
      forall k | 0 <= k < horizon ensures s[k] >= 0.0 {
        InventoryFalls(total, horizon, left, k);
      }
  }

  lemma InventoryFalls(total: real, horizon: nat, left: nat -> real, k: nat)
    requires total >= 0.0 && Falls(left) && k < horizon
    ensures Inventory(total, horizon, left, k) >= Inventory(total, horizon, left, k + 1)
  {
  }

  /** What the curve leaves of the inventory after `k` of `horizon` steps: equal parts are taken when it degenerates. */
  function LeftOnCurve(total: real, horizon: nat, curve: Curve, k: nat): real
    requires 0 < k < horizon
  {
    match curve
    case Degenerate => total * ((horizon - k) as real) / (horizon as real)
    case Path(left) => total * left(k)
  }

  /** After every trade but the last the schedule leaves what the curve leaves. */
  lemma ScheduleFollowsCurve(total: real, horizon: nat, curve: Curve, k: nat)
    requires 0 < k < horizon
    ensures |Schedule(total, horizon, curve)| == horizon
    ensures total - Sum(Schedule(total, horizon, curve)[..k]) == LeftOnCurve(total, horizon, curve, k)
  {
    match curve
    case Degenerate => SlicesFollow(total, horizon, k);
    case Path(left) => PathFollows(total, horizon, left, k);
    hide Sum, Absorbed, EqualSlices, Differences;
  }

  lemma SlicesFollow(total: real, horizon: nat, k: nat)
    requires k < horizon
    ensures var s := Absorbed(total, EqualSlices(total, horizon));
            && |s| == horizon
            && total - Sum(s[..k]) == total * ((horizon - k) as real) / (horizon as real)
  {
    AbsorbedPrefix(total, EqualSlices(total, horizon), k);
    SlicesSum(total, horizon, k);
    SlicesLeft(total, horizon, k);
    hide Sum, Absorbed;
  }

  lemma PathFollows(total: real, horizon: nat, left: nat -> real, k: nat)
    requires 0 < k < horizon
    ensures var s := Absorbed(total, Differences(total, horizon, left));
            |s| == horizon && total - Sum(s[..k]) == total * left(k)
  {
    AbsorbedPrefix(total, Differences(total, horizon, left), k);
    DifferencesSum(total, horizon, left, k);
    hide Sum, Absorbed;
  }

  lemma AbsorbedPrefix(total: real, trades: seq<real>, k: nat)
    requires k < |trades|
    ensures |Absorbed(total, trades)| == |trades| && Absorbed(total, trades)[..k] == trades[..k]
  {
    hide Sum;
  }

  lemma SlicesLeft(total: real, horizon: nat, k: nat)
    requires k <= horizon && horizon > 0
    ensures total - (k as real) * (total / (horizon as real)) == total * ((horizon - k) as real) / (horizon as real)
  {
    var n, m, q := horizon as real, k as real, total / (horizon as real);
    assert q * n == total && (horizon - k) as real == n - m;
    assert total * (n - m) == (q * (n - m)) * n;
  }

  // ----- The scheduler -----

  datatype Mode = Twap | Heuristic | Optimal | AdaptiveOptimal | RegimeAc

  /** One block: its volatility, the depth of the pool, and what a regime-conditional strategy wants to trade. */
  datatype Block = Block(volatility: real, depth: real, regimeQty: real)

  /**
    * What the closed-form formulas give: the curve and the horizon for a volatility, and the unclamped
    * receding-horizon trade.
    */
  datatype Formulas = Formulas(curve: real -> Curve, horizon: real -> nat,
                               trade: (Block, real, nat) -> real)

  datatype Terms = Terms(total: real, mode: Mode, baseChunk: real, sigmaRef: real, liquidityRef: Positive, eta: real,
                         lambda: real, horizon: nat)

  datatype Progress = Progress(risk: Ledger, remaining: real, completed: bool, plan: Option<seq<real>>, step: nat,
                               sigmaEma: real)

  function Predicted(chunk: real, b: Block): real {
    0.01 * (chunk / Max(b.depth, 0.00000001)) + 0.005 * b.volatility
  }

  function Booking(s: Progress, chunk: real): Progress {
    var left := s.remaining - chunk;
    if left <= SNAP then s.(remaining := 0.0, completed := true) else s.(remaining := left)
  }

  /** Ask the gate and book what it lets through. */
  function Try(s: Progress, chunk: real, b: Block): (Progress, bool) {
    var q := Request(chunk, Predicted(chunk, b));
    if Accepts(s.risk, q) then (Booking(s.(risk := Booked(s.risk, q)), chunk), true) else (s, false)
  }

  function OnTwap(t: Terms, s: Progress): Progress {
    var chunk := Min(t.baseChunk, s.remaining);
    if chunk > DUST then Booking(s, chunk) else s
  }

  function HeuristicChunk(t: Terms, ema: real, remaining: real, b: Block): real {
    Min(Times(Times(t.baseChunk, Clamp(b.depth / t.liquidityRef, 0.25, 2.0)),
              Clamp(ema / Max(b.volatility, 0.00000001), 0.25, 2.0)),
        remaining)
  }

  function OnHeuristic(t: Terms, s: Progress, b: Block): Progress {
    var ema := 0.95 * s.sigmaEma + 0.05 * b.volatility;
    var chunk := HeuristicChunk(t, ema, s.remaining, b);
    var (first, ok) := Try(s.(sigmaEma := ema), chunk, b);
    if ok then first else Try(first, Min(chunk * 0.5, s.remaining), b).0
  }

  /** The plan of Optimal mode, refused for parameters that have no schedule. */
  function Planned(t: Terms, f: Formulas, volatility: real): Option<seq<real>> {
    var sigma := if volatility > 0.0 then volatility else t.sigmaRef;
    if t.total <= 0.0 || t.eta <= 0.0 || t.lambda < 0.0 || sigma < 0.0 then None
    else
      var horizon := if t.horizon > 0 then t.horizon else f.horizon(sigma);
      if horizon == 0 then None else Some(Schedule(t.total, horizon, f.curve(sigma)))
  }

  function OnOptimal(t: Terms, f: Formulas, s: Progress, b: Block): Progress {
    var plan := if s.plan.Some? then s.plan else Planned(t, f, b.volatility);
    if plan.None? then s
    else
      var p := if s.plan.Some? then s else s.(plan := plan, step := 0);
      if p.step >= |plan.value| then p.(remaining := 0.0, completed := true)
      else
        var (next, ok) := Try(p, Min(plan.value[p.step], p.remaining), b);
        if ok then next.(step := p.step + 1) else p
  }

  function OnAdaptive(t: Terms, f: Formulas, s: Progress, b: Block): Progress {
    var left := if s.step < t.horizon then t.horizon - s.step else 0;
    var chunk := Clamp(f.trade(b, s.remaining, left), 0.0, s.remaining);
    var (next, ok) := Try(s, chunk, b);
    if ok then next.(step := s.step + 1) else s
  }

  function OnRegime(s: Progress, b: Block): Progress {
    if b.regimeQty > DUST then Booking(s, b.regimeQty) else s
  }

  function AfterBlock(t: Terms, f: Formulas, s: Progress, b: Block): Progress {
    if s.completed then s
    else
      match t.mode
      case Twap => OnTwap(t, s)
      case Heuristic => OnHeuristic(t, s, b)
      case Optimal => OnOptimal(t, f, s, b)
      case AdaptiveOptimal => OnAdaptive(t, f, s, b)
      case RegimeAc => OnRegime(s, b)
  }

  class Scheduler {
    const terms: Terms
    const risk: RiskManager
    var remaining: real
    var completed: bool
    var plan: Option<seq<real>>
    var step: nat
    var sigmaEma: real

    constructor (risk: RiskManager, terms: Terms)
      ensures this.terms == terms && this.risk == risk
      ensures Now() == Progress(risk.Now(), terms.total, false, None, 0, terms.sigmaRef)
    {
      this.risk, this.terms := risk, terms;
      remaining, completed, plan, step, sigmaEma := terms.total, false, None, 0, terms.sigmaRef;
    }

    function Now(): Progress
      reads this, risk
    {
      Progress(risk.Now(), remaining, completed, plan, step, sigmaEma)
    }

    method Book(chunk: real)
      modifies this`remaining, this`completed
      ensures Now() == Booking(old(Now()), chunk)
    {
      remaining := remaining - chunk;
      if remaining <= SNAP {
        remaining, completed := 0.0, true;
      }
    }

    method Request(chunk: real, b: Block) returns (ok: bool)
      modifies this`remaining, this`completed, risk`executed, risk`used, risk`emergencyUsed
      ensures (Now(), ok) == Try(old(Now()), chunk, b)
    {
      ok := risk.RequestExecuteChunk(chunk, Predicted(chunk, b));
      if ok {
        Book(chunk);
      }
    }

    method OnBlockTwap()
      modifies this`remaining, this`completed
      ensures Now() == OnTwap(terms, old(Now()))
    {
      var chunk := Min(terms.baseChunk, remaining);
      if chunk > DUST {
        Book(chunk);
      }
    }

    method OnBlockHeuristic(b: Block)
      modifies this`remaining, this`completed, this`sigmaEma, risk`executed, risk`used, risk`emergencyUsed
      ensures Now() == OnHeuristic(terms, old(Now()), b)
    {
      hide HeuristicChunk, Predicted, Accepts;
      sigmaEma := 0.95 * sigmaEma + 0.05 * b.volatility;
      var chunk := HeuristicChunk(terms, sigmaEma, remaining, b);
      var ok := Request(chunk, b);
      if ok {
        return;
      }
      chunk := Min(chunk * 0.5, remaining);
      ok := Request(chunk, b);
    }

    method OnBlockOptimal(f: Formulas, b: Block) returns (planned: bool)
      modifies this`remaining, this`completed, this`plan, this`step, risk`executed, risk`used, risk`emergencyUsed
      ensures Now() == OnOptimal(terms, f, old(Now()), b)
      ensures planned == (old(plan).Some? || Planned(terms, f, b.volatility).Some?)
    {
      hide Planned, Predicted, Accepts;
      if plan.None? {
        var made := Planned(terms, f, b.volatility);
        if made.None? {
          return false;
        }
        plan, step := made, 0;
      }
      planned := true;
      if step >= |plan.value| {
        remaining, completed := 0.0, true;
        return;
      }
      var ok := Request(Min(plan.value[step], remaining), b);
      if ok {
        step := step + 1;
      }
    }

    method OnBlockAdaptive(f: Formulas, b: Block)
      modifies this`remaining, this`completed, this`step, risk`executed, risk`used, risk`emergencyUsed
      ensures Now() == OnAdaptive(terms, f, old(Now()), b)
    {
      hide Predicted, Accepts;
      var left := if step < terms.horizon then terms.horizon - step else 0;
      var chunk := Clamp(f.trade(b, remaining, left), 0.0, remaining);
      var ok := Request(chunk, b);
      if ok {
        step := step + 1;
      }
    }

    method OnBlockRegime(b: Block)
      modifies this`remaining, this`completed
      ensures Now() == OnRegime(old(Now()), b)
    {
      if b.regimeQty > DUST {
        remaining := remaining - b.regimeQty;
        if remaining <= SNAP {
          remaining, completed := 0.0, true;
        }
      }
    }

    method OnBlock(f: Formulas, b: Block) returns (ok: bool)
      modifies this`remaining, this`completed, this`plan, this`step, this`sigmaEma
      modifies risk`executed, risk`used, risk`emergencyUsed
      ensures Now() == AfterBlock(terms, f, old(Now()), b)
      ensures !ok <==> !old(completed) && terms.mode == Optimal && old(plan).None?
                       && Planned(terms, f, b.volatility).None?
    {
      hide Planned, Predicted, Accepts, OnTwap, OnHeuristic, OnOptimal, OnAdaptive, OnRegime;
      ok := true;
      if completed {
        return;
      }
      match terms.mode {
        case Twap => OnBlockTwap();
        case Heuristic => OnBlockHeuristic(b);
        case Optimal => ok := OnBlockOptimal(f, b);
        case AdaptiveOptimal => OnBlockAdaptive(f, b);
        case RegimeAc => OnBlockRegime(b);
      }
    }
  }

  // ----- What a chunk is and what it is expected to cost -----

  /** `x` is `a / b`, but never below a quarter nor above two. */
  predicate IsBanded(x: real, a: real, b: real) {
    0.25 <= x <= 2.0 && (x > 0.25 ==> Times(x, b) <= a) && (x < 2.0 ==> a <= Times(x, b))
  }

  lemma ClampIsBanded(a: real, b: real)
    requires b > 0.0
    ensures IsBanded(Clamp(a / b, 0.25, 2.0), a, b)
  {
    var q := a / b;
    assert q * b == a;
    var x := Clamp(q, 0.25, 2.0);
    if x > 0.25 {
      TimesMono(x, q, b);
    }
    if x < 2.0 {
      TimesMono(q, x, b);
    }
  }

  /**
    * The heuristic chunk is the base chunk times the depth over its reference times the average volatility over the
    * present one, each ratio kept between a quarter and two, and never more than what is left.
    */
  lemma HeuristicResponds(t: Terms, ema: real, remaining: real, b: Block) returns (byDepth: real, byCalm: real)
    ensures IsBanded(byDepth, b.depth, t.liquidityRef) && IsBanded(byCalm, ema, Max(b.volatility, 0.00000001))
    ensures var chunk := HeuristicChunk(t, ema, remaining, b);
            chunk <= remaining && (chunk < remaining ==> chunk == Times(Times(t.baseChunk, byDepth), byCalm))
    ensures Times(Times(t.baseChunk, byDepth), byCalm) <= remaining ==>
              HeuristicChunk(t, ema, remaining, b) == Times(Times(t.baseChunk, byDepth), byCalm)
  {
    byDepth := Clamp(b.depth / t.liquidityRef, 0.25, 2.0);
    byCalm := Clamp(ema / Max(b.volatility, 0.00000001), 0.25, 2.0);
    ClampIsBanded(b.depth, t.liquidityRef);
    ClampIsBanded(ema, Max(b.volatility, 0.00000001));
    hide Times;
  }

  /** A larger chunk is never let through by less depth, a lower average or a more volatile block. */
  lemma HeuristicIsMonotone(t: Terms, e: real, f: real, remaining: real, a: Block, b: Block)
    requires t.baseChunk >= 0.0 && 0.0 <= e <= f && a.depth <= b.depth && a.volatility >= b.volatility
    ensures HeuristicChunk(t, e, remaining, a) <= HeuristicChunk(t, f, remaining, b)
  {
    var v, w := Max(a.volatility, 0.00000001), Max(b.volatility, 0.00000001);
    QuotientsRise(a.depth, b.depth, t.liquidityRef);
    QuotientsRise(e, f, v);
    QuotientFalls(f, w, v);
    var x, y := Clamp(a.depth / t.liquidityRef, 0.25, 2.0), Clamp(b.depth / t.liquidityRef, 0.25, 2.0);
    var c, d := Clamp(e / v, 0.25, 2.0), Clamp(f / w, 0.25, 2.0);
    ProductsRise(t.baseChunk, x, y, c, d);
  }

  lemma QuotientsRise(x: real, y: real, d: real)
    requires x <= y && d > 0.0
    ensures x / d <= y / d
  {
  }

  lemma QuotientFalls(n: real, d: real, e: real)
    requires n >= 0.0 && 0.0 < d <= e
    ensures n / e <= n / d
  {
    assert (n / e) * e == n && (n / d) * d == n;
    assert (n / d) * e >= n;
  }

  lemma ProductsRise(k: real, x: real, y: real, c: real, d: real)
    requires k >= 0.0 && 0.0 <= x <= y && 0.0 <= c <= d
    ensures Times(Times(k, x), c) <= Times(Times(k, y), d)
  {
    TimesSwap(k, x);
    TimesSwap(k, y);
    TimesMono(x, y, k);
    assert Times(k, x) >= 0.0;
    TimesMono(Times(k, x), Times(k, y), c);
    TimesSwap(Times(k, y), c);
    TimesSwap(Times(k, y), d);
    TimesMono(c, d, Times(k, y));
  }

  /**
    * A chunk is expected to cost one part in a hundred of what it is to the depth, which counts as no less than 1e-8,
    * and one in two hundred of the volatility.
    */
  lemma PredictedParts(chunk: real, b: Block)
    ensures var depth := Max(b.depth, 0.00000001);
            Times(200.0 * depth, Predicted(chunk, b)) == 2.0 * chunk + Times(depth, b.volatility)
  {
    var depth := Max(b.depth, 0.00000001);
    var q := chunk / depth;
    assert q * depth == chunk;
  }

  // ----- Every run of the gated modes -----

  function RunBlocks(t: Terms, f: Formulas, s: Progress, bs: seq<Block>): Progress {
    if bs == [] then s else AfterBlock(t, f, RunBlocks(t, f, s, bs[..|bs| - 1]), bs[|bs| - 1])
  }

  function Start(t: Terms, pct: real, reserveFrac: real): Progress {
    Progress(Opening(t.total, pct, reserveFrac), t.total, false, None, 0, t.sigmaRef)
  }

  ghost predicate SoundFormulas(f: Formulas) {
    forall sigma: real :: f.curve(sigma).Path? ==> Falls(f.curve(sigma).left)
  }

  ghost predicate Calm(bs: seq<Block>) {
    forall i :: 0 <= i < |bs| ==> bs[i].volatility >= 0.0
  }

  /** Inventory and gate agree: what is not left was executed, up to the snap at completion; and no limit is broken. */
  ghost predicate Books(t: Terms, s: Progress) {
    && WithinLimits(s.risk) && s.risk.pct >= 0.0 && s.risk.total == t.total
    && s.risk.budget == Times(t.total, s.risk.pct)
    && (if s.completed then s.remaining == 0.0 && t.total - SNAP <= s.risk.executed <= t.total
        else s.remaining > 0.0 && s.risk.executed == t.total - s.remaining)
  }

  /** The inventory left is exactly the part of the plan still ahead, and there is such a part. */
  ghost predicate Follows(t: Terms, s: Progress) {
    s.plan.Some? ==>
      && (forall k :: 0 <= k < |s.plan.value| ==> s.plan.value[k] >= 0.0)
      && Sum(s.plan.value) == t.total
      && (!s.completed ==> s.step < |s.plan.value| && s.remaining == t.total - Sum(s.plan.value[..s.step]))
  }

  lemma PredictedIsNonNegative(chunk: real, b: Block)
    requires chunk >= 0.0 && b.volatility >= 0.0
    ensures Predicted(chunk, b) >= 0.0
  {
  }

  lemma TryBooks(t: Terms, s: Progress, chunk: real, b: Block)
    requires Books(t, s) && !s.completed && 0.0 <= chunk <= s.remaining && b.volatility >= 0.0
    ensures Books(t, Try(s, chunk, b).0)
  {
  }

  lemma HeuristicChunkFits(t: Terms, ema: real, remaining: real, b: Block)
    requires t.baseChunk >= 0.0 && remaining >= 0.0
    ensures 0.0 <= HeuristicChunk(t, ema, remaining, b) <= remaining
  {
  }

  lemma HeuristicBooks(t: Terms, s: Progress, b: Block)
    requires t.baseChunk >= 0.0 && Books(t, s) && !s.completed && b.volatility >= 0.0
    ensures Books(t, OnHeuristic(t, s, b))
  {
    hide Books, Try, HeuristicChunk;
    var ema := 0.95 * s.sigmaEma + 0.05 * b.volatility;
    var e := s.(sigmaEma := ema);
    BooksIgnoreEma(t, s, ema);
    HeuristicChunkFits(t, ema, s.remaining, b);
    var chunk := HeuristicChunk(t, ema, s.remaining, b);
    TryBooks(t, e, chunk, b);
    RefusalChangesNothing(e, chunk, b);
    TryBooks(t, e, Min(chunk * 0.5, s.remaining), b);
  }

  lemma BooksIgnoreEma(t: Terms, s: Progress, ema: real)
    requires Books(t, s)
    ensures Books(t, s.(sigmaEma := ema)) && s.remaining >= 0.0
  {
  }

  lemma RefusalChangesNothing(s: Progress, chunk: real, b: Block)
    ensures var (next, ok) := Try(s, chunk, b); !ok ==> next == s
    ensures Try(s, chunk, b).0.plan == s.plan && Try(s, chunk, b).0.step == s.step
  {
  }

  lemma AdaptiveBooks(t: Terms, f: Formulas, s: Progress, b: Block)
    requires Books(t, s) && !s.completed && b.volatility >= 0.0
    ensures Books(t, OnAdaptive(t, f, s, b))
  {
  }

  lemma {:induction false} SumOfPrefix(xs: seq<real>, n: nat)
    requires n <= |xs| && forall k :: 0 <= k < |xs| ==> xs[k] >= 0.0
    ensures 0.0 <= Sum(xs[..n]) <= Sum(xs)
    decreases |xs| - n
  {
    if n == |xs| {
      assert xs[..n] == xs;
      SumNonNegative(xs);
    } else {
      SumOfPrefix(xs, n + 1);
      assert xs[..n + 1][..n] == xs[..n];
      SumNonNegative(xs[..n]);
    }
  }

  lemma PlannedIsSchedule(t: Terms, f: Formulas, volatility: real)
    requires SoundFormulas(f)
    ensures var p := Planned(t, f, volatility);
            p.Some? ==> |p.value| > 0 && Sum(p.value) == t.total && forall k :: 0 <= k < |p.value| ==> p.value[k] >= 0.0
  {
    hide Schedule, Sum;
    var sigma := if volatility > 0.0 then volatility else t.sigmaRef;
    var horizon := if t.horizon > 0 then t.horizon else f.horizon(sigma);
    if t.total > 0.0 && horizon > 0 {
      ScheduleExecutesEverything(t.total, horizon, f.curve(sigma));
    }
  }

  /** Taking the next trade of the plan. */
  lemma NextTradeFollows(t: Terms, p: Progress, b: Block)
    requires p.plan.Some? && Follows(t, p) && Books(t, p) && !p.completed && b.volatility >= 0.0
    ensures var (next, ok) := Try(p, Min(p.plan.value[p.step], p.remaining), b);
            var e := if ok then next.(step := p.step + 1) else p;
            && Min(p.plan.value[p.step], p.remaining) == p.plan.value[p.step] <= p.remaining
            && Follows(t, e) && Books(t, e)
  {
    hide Predicted, Accepts, Times, WithinLimits, AllowedForNext, Sum;
    var plan, k := p.plan.value, p.step;
    SumOfPrefix(plan, k + 1);
    SumSnocAt(plan, k);
    TryBooks(t, p, plan[k], b);
    if k + 1 == |plan| {
      assert plan[..k + 1] == plan;
    }
  }

  lemma SumSnocAt(xs: seq<real>, k: nat)
    requires k < |xs|
    ensures Sum(xs[..k + 1]) == Sum(xs[..k]) + xs[k]
  {
    assert xs[..k + 1][..k] == xs[..k];
  }

  /** The state Optimal mode acts from: its plan is made on the first block. */
  function WithPlan(t: Terms, f: Formulas, s: Progress, b: Block): Progress {
    if s.plan.Some? then s
    else
      var plan := Planned(t, f, b.volatility);
      if plan.None? then s else s.(plan := plan, step := 0)
  }

  lemma WithPlanFollows(t: Terms, f: Formulas, s: Progress, b: Block)
    requires SoundFormulas(f) && Books(t, s) && Follows(t, s) && !s.completed
    requires s.plan.None? ==> s.remaining == t.total
    ensures var p := WithPlan(t, f, s, b); Books(t, p) && Follows(t, p) && p.completed == s.completed
  {
    hide Planned, Times, WithinLimits, Sum;
    if s.plan.None? {
      PlannedIsSchedule(t, f, b.volatility);
      var plan := Planned(t, f, b.volatility);
      if plan.Some? {
        assert plan.value[..0] == [];
        assert Sum([]) == 0.0 by { SumOfNothing(); }
      }
    }
  }

  lemma OptimalFollows(t: Terms, f: Formulas, s: Progress, b: Block)
    requires SoundFormulas(f) && Books(t, s) && Follows(t, s) && !s.completed && b.volatility >= 0.0
    requires s.plan.None? ==> s.remaining == t.total
    ensures var e := OnOptimal(t, f, s, b); Books(t, e) && Follows(t, e) && (e.plan.None? ==> e == s)
  {
    hide Planned, Times, WithinLimits, Sum, Try, Books;
    WithPlanFollows(t, f, s, b);
    var p := WithPlan(t, f, s, b);
    if p.plan.Some? {
      NextTradeFollows(t, p, b);
      RefusalChangesNothing(p, Min(p.plan.value[p.step], p.remaining), b);
    }
  }

  /**
    * In every gated mode, over every run of blocks: nothing is oversold, what is not left was executed up to the
    * snap, and all limits of the gate hold. In Optimal mode the inventory left is the part of the plan still ahead,
    * and the branch that writes the inventory off when the plan has run out is never taken.
    */
  lemma {:induction false} EveryRunBooks(t: Terms, f: Formulas, pct: real, reserveFrac: real, bs: seq<Block>)
    requires t.total > 0.0 && pct >= 0.0 && t.baseChunk >= 0.0 && SoundFormulas(f) && Calm(bs)
    requires t.mode in {Heuristic, Optimal, AdaptiveOptimal}
    ensures var s := RunBlocks(t, f, Start(t, pct, reserveFrac), bs);
            && Books(t, s) && s.risk.pct == pct
            && (t.mode == Optimal ==> Follows(t, s) && (s.plan.None? ==> !s.completed && s.remaining == t.total))
  {
    if bs == [] {
      TimesZero(pct);
    } else {
      hide Books, Follows, OnHeuristic, OnAdaptive;
      var n := |bs| - 1;
      EveryRunBooks(t, f, pct, reserveFrac, bs[..n]);
      var s := RunBlocks(t, f, Start(t, pct, reserveFrac), bs[..n]);
      if !s.completed {
        match t.mode {
          case Heuristic => HeuristicBooks(t, s, bs[n]);
          case Optimal => OptimalFollows(t, f, s, bs[n]);
          case AdaptiveOptimal => AdaptiveBooks(t, f, s, bs[n]);
          case _ => assert false;
        }
        PctStays(t, f, s, bs[n]);
      }
    }
  }

  // ----- Optimal mode holds the curve -----

  /** The volatility a plan is made for, and how many steps it has. */
  function SigmaFor(t: Terms, b: Block): real {
    if b.volatility > 0.0 then b.volatility else t.sigmaRef
  }

  function StepsFor(t: Terms, f: Formulas, b: Block): nat {
    if t.horizon > 0 then t.horizon else f.horizon(SigmaFor(t, b))
  }

  /** A plan can be made on this block. */
  predicate Plannable(t: Terms, f: Formulas, b: Block) {
    t.total > 0.0 && t.eta > 0.0 && t.lambda >= 0.0 && SigmaFor(t, b) >= 0.0 && StepsFor(t, f, b) > 0
  }

  /** The first block on which a plan can be made, `|bs|` when there is none. */
  function FirstPlannable(t: Terms, f: Formulas, bs: seq<Block>): nat {
    if bs == [] then 0
    else
      var i := FirstPlannable(t, f, bs[..|bs| - 1]);
      if i < |bs| - 1 || Plannable(t, f, bs[|bs| - 1]) then i else i + 1
  }

  lemma {:induction false} FirstPlannableIsFirst(t: Terms, f: Formulas, bs: seq<Block>)
    ensures var i := FirstPlannable(t, f, bs);
            && i <= |bs| && (i < |bs| ==> Plannable(t, f, bs[i]))
            && (forall j :: 0 <= j < i ==> !Plannable(t, f, bs[j]))
  {
    if bs != [] {
      FirstPlannableIsFirst(t, f, bs[..|bs| - 1]);
      hide Plannable;
    }
  }

  /** A plan is made exactly on plannable blocks; it has the steps asked for and leaves what the curve leaves. */
  lemma PlanFollowsCurve(t: Terms, f: Formulas, b: Block)
    ensures var plan, steps := Planned(t, f, b.volatility), StepsFor(t, f, b);
            && (plan.Some? <==> Plannable(t, f, b))
            && (plan.Some? ==>
                  && |plan.value| == steps
                  && forall k :: 0 < k < steps ==>
                       t.total - Sum(plan.value[..k]) == LeftOnCurve(t.total, steps, f.curve(SigmaFor(t, b)), k))
  {
    hide Schedule, Sum, LeftOnCurve;
    var plan, steps, curve := Planned(t, f, b.volatility), StepsFor(t, f, b), f.curve(SigmaFor(t, b));
    if plan.Some? {
      ScheduleLength(t.total, steps, curve);
      forall k | 0 < k < steps ensures t.total - Sum(plan.value[..k]) == LeftOnCurve(t.total, steps, curve, k) {
        ScheduleFollowsCurve(t.total, steps, curve, k);
      }
    }
  }

  lemma ScheduleLength(total: real, horizon: nat, curve: Curve)
    requires horizon > 0
    ensures |Schedule(total, horizon, curve)| == horizon
  {
  }

  /** The plan of a run is the one made on its first plannable block. */
  lemma {:induction false} PlanIsFirst(t: Terms, f: Formulas, pct: real, reserveFrac: real, bs: seq<Block>)
    requires t.total > 0.0 && pct >= 0.0 && t.baseChunk >= 0.0 && SoundFormulas(f) && Calm(bs) && t.mode == Optimal
    ensures var i := FirstPlannable(t, f, bs);
            i <= |bs| && RunBlocks(t, f, Start(t, pct, reserveFrac), bs).plan
                         == if i < |bs| then Planned(t, f, bs[i].volatility) else None
  {
    FirstPlannableIsFirst(t, f, bs);
    if bs != [] {
      var n := |bs| - 1;
      PlanIsFirst(t, f, pct, reserveFrac, bs[..n]);
      EveryRunBooks(t, f, pct, reserveFrac, bs[..n]);
      PlanFollowsCurve(t, f, bs[n]);
      FirstPlannableIsFirst(t, f, bs[..n]);
      hide Planned, Plannable, Books, Follows, Try;
      var s := RunBlocks(t, f, Start(t, pct, reserveFrac), bs[..n]);
      PlanAfterBlock(t, f, s, bs[n]);
    }
  }

  lemma PlanAfterBlock(t: Terms, f: Formulas, s: Progress, b: Block)
    requires t.mode == Optimal
    ensures AfterBlock(t, f, s, b).plan
         == if s.plan.Some? || s.completed then s.plan else Planned(t, f, b.volatility)
  {
    hide Planned, Accepts, Predicted, Booked;
  }

  /**
    * In Optimal mode, over every run and until it has completed, the inventory left after `k` accepted trades is what
    * the curve leaves after `k` steps, for the volatility of the first block on which a plan could be made.
    */
  lemma OptimalHoldsCurve(t: Terms, f: Formulas, pct: real, reserveFrac: real, bs: seq<Block>)
    requires t.total > 0.0 && pct >= 0.0 && t.baseChunk >= 0.0 && SoundFormulas(f) && Calm(bs) && t.mode == Optimal
    ensures var s, i := RunBlocks(t, f, Start(t, pct, reserveFrac), bs), FirstPlannable(t, f, bs);
            !s.completed ==>
              if i == |bs| || s.step == 0 then s.remaining == t.total
              else
                && i < |bs| && s.step < StepsFor(t, f, bs[i])
                && s.remaining == LeftOnCurve(t.total, StepsFor(t, f, bs[i]), f.curve(SigmaFor(t, bs[i])), s.step)
  {
    EveryRunBooks(t, f, pct, reserveFrac, bs);
    PlanIsFirst(t, f, pct, reserveFrac, bs);
    FirstPlannableIsFirst(t, f, bs);
    var s, i := RunBlocks(t, f, Start(t, pct, reserveFrac), bs), FirstPlannable(t, f, bs);
    hide RunBlocks, Planned, Books, LeftOnCurve, Sum, SoundFormulas;
    if i < |bs| {
      PlanFollowsCurve(t, f, bs[i]);
    }
    if s.plan.Some? && s.step == 0 {
      assert s.plan.value[..0] == [];
      SumOfNothing();
    }
  }

  lemma PctStays(t: Terms, f: Formulas, s: Progress, b: Block)
    ensures AfterBlock(t, f, s, b).risk.pct == s.risk.pct
  {
  }

  // ----- Completion -----

  /** The `i`-th block predicts no more slippage for the `i`-th trade than that trade's share of the budget. */
  ghost predicate WithinShares(pct: real, plan: seq<real>, bs: seq<Block>) {
    forall i :: 0 <= i < |plan| && i < |bs| ==> Predicted(plan[i], bs[i]) <= Times(pct, plan[i])
  }

  /**
    * When no trade asks for more than its share, none is refused: each block takes the next trade, and the whole
    * inventory is executed within as many blocks as the plan has trades.
    */
  lemma {:induction false} OptimalCompletes(t: Terms, f: Formulas, pct: real, reserveFrac: real, plan: seq<real>,
                                            bs: seq<Block>)
    requires t.total > 0.0 && pct >= 0.0 && t.baseChunk >= 0.0 && SoundFormulas(f) && Calm(bs) && t.mode == Optimal
    requires bs != [] ==> Planned(t, f, bs[0].volatility) == Some(plan)
    requires WithinShares(pct, plan, bs)
    ensures var s := RunBlocks(t, f, Start(t, pct, reserveFrac), bs);
            && (!s.completed ==> s.step == |bs| && (bs != [] ==> s.plan == Some(plan)))
            && (|bs| >= |plan| && bs != [] ==>
                  s.completed && s.remaining == 0.0 && t.total - 0.00000001 <= s.risk.executed <= t.total)
  {
    EveryRunBooks(t, f, pct, reserveFrac, bs);
    if bs != [] {
      hide Planned, Predicted, Times, WithinLimits, Sum;
      var n := |bs| - 1;
      var s := RunBlocks(t, f, Start(t, pct, reserveFrac), bs[..n]);
      OptimalCompletes(t, f, pct, reserveFrac, plan, bs[..n]);
      EveryRunBooks(t, f, pct, reserveFrac, bs[..n]);
      if !s.completed {
        WithPlanFollows(t, f, s, bs[n]);
        NextTradeIsTaken(t, WithPlan(t, f, s, bs[n]), bs[n]);
      }
    }
  }

  lemma NextTradeIsTaken(t: Terms, p: Progress, b: Block)
    requires t.total > 0.0 && p.plan.Some? && Follows(t, p) && Books(t, p) && !p.completed && b.volatility >= 0.0
    requires Predicted(p.plan.value[p.step], b) <= Times(p.risk.pct, p.plan.value[p.step])
    ensures Try(p, Min(p.plan.value[p.step], p.remaining), b).1
  {
    hide Predicted, Times, Sum, Accepts;
    NextTradeFollows(t, p, b);
    var chunk := p.plan.value[p.step];
    PredictedIsNonNegative(chunk, b);
    WithinShareIsAccepted(p.risk, Request(chunk, Predicted(chunk, b)));
  }

  // ----- Equal slices, ungated -----

  /** What `n` slices come to; slices too small to book never sell anything. */
  function Slices(n: nat, q: real): real {
    if q > 0.0000000001 then (n as real) * q else 0.0
  }

  /** After `n` blocks TWAP has sold `n` slices or everything, whatever the gate would say. */
  lemma {:induction false} TwapSellsSlices(t: Terms, f: Formulas, pct: real, reserveFrac: real, bs: seq<Block>)
    requires t.total > SNAP && t.mode == Twap
    ensures var s := RunBlocks(t, f, Start(t, pct, reserveFrac), bs);
            var left := t.total - Slices(|bs|, t.baseChunk);
            && s.remaining == (if left > 0.00000001 then left else 0.0)
            && (s.completed <==> left <= 0.00000001)
            && s.risk == Opening(t.total, pct, reserveFrac)
  {
    if bs == [] {
    } else {
      hide Slices, Opening;
      var n := |bs| - 1;
      TwapSellsSlices(t, f, pct, reserveFrac, bs[..n]);
      OneMoreSlice(|bs|, t.baseChunk);
    }
  }

  lemma OneMoreSlice(n: nat, q: real)
    requires n > 0
    ensures Slices(n, q) == Slices(n - 1, q) + if q > 0.0000000001 then q else 0.0
  {
  }
}
