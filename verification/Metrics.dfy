/** Streaming cost accounting of an execution session, and what it says about the recorded trades. */
module Metrics {
  import opened Wrappers
  import opened Arith

  datatype Trade = Trade(quantity: real, marketPrice: real, slippage: real, transient: real, deltaPermanent: real,
                         rawPrice: real, halfSpread: real)

  /** The accumulators. */
  datatype Tally = Tally(arrival: real, notional: real, executed: real, vwapNumerator: real, cumulative: real,
                         costSq: real, count: nat, forced: real, spread: real, temporary: real, permanent: real,
                         timing: real, vpins: seq<real>, costs: seq<real>, regimes: seq<string>)

  function Fresh(arrival: real, inventory: real): Tally {
    Tally(arrival, Times(arrival, inventory), 0.0, 0.0, 0.0, 0.0, 0, 0.0, 0.0, 0.0, 0.0, 0.0, [], [], [])
  }

  function RealizedCost(arrival: real, t: Trade): real {
    Times(t.quantity, t.marketPrice + t.slippage - arrival)
  }

  function ForcedCost(arrival: real, quantity: real, price: real): real {
    Times(quantity, price - arrival)
  }

  datatype Entry = Traded(trade: Trade) | Liquidated(quantity: real, price: real) | Vpin(estimate: real)
                 | Regime(name: string)

  function AfterTrade(m: Tally, t: Trade): Tally {
    var cost := RealizedCost(m.arrival, t);
    var spread, temporary, permanent := SpreadPart(t), TemporaryPart(t), PermanentPart(t);
    m.(executed := m.executed + t.quantity,
       vwapNumerator := m.vwapNumerator + Times(t.quantity, t.marketPrice + t.slippage),
       cumulative := m.cumulative + cost, costSq := m.costSq + Times(cost, cost), count := m.count + 1,
       costs := m.costs + [cost], spread := m.spread + spread, temporary := m.temporary + temporary,
       permanent := m.permanent + permanent, timing := m.timing + (cost - spread - temporary - permanent))
  }

  function AfterEntry(m: Tally, e: Entry): Tally {
    match e
    case Traded(t) => AfterTrade(m, t)
    case Liquidated(quantity, price) =>
      var cost := ForcedCost(m.arrival, quantity, price);
      m.(cumulative := m.cumulative + cost, forced := m.forced + cost, executed := m.executed + quantity,
         count := m.count + 1)
    case Vpin(estimate) => m.(vpins := m.vpins + [estimate])
    case Regime(name) => m.(regimes := m.regimes + [name])
  }

  datatype Decomposition = Decomposition(spread: real, temporary: real, permanent: real, timing: real,
                                         opportunity: real, total: real, totalAsPct: real)

  function Pct(cost: real, notional: real): real
    requires notional != 0.0
  {
    (cost / notional) * 100.0
  }

  /** Too small to divide by. */
  predicate Negligible(notional: real) {
    Abs(notional) < 0.000000000000001
  }

  // ----- Conditional costs -----

  /** The costs of the trades whose flag is set. */
  function CostWhere(flags: seq<bool>, costs: seq<real>): real
    requires |flags| == |costs|
  {
    if costs == [] then 0.0
    else
      var n := |costs| - 1;
      CostWhere(flags[..n], costs[..n]) + if flags[n] then costs[n] else 0.0
  }

  function CountWhere(flags: seq<bool>): nat {
    if flags == [] then 0 else CountWhere(flags[..|flags| - 1]) + if flags[|flags| - 1] then 1 else 0
  }

  function Above(vpins: seq<real>, threshold: real, n: nat): seq<bool>
    requires n <= |vpins|
  {
    seq(n, i requires 0 <= i < n => vpins[i] > threshold)
  }

  function Not(flags: seq<bool>): seq<bool> {
    seq(|flags|, i requires 0 <= i < |flags| => !flags[i])
  }

  function Shorter(a: nat, b: nat): nat {
    if a < b then a else b
  }

  function Bucket(flags: seq<bool>, costs: seq<real>, notional: real): Option<real>
    requires |flags| == |costs| && notional != 0.0
  {
    if CountWhere(flags) > 0 then Some(Pct(CostWhere(flags, costs), notional)) else None
  }

  /** The low-VPIN and the high-VPIN part of the shortfall. */
  function Split(m: Tally, threshold: real): (Option<real>, Option<real>) {
    if m.vpins == [] || Negligible(m.notional) then (None, None)
    else
      var n := Shorter(|m.vpins|, |m.costs|);
      var high := Above(m.vpins, threshold, n);
      (Bucket(Not(high), m.costs[..n], m.notional), Bucket(high, m.costs[..n], m.notional))
  }

  function OrZero(x: Option<real>): real {
    if x.Some? then x.value else 0.0
  }

  function Decomposed(m: Tally): Option<Decomposition> {
    if m.count == 0 then None
    else Some(Decomposition(m.spread, m.temporary, m.permanent, m.timing, m.forced, m.cumulative,
                            if Abs(m.notional) > 0.000000000000001 then Pct(m.cumulative, m.notional) else 0.0))
  }

  // ----- Costs by regime -----

  /** One regime: its cost (or percentage) and how many executions fell into it. */
  datatype Row = Row(name: string, cost: real, count: nat)

  /** Add a cost to its regime's row, opening one if there is none. */
  function AddTo(rows: seq<Row>, name: string, cost: real): seq<Row> {
    if rows == [] then [Row(name, cost, 1)]
    else
      var n := |rows| - 1;
      if rows[n].name == name then rows[n := Row(name, rows[n].cost + cost, rows[n].count + 1)]
      else AddTo(rows[..n], name, cost) + [rows[n]]
  }

  function Rows(names: seq<string>, costs: seq<real>): seq<Row>
    requires |names| == |costs|
  {
    if names == [] then []
    else
      var n := |names| - 1;
      AddTo(Rows(names[..n], costs[..n]), names[n], costs[n])
  }

  predicate AtMost(a: string, b: string) {
    a == [] || (b != [] && (a[0] < b[0] || (a[0] == b[0] && AtMost(a[1..], b[1..]))))
  }

  /** More executions first, then by name. */
  predicate Precedes(a: Row, b: Row) {
    a.count > b.count || (a.count == b.count && AtMost(a.name, b.name))
  }

  function InsertRow(rows: seq<Row>, r: Row): seq<Row> {
    if rows == [] || Precedes(rows[|rows| - 1], r) then rows + [r]
    else InsertRow(rows[..|rows| - 1], r) + [rows[|rows| - 1]]
  }

  function SortRows(rows: seq<Row>): seq<Row> {
    if rows == [] then [] else InsertRow(SortRows(rows[..|rows| - 1]), rows[|rows| - 1])
  }

  function InPercent(rows: seq<Row>, notional: real): seq<Row>
    requires notional != 0.0
  {
    seq(|rows|, i requires 0 <= i < |rows| => rows[i].(cost := Pct(rows[i].cost, notional)))
  }

  function ByRegime(m: Tally): seq<Row> {
    var n := Shorter(|m.regimes|, |m.costs|);
    if n == 0 || Negligible(m.notional) then []
    else SortRows(InPercent(Rows(m.regimes[..n], m.costs[..n]), m.notional))
  }

  class ExecutionMetrics {
    var m: Tally

    constructor (arrival: real, inventory: real)
      ensures m == Fresh(arrival, inventory)
    {
      m := Fresh(arrival, inventory);
    }

    method RecordTrade(t: Trade)
      modifies this
      ensures m == AfterEntry(old(m), Traded(t))
    {
      hide Times;
      var price := t.marketPrice + t.slippage;
      var cost := Times(t.quantity, price - m.arrival);
      m := m.(executed := m.executed + t.quantity, vwapNumerator := m.vwapNumerator + Times(t.quantity, price));
      m := m.(cumulative := m.cumulative + cost, costSq := m.costSq + Times(cost, cost));
      m := m.(costs := m.costs + [cost], count := m.count + 1);
      var spread := Times(t.quantity, t.halfSpread);
      var temporary := Times(Times(t.quantity, t.transient), t.marketPrice);
      var permanent := Times(Times(t.quantity, t.deltaPermanent), t.rawPrice);
      var timing := cost - spread - temporary - permanent;
      m := m.(spread := m.spread + spread, temporary := m.temporary + temporary,
              permanent := m.permanent + permanent, timing := m.timing + timing);
    }

    method RecordForcedLiquidation(quantity: real, price: real)
      modifies this
      ensures m == AfterEntry(old(m), Liquidated(quantity, price))
    {
      var cost := Times(quantity, price - m.arrival);
      m := m.(cumulative := m.cumulative + cost, forced := m.forced + cost);
      m := m.(executed := m.executed + quantity, count := m.count + 1);
    }

    method RecordVpin(estimate: real)
      modifies this
      ensures m == AfterEntry(old(m), Vpin(estimate))
    {
      m := m.(vpins := m.vpins + [estimate]);
    }

    method RecordRegime(name: string)
      modifies this
      ensures m == AfterEntry(old(m), Regime(name))
    {
      m := m.(regimes := m.regimes + [name]);
    }

    method ConditionalShortfallPercent(threshold: real) returns (low: Option<real>, high: Option<real>)
      ensures (low, high) == Split(m, threshold)
    {
      hide CostWhere, CountWhere;
      if m.vpins == [] || Negligible(m.notional) {
        return None, None;
      }
      var n := Shorter(|m.vpins|, |m.costs|);
      var lowCost, highCost, lowCount, highCount := 0.0, 0.0, 0, 0;
      ghost var flags := Above(m.vpins, threshold, n);
      NothingWhere();
      for i := 0 to n
        invariant lowCost == CostWhere(Not(flags)[..i], m.costs[..i]) && lowCount == CountWhere(Not(flags)[..i])
        invariant highCost == CostWhere(flags[..i], m.costs[..i]) && highCount == CountWhere(flags[..i])
      {
        WhereSnoc(flags, m.costs, i);
        WhereSnoc(Not(flags), m.costs, i);
        if m.vpins[i] > threshold {
          highCost, highCount := highCost + m.costs[i], highCount + 1;
        } else {
          lowCost, lowCount := lowCost + m.costs[i], lowCount + 1;
        }
      }
      assert flags[..n] == flags && Not(flags)[..n] == Not(flags);
      low := if lowCount > 0 then Some(lowCost / m.notional * 100.0) else None;
      high := if highCount > 0 then Some(highCost / m.notional * 100.0) else None;
    }

    method IsByRegime() returns (rows: seq<Row>)
      ensures rows == ByRegime(m)
    {
      hide AddTo, SortRows, Pct;
      var n := Shorter(|m.regimes|, |m.costs|);
      if n == 0 || Negligible(m.notional) {
        return [];
      }
      rows := [];
      for i := 0 to n
        invariant rows == Rows(m.regimes[..i], m.costs[..i])
      {
        assert m.regimes[..i + 1][..i] == m.regimes[..i] && m.costs[..i + 1][..i] == m.costs[..i];
        rows := AddTo(rows, m.regimes[i], m.costs[i]);
      }
      rows := SortRows(InPercent(rows, m.notional));
    }
  }

  lemma NothingWhere()
    ensures CostWhere([], []) == 0.0 && CountWhere([]) == 0
  {
  }

  lemma WhereSnoc(flags: seq<bool>, costs: seq<real>, i: nat)
    requires i < |flags| <= |costs|
    ensures CostWhere(flags[..i + 1], costs[..i + 1])
         == CostWhere(flags[..i], costs[..i]) + if flags[i] then costs[i] else 0.0
    ensures CountWhere(flags[..i + 1]) == CountWhere(flags[..i]) + if flags[i] then 1 else 0
  {
    assert flags[..i + 1][..i] == flags[..i] && costs[..i + 1][..i] == costs[..i];
  }

  // ----- Every session -----

  function Session(m: Tally, es: seq<Entry>): Tally {
    if es == [] then m else AfterEntry(Session(m, es[..|es| - 1]), es[|es| - 1])
  }

  /** The costs of all recorded executions, forced ones included. */
  function AllCosts(arrival: real, es: seq<Entry>): seq<real> {
    if es == [] then []
    else
      AllCosts(arrival, es[..|es| - 1]) +
      match es[|es| - 1]
      case Traded(t) => [RealizedCost(arrival, t)]
      case Liquidated(quantity, price) => [ForcedCost(arrival, quantity, price)]
      case _ => []
  }

  function ForcedCosts(arrival: real, es: seq<Entry>): seq<real> {
    if es == [] then []
    else
      ForcedCosts(arrival, es[..|es| - 1]) +
      match es[|es| - 1]
      case Liquidated(quantity, price) => [ForcedCost(arrival, quantity, price)]
      case _ => []
  }

  function SumSq(xs: seq<real>): real {
    if xs == [] then 0.0 else SumSq(xs[..|xs| - 1]) + Times(xs[|xs| - 1], xs[|xs| - 1])
  }

  /** The accumulators hold the sums they stand for: of all costs, of the forced ones, of the squares of the others. */
  ghost predicate Agrees(m: Tally, all: seq<real>, forced: seq<real>) {
    && m.spread + m.temporary + m.permanent + m.timing + m.forced == m.cumulative
    && m.cumulative == Sum(all) && m.forced == Sum(forced) && m.count == |all|
    && m.costSq == SumSq(all) - SumSq(forced)
    && Sum(m.costs) == Sum(all) - Sum(forced)
  }

  lemma TradeAgrees(m: Tally, t: Trade, all: seq<real>, forced: seq<real>)
    requires Agrees(m, all, forced)
    ensures Agrees(AfterTrade(m, t), all + [RealizedCost(m.arrival, t)], forced)
  {
  }

  lemma LiquidationAgrees(m: Tally, quantity: real, price: real, all: seq<real>, forced: seq<real>)
    requires Agrees(m, all, forced)
    ensures var cost := ForcedCost(m.arrival, quantity, price);
            Agrees(AfterEntry(m, Liquidated(quantity, price)), all + [cost], forced + [cost])
  {
  }

  /** Over every session the five components sum to the cumulative cost, and the accumulators agree with the costs. */
  lemma {:induction false} EverySessionAddsUp(arrival: real, inventory: real, es: seq<Entry>)
    ensures var m := Session(Fresh(arrival, inventory), es);
            && Agrees(m, AllCosts(arrival, es), ForcedCosts(arrival, es))
            && m.arrival == arrival && m.notional == Times(arrival, inventory)
  {
    if es == [] {
    } else {
      hide Times, Agrees;
      var n := |es| - 1;
      var m, all, forced := Session(Fresh(arrival, inventory), es[..n]), AllCosts(arrival, es[..n]),
                            ForcedCosts(arrival, es[..n]);
      EverySessionAddsUp(arrival, inventory, es[..n]);
      assert all + [] == all && forced + [] == forced;
      match es[n] {
        case Traded(t) => TradeAgrees(m, t, all, forced);
        case Liquidated(quantity, price) => LiquidationAgrees(m, quantity, price, all, forced);
        case Vpin(_) => NotesAgree(m, es[n], all, forced);
        case Regime(_) => NotesAgree(m, es[n], all, forced);
      }
    }
  }

  lemma NotesAgree(m: Tally, e: Entry, all: seq<real>, forced: seq<real>)
    requires Agrees(m, all, forced) && (e.Vpin? || e.Regime?)
    ensures Agrees(AfterEntry(m, e), all, forced)
  {
  }

  // ----- The decomposition -----

  function Trades(es: seq<Entry>): seq<Trade> {
    if es == [] then []
    else
      Trades(es[..|es| - 1]) + if es[|es| - 1].Traded? then [es[|es| - 1].trade] else []
  }

  function SumOver(ts: seq<Trade>, part: Trade -> real): real {
    if ts == [] then 0.0 else SumOver(ts[..|ts| - 1], part) + part(ts[|ts| - 1])
  }

  function SpreadPart(t: Trade): real {
    Times(t.quantity, t.halfSpread)
  }

  function TemporaryPart(t: Trade): real {
    Times(Times(t.quantity, t.transient), t.marketPrice)
  }

  function PermanentPart(t: Trade): real {
    Times(Times(t.quantity, t.deltaPermanent), t.rawPrice)
  }

  lemma SumOverSnoc(ts: seq<Trade>, t: Trade, part: Trade -> real)
    ensures SumOver(ts + [t], part) == SumOver(ts, part) + part(t)
  {
    assert (ts + [t])[..|ts|] == ts;
  }

  lemma {:induction false} ComponentsAreSums(arrival: real, inventory: real, es: seq<Entry>)
    ensures var m := Session(Fresh(arrival, inventory), es);
            && m.spread == SumOver(Trades(es), SpreadPart)
            && m.temporary == SumOver(Trades(es), TemporaryPart)
            && m.permanent == SumOver(Trades(es), PermanentPart)
  {
    if es == [] {
    } else {
      hide Times, SumOver, RealizedCost, ForcedCost;
      var n := |es| - 1;
      ComponentsAreSums(arrival, inventory, es[..n]);
      var ts := Trades(es[..n]);
      assert ts + [] == ts;
      if es[n].Traded? {
        SumOverSnoc(ts, es[n].trade, SpreadPart);
        SumOverSnoc(ts, es[n].trade, TemporaryPart);
        SumOverSnoc(ts, es[n].trade, PermanentPart);
      }
    }
  }

  /** `x` is `cost` in percent of the notional, nothing when that is too small to divide by. */
  predicate IsPercent(x: real, cost: real, notional: real) {
    if Abs(notional) > 0.000000000000001 then Times(x, notional) == 100.0 * cost else x == 0.0
  }

  lemma PctIsPercent(cost: real, notional: real)
    ensures Abs(notional) > 0.000000000000001 ==> IsPercent(Pct(cost, notional), cost, notional)
  {
    if Abs(notional) > 0.000000000000001 {
      var q := cost / notional;
      assert q * notional == cost;
    }
  }

  /**
    * A session reports a decomposition once something was executed: spread and impacts are the sums of the trades'
    * own, opportunity cost that of the forced liquidations, and with timing they make up the total cost.
    */
  lemma DecompositionAddsUp(arrival: real, inventory: real, es: seq<Entry>)
    ensures var r := Decomposed(Session(Fresh(arrival, inventory), es));
            var all := AllCosts(arrival, es);
            && (r == None <==> all == [])
            && (all != [] ==>
                  var d := r.value;
                  && d.spread + d.temporary + d.permanent + d.timing + d.opportunity == d.total == Sum(all)
                  && d.spread == SumOver(Trades(es), SpreadPart)
                  && d.temporary == SumOver(Trades(es), TemporaryPart)
                  && d.permanent == SumOver(Trades(es), PermanentPart)
                  && d.opportunity == Sum(ForcedCosts(arrival, es))
                  && IsPercent(d.totalAsPct, d.total, Times(arrival, inventory)))
  {
    PctIsPercent(Session(Fresh(arrival, inventory), es).cumulative, Times(arrival, inventory));
    hide Session, AllCosts, ForcedCosts, Trades, SumOver, Sum, Times;
    EverySessionAddsUp(arrival, inventory, es);
    ComponentsAreSums(arrival, inventory, es);
  }

  // ----- Variance -----

  function StreamingVariance(m: Tally): real
    requires m.count > 0
  {
    var n := m.count as real;
    var mean := m.cumulative / n;
    m.costSq / n - Times(mean, mean)
  }

  function Deviations(xs: seq<real>, mean: real): real {
    if xs == [] then 0.0
    else
      Deviations(xs[..|xs| - 1], mean) + Times(xs[|xs| - 1] - mean, xs[|xs| - 1] - mean)
  }

  /** The two-pass population variance. */
  function Variance(xs: seq<real>): real
    requires xs != []
  {
    Deviations(xs, Sum(xs) / (|xs| as real)) / (|xs| as real)
  }

  lemma SquareOfDifference(x: real, y: real)
    ensures Times(x - y, x - y) == Times(x, x) - 2.0 * Times(y, x) + Times(y, y)
    ensures Times(x, x) >= 0.0
  {
  }

  lemma {:induction false} DeviationsExpand(xs: seq<real>, mean: real)
    ensures Deviations(xs, mean) == SumSq(xs) - 2.0 * Times(mean, Sum(xs)) + Times(|xs| as real, Times(mean, mean))
    ensures Deviations(xs, mean) >= 0.0
  {
    hide Times;
    if xs == [] {
      TimesZero(mean);
      TimesZero(Times(mean, mean));
    } else {
      var n := |xs| - 1;
      DeviationsExpand(xs[..n], mean);
      SquareOfDifference(xs[n], mean);
      SquareOfDifference(xs[n] - mean, 0.0);
      TimesSplit(n as real, 1.0, Times(mean, mean));
      assert (|xs| as real) == (n as real) + 1.0;
      TimesSwap(mean, Sum(xs));
      TimesSwap(mean, Sum(xs[..n]));
      TimesSwap(mean, xs[n]);
      TimesSplit(Sum(xs[..n]), xs[n], mean);
      TimesOne(Times(mean, mean));
    }
  }

  /** The one-pass identity. */
  lemma VarianceIdentity(xs: seq<real>)
    requires xs != []
    ensures var n := |xs| as real;
            var mean := Sum(xs) / n;
            Variance(xs) == SumSq(xs) / n - Times(mean, mean) && Variance(xs) >= 0.0
  {
    var n := |xs| as real;
    var mean := Sum(xs) / n;
    DeviationsExpand(xs, mean);
    IdentityAlgebra(SumSq(xs), Sum(xs), n, mean);
    assert Deviations(xs, mean) / n >= 0.0;
  }

  lemma IdentityAlgebra(sq: real, sum: real, n: real, mean: real)
    requires n > 0.0 && mean == sum / n
    ensures (sq - 2.0 * Times(mean, sum) + Times(n, Times(mean, mean))) / n == sq / n - Times(mean, mean)
  {
  }

  lemma {:induction false} SumSqVanishes(xs: seq<real>)
    ensures SumSq(xs) >= 0.0
    ensures SumSq(xs) == 0.0 <==> (forall i :: 0 <= i < |xs| ==> xs[i] == 0.0)
  {
    if xs != [] {
      var n := |xs| - 1;
      SumSqVanishes(xs[..n]);
      SquareVanishes(xs[n]);
      assert forall i :: 0 <= i < n ==> xs[..n][i] == xs[i];
    }
  }

  lemma SquareVanishes(x: real)
    ensures Times(x, x) >= 0.0 && (Times(x, x) == 0.0 <==> x == 0.0)
  {
    hide Times;
    if x > 0.0 {
      PositiveProduct(x, x);
    } else if x < 0.0 {
      PositiveProduct(-x, -x);
      OppositeSquare(x);
    } else {
      TimesZero(x);
    }
  }

  lemma PositiveProduct(a: real, b: real)
    requires a > 0.0 && b > 0.0
    ensures Times(a, b) > 0.0
  {
  }

  lemma OppositeSquare(x: real)
    ensures Times(-x, -x) == Times(x, x)
  {
  }

  /**
    * The streaming variance falls short of the variance of all recorded costs by the mean square of the forced ones:
    * it is exact if and only if every forced liquidation cost nothing.
    */
  lemma StreamingVarianceIsExactIff(arrival: real, inventory: real, es: seq<Entry>)
    requires AllCosts(arrival, es) != []
    ensures var m := Session(Fresh(arrival, inventory), es);
            var all := AllCosts(arrival, es);
            var forced := ForcedCosts(arrival, es);
            && m.count == |all|
            && StreamingVariance(m) == Variance(all) - SumSq(forced) / (|all| as real)
            && (StreamingVariance(m) == Variance(all) <==> (forall i :: 0 <= i < |forced| ==> forced[i] == 0.0))
            && (forced == [] ==> StreamingVariance(m) >= 0.0)
  {
    hide AllCosts, ForcedCosts, Session, Variance, Sum;
    EverySessionAddsUp(arrival, inventory, es);
    var all, forced := AllCosts(arrival, es), ForcedCosts(arrival, es);
    VarianceIdentity(all);
    SumSqVanishes(forced);
    var n := |all| as real;
    DivideSplit(SumSq(all) - SumSq(forced), SumSq(forced), n);
    QuotientVanishes(SumSq(forced), n);
  }

  lemma QuotientVanishes(x: real, n: real)
    requires n > 0.0
    ensures x / n == 0.0 <==> x == 0.0
  {
  }

  /** One forced liquidation on its own reports a negative variance. */
  lemma VarianceCanBeNegative()
    ensures StreamingVariance(Session(Fresh(100.0, 10.0), [Liquidated(1.0, 99.0)])) == -1.0
  {
  }

  // ----- The two VPIN buckets -----

  lemma {:induction false} WherePartitions(flags: seq<bool>, costs: seq<real>)
    requires |flags| == |costs|
    ensures CostWhere(flags, costs) + CostWhere(Not(flags), costs) == Sum(costs)
    ensures CountWhere(flags) == 0 ==> CostWhere(flags, costs) == 0.0
  {
    if costs != [] {
      var n := |costs| - 1;
      WherePartitions(flags[..n], costs[..n]);
      assert Not(flags)[..n] == Not(flags[..n]);
    }
  }

  lemma BucketIsPart(flags: seq<bool>, costs: seq<real>, notional: real)
    requires |flags| == |costs| && notional != 0.0
    ensures OrZero(Bucket(flags, costs, notional)) == Pct(CostWhere(flags, costs), notional)
  {
  }

  lemma PctAdds(a: real, b: real, notional: real)
    requires notional != 0.0
    ensures Pct(a, notional) + Pct(b, notional) == Pct(a + b, notional)
  {
  }

  /**
    * The two buckets sum to the shortfall less what they do not see: forced liquidations, and trades beyond the
    * recorded estimates. With one estimate for each trade they sum to it if and only if the forced cost is nil.
    */
  lemma BucketsSumToShortfall(arrival: real, inventory: real, es: seq<Entry>, threshold: real)
    requires Abs(Times(arrival, inventory)) >= 0.000000000000001
    ensures var m := Session(Fresh(arrival, inventory), es);
            var (low, high) := Split(m, threshold);
            && m.notional == Times(arrival, inventory)
            && (m.vpins != [] ==>
                  var n := Shorter(|m.vpins|, |m.costs|);
                  OrZero(low) + OrZero(high)
                  == Pct(m.cumulative - m.forced - Sum(m.costs[n..]), m.notional))
            && (m.vpins != [] && |m.vpins| == |m.costs| ==>
                  (OrZero(low) + OrZero(high) == Pct(m.cumulative, m.notional) <==> m.forced == 0.0))
  {
    hide Times, Session, AllCosts, ForcedCosts, Pct, Sum, CostWhere, CountWhere, Bucket;
    EverySessionAddsUp(arrival, inventory, es);
    var m := Session(Fresh(arrival, inventory), es);
    if m.vpins != [] {
      var n := Shorter(|m.vpins|, |m.costs|);
      var flags, costs := Above(m.vpins, threshold, n), m.costs[..n];
      WherePartitions(flags, costs);
      BucketIsPart(flags, costs, m.notional);
      BucketIsPart(Not(flags), costs, m.notional);
      PctAdds(CostWhere(Not(flags), costs), CostWhere(flags, costs), m.notional);
      assert m.costs == costs + m.costs[n..];
      SumAppend(costs, m.costs[n..]);
      if |m.vpins| == |m.costs| {
        assert m.costs[n..] == [];
        SumOfNothing();
        PctAdds(m.cumulative - m.forced, m.forced, m.notional);
        PctVanishes(m.forced, m.notional);
      }
    }
  }

  lemma PctVanishes(x: real, notional: real)
    requires notional != 0.0
    ensures Pct(x, notional) == 0.0 <==> x == 0.0
  {
  }

  // ----- The regime report -----

  function Is(names: seq<string>, name: string): seq<bool> {
    seq(|names|, i requires 0 <= i < |names| => names[i] == name)
  }

  function TotalCost(rows: seq<Row>): real {
    if rows == [] then 0.0 else TotalCost(rows[..|rows| - 1]) + rows[|rows| - 1].cost
  }

  function TotalCount(rows: seq<Row>): nat {
    if rows == [] then 0 else TotalCount(rows[..|rows| - 1]) + rows[|rows| - 1].count
  }

  function RowOf(rows: seq<Row>, name: string): Row {
    if rows == [] then Row(name, 0.0, 0)
    else if rows[|rows| - 1].name == name then rows[|rows| - 1]
    else RowOf(rows[..|rows| - 1], name)
  }

  ghost predicate Distinct(rows: seq<Row>) {
    forall i, j :: 0 <= i < j < |rows| ==> rows[i].name != rows[j].name
  }

  lemma {:induction false} AddToDistinct(rows: seq<Row>, name: string, cost: real)
    requires Distinct(rows)
    ensures var r := AddTo(rows, name, cost);
            && Distinct(r)
            && (forall i :: 0 <= i < |r| ==>
                  r[i].name == name || exists j :: 0 <= j < |rows| && rows[j].name == r[i].name)
  {
    if rows == [] || rows[|rows| - 1].name == name {
    } else {
      AddToDistinct(rows[..|rows| - 1], name, cost);
    }
  }

  lemma {:induction false} AddToRow(rows: seq<Row>, name: string, cost: real, other: string)
    ensures RowOf(AddTo(rows, name, cost), other)
         == if other == name then Row(name, RowOf(rows, name).cost + cost, RowOf(rows, name).count + 1)
            else RowOf(rows, other)
  {
    if rows == [] {
      assert [Row(name, cost, 1)][..0] == [];
    } else {
      hide AddTo;
      AddToRow(rows[..|rows| - 1], name, cost, other);
      AddToSplits(rows, name, cost);
    }
  }

  lemma AddToSplits(rows: seq<Row>, name: string, cost: real)
    requires rows != []
    ensures var r, n := AddTo(rows, name, cost), |rows| - 1;
            && r != []
            && r[..|r| - 1] == (if rows[n].name == name then rows[..n] else AddTo(rows[..n], name, cost))
            && r[|r| - 1] == if rows[n].name == name then Row(name, rows[n].cost + cost, rows[n].count + 1) else rows[n]
  {
  }

  lemma {:induction false} AddToTotals(rows: seq<Row>, name: string, cost: real)
    ensures TotalCost(AddTo(rows, name, cost)) == TotalCost(rows) + cost
    ensures TotalCount(AddTo(rows, name, cost)) == TotalCount(rows) + 1
  {
    if rows == [] {
      assert [Row(name, cost, 1)][..0] == [];
    } else {
      AddToTotals(rows[..|rows| - 1], name, cost);
      AddToSplits(rows, name, cost);
    }
  }

  /** Each regime's row holds exactly the costs and the number of the executions with its label. */
  lemma {:induction false} RowsAreConditionalCosts(names: seq<string>, costs: seq<real>, name: string)
    requires |names| == |costs|
    ensures var rows := Rows(names, costs);
            && Distinct(rows)
            && RowOf(rows, name) == Row(name, CostWhere(Is(names, name), costs), CountWhere(Is(names, name)))
  {
    if names == [] {
      assert Is(names, name) == [];
    } else {
      hide AddTo, RowOf;
      var n := |names| - 1;
      RowsAreConditionalCosts(names[..n], costs[..n], name);
      AddToDistinct(Rows(names[..n], costs[..n]), names[n], costs[n]);
      AddToRow(Rows(names[..n], costs[..n]), names[n], costs[n], name);
      assert Is(names, name)[..n] == Is(names[..n], name);
    }
  }

  lemma {:induction false} RowsTotal(names: seq<string>, costs: seq<real>)
    requires |names| == |costs|
    ensures TotalCost(Rows(names, costs)) == Sum(costs) && TotalCount(Rows(names, costs)) == |names|
  {
    if names != [] {
      hide AddTo;
      var n := |names| - 1;
      RowsTotal(names[..n], costs[..n]);
      AddToTotals(Rows(names[..n], costs[..n]), names[n], costs[n]);
    }
  }

  lemma {:induction false} InsertRowTotals(rows: seq<Row>, r: Row)
    ensures TotalCost(InsertRow(rows, r)) == TotalCost(rows) + r.cost
    ensures TotalCount(InsertRow(rows, r)) == TotalCount(rows) + r.count
  {
    var n := |rows| - 1;
    if rows == [] || Precedes(rows[n], r) {
      assert (rows + [r])[..|rows|] == rows;
    } else {
      InsertRowTotals(rows[..n], r);
      assert (InsertRow(rows[..n], r) + [rows[n]])[..|InsertRow(rows[..n], r)|] == InsertRow(rows[..n], r);
    }
  }

  lemma {:induction false} SortRowsTotals(rows: seq<Row>)
    ensures TotalCost(SortRows(rows)) == TotalCost(rows) && TotalCount(SortRows(rows)) == TotalCount(rows)
  {
    if rows != [] {
      SortRowsTotals(rows[..|rows| - 1]);
      InsertRowTotals(SortRows(rows[..|rows| - 1]), rows[|rows| - 1]);
    }
  }

  lemma {:induction false} AtMostIsTotal(a: string, b: string)
    ensures AtMost(a, b) || AtMost(b, a)
    decreases |a|
  {
    if a != [] && b != [] {
      AtMostIsTotal(a[1..], b[1..]);
    }
  }

  /** Neighbours are in order. */
  ghost predicate InOrder(rows: seq<Row>) {
    forall i :: 0 <= i < |rows| - 1 ==> Precedes(rows[i], rows[i + 1])
  }

  lemma {:induction false} InsertRowPermutes(rows: seq<Row>, r: Row)
    ensures multiset(InsertRow(rows, r)) == multiset(rows) + multiset{r}
  {
    hide Precedes;
    var n := |rows| - 1;
    if rows == [] || Precedes(rows[n], r) {
    } else {
      InsertRowPermutes(rows[..n], r);
      assert rows == rows[..n] + [rows[n]];
    }
  }

  lemma {:induction false} InsertRowOrders(rows: seq<Row>, r: Row)
    requires InOrder(rows)
    ensures var s := InsertRow(rows, r);
            InOrder(s) && s != [] && (s[|s| - 1] == r || (rows != [] && s[|s| - 1] == rows[|rows| - 1]))
  {
    hide Precedes;
    var n := |rows| - 1;
    if rows == [] || Precedes(rows[n], r) {
    } else {
      InsertRowOrders(rows[..n], r);
      PrecedesIsTotal(rows[n], r);
      if n > 0 {
        assert Precedes(rows[n - 1], rows[n]);
      }
    }
  }

  lemma PrecedesIsTotal(a: Row, b: Row)
    ensures Precedes(a, b) || Precedes(b, a)
  {
    AtMostIsTotal(a.name, b.name);
  }

  lemma {:induction false} SortRowsPermutes(rows: seq<Row>)
    ensures multiset(SortRows(rows)) == multiset(rows)
  {
    hide InsertRow;
    if rows != [] {
      var front, last := rows[..|rows| - 1], rows[|rows| - 1];
      SortRowsPermutes(front);
      InsertRowPermutes(SortRows(front), last);
      assert rows == front + [last];
      assert SortRows(rows) == InsertRow(SortRows(front), last);
      hide SortRows;
    }
  }

  lemma {:induction false} SortRowsOrders(rows: seq<Row>)
    ensures InOrder(SortRows(rows))
  {
    if rows != [] {
      hide InsertRow, InOrder;
      SortRowsOrders(rows[..|rows| - 1]);
      InsertRowOrders(SortRows(rows[..|rows| - 1]), rows[|rows| - 1]);
    } else {
      SortOfNone();
    }
  }

  lemma SortOfNone()
    ensures SortRows([]) == [] && InOrder(SortRows([]))
  {
  }

  /** `a` is a prefix of `b`, or smaller at the first place where they differ. */
  ghost predicate NotAfter(a: string, b: string) {
    a <= b || exists k :: 0 <= k < |a| && k < |b| && a[..k] == b[..k] && a[k] < b[k]
  }

  lemma {:induction false} AtMostIsOrder(a: string, b: string)
    requires AtMost(a, b)
    ensures NotAfter(a, b)
    decreases |a|
  {
    if a != [] && b != [] {
      if a[0] < b[0] {
        assert a[..0] == b[..0];
      } else {
        AtMostIsOrder(a[1..], b[1..]);
        OrderBeyond(a, b);
      }
    }
  }

  lemma OrderBeyond(a: string, b: string)
    requires a != [] && b != [] && a[0] == b[0] && NotAfter(a[1..], b[1..])
    ensures NotAfter(a, b)
  {
    assert a == [a[0]] + a[1..] && b == [b[0]] + b[1..];
    if !(a[1..] <= b[1..]) {
      var k :| 0 <= k < |a[1..]| && k < |b[1..]| && a[1..][..k] == b[1..][..k] && a[1..][k] < b[1..][k];
      assert a[..k + 1] == [a[0]] + a[1..][..k] && b[..k + 1] == [b[0]] + b[1..][..k];
      assert a[k + 1] < b[k + 1];
    }
  }

  /** More executions come first, and of as many the name that is not after the other. */
  ghost predicate ReportOrder(rows: seq<Row>) {
    forall i :: 0 <= i < |rows| - 1 ==>
      || rows[i].count > rows[i + 1].count
      || (rows[i].count == rows[i + 1].count && NotAfter(rows[i].name, rows[i + 1].name))
  }

  lemma InOrderIsReportOrder(rows: seq<Row>)
    requires InOrder(rows)
    ensures ReportOrder(rows)
  {
    forall i | 0 <= i < |rows| - 1 ensures AtMost(rows[i].name, rows[i + 1].name) ==>
                                             NotAfter(rows[i].name, rows[i + 1].name)
    {
      if AtMost(rows[i].name, rows[i + 1].name) {
        AtMostIsOrder(rows[i].name, rows[i + 1].name);
      }
    }
    hide AtMost, NotAfter;
  }

  lemma {:induction false} RowOfEntry(rows: seq<Row>, i: nat)
    requires Distinct(rows) && i < |rows|
    ensures RowOf(rows, rows[i].name) == rows[i]
  {
    if i < |rows| - 1 {
      RowOfEntry(rows[..|rows| - 1], i);
    }
  }

  lemma {:induction false} RowOfLabel(rows: seq<Row>, name: string) returns (i: nat)
    requires RowOf(rows, name).count > 0
    ensures i < |rows| && rows[i] == RowOf(rows, name) && rows[i].name == name
  {
    var n := |rows| - 1;
    if rows[n].name == name {
      i := n;
    } else {
      i := RowOfLabel(rows[..n], name);
    }
  }

  /** A row of the report: the executions with its label, and their cost in percent of the notional. */
  ghost predicate IsRegimeRow(r: Row, labels: seq<string>, costs: seq<real>, notional: real)
    requires |labels| == |costs|
  {
    && r.count == CountWhere(Is(labels, r.name))
    && Times(r.cost, notional) == 100.0 * CostWhere(Is(labels, r.name), costs)
  }

  /** Every row of the regime report is its label's, and every label that occurs has a row. */
  lemma ReportIsConditional(m: Tally, labels: seq<string>, costs: seq<real>)
    requires Abs(m.notional) >= 0.000000000000001
    requires labels == m.regimes[..Shorter(|m.regimes|, |m.costs|)] && costs == m.costs[..|labels|]
    ensures forall i :: 0 <= i < |ByRegime(m)| ==> IsRegimeRow(ByRegime(m)[i], labels, costs, m.notional)
    ensures forall name: string :: CountWhere(Is(labels, name)) > 0 ==>
              exists i :: 0 <= i < |ByRegime(m)| && ByRegime(m)[i].name == name
  {
    var report := ByRegime(m);
    if labels != [] {
      var rows := Rows(labels, costs);
      var inPercent := InPercent(rows, m.notional);
      SortRowsPermutes(inPercent);
      assert report == SortRows(inPercent);
      hide ByRegime, SortRows, Rows, CountWhere, CostWhere, Is;
      forall i | 0 <= i < |report| ensures IsRegimeRow(report[i], labels, costs, m.notional) {
        assert report[i] in multiset(report);
        var j :| 0 <= j < |inPercent| && inPercent[j] == report[i];
        RowsAreConditionalCosts(labels, costs, rows[j].name);
        RowOfEntry(rows, j);
        PctTimes(rows[j].cost, m.notional);
      }
      forall name: string | CountWhere(Is(labels, name)) > 0
        ensures exists i :: 0 <= i < |report| && report[i].name == name
      {
        RowsAreConditionalCosts(labels, costs, name);
        var j := RowOfLabel(rows, name);
        assert inPercent[j] in multiset(report);
      }
    } else {
      NoLabels(costs);
    }
  }

  lemma NoLabels(costs: seq<real>)
    ensures forall name: string :: CountWhere(Is([], name)) == 0
  {
    forall name: string ensures Is([], name) == [] {
    }
  }

  lemma PctTimes(cost: real, notional: real)
    requires notional != 0.0
    ensures Times(Pct(cost, notional), notional) == 100.0 * cost
  {
    var q := cost / notional;
    assert q * notional == cost;
  }

  lemma {:induction false} InPercentTotals(rows: seq<Row>, notional: real)
    requires notional != 0.0
    ensures TotalCost(InPercent(rows, notional)) == Pct(TotalCost(rows), notional)
    ensures TotalCount(InPercent(rows, notional)) == TotalCount(rows)
  {
    if rows == [] {
      PctVanishes(0.0, notional);
    } else {
      hide Pct;
      var n := |rows| - 1;
      InPercentTotals(rows[..n], notional);
      assert InPercent(rows, notional)[..n] == InPercent(rows[..n], notional);
      PctAdds(TotalCost(rows[..n]), rows[n].cost, notional);
    }
  }

  /**
    * The report is in order, counts every labelled execution once, and its percentages sum to the shortfall less what
    * it does not see; with one label for each trade they sum to it if and only if the forced cost is nil.
    */
  lemma RegimesSumToShortfall(arrival: real, inventory: real, es: seq<Entry>)
    requires Abs(Times(arrival, inventory)) >= 0.000000000000001
    ensures var m := Session(Fresh(arrival, inventory), es);
            var n := Shorter(|m.regimes|, |m.costs|);
            var report := ByRegime(m);
            && m.notional == Times(arrival, inventory)
            && ReportOrder(report) && TotalCount(report) == n
            && (n > 0 ==> multiset(report) == multiset(InPercent(Rows(m.regimes[..n], m.costs[..n]), m.notional)))
            && (n > 0 ==> TotalCost(report) == Pct(m.cumulative - m.forced - Sum(m.costs[n..]), m.notional))
            && (|m.regimes| == |m.costs| > 0 ==>
                  (TotalCost(report) == Pct(m.cumulative, m.notional) <==> m.forced == 0.0))
  {
    hide Times, Session, AllCosts, ForcedCosts, Pct, Sum, Rows, SortRows, InPercent, InOrder, TotalCost;
    EverySessionAddsUp(arrival, inventory, es);
    var m := Session(Fresh(arrival, inventory), es);
    var n := Shorter(|m.regimes|, |m.costs|);
    hide ReportOrder;
    InOrderIsReportOrder([]) by {
      SortOfNone();
    }
    if n != 0 {
      InOrderIsReportOrder(SortRows(InPercent(Rows(m.regimes[..n], m.costs[..n]), m.notional))) by {
        SortRowsOrders(InPercent(Rows(m.regimes[..n], m.costs[..n]), m.notional));
      }
      var rows := Rows(m.regimes[..n], m.costs[..n]);
      RowsTotal(m.regimes[..n], m.costs[..n]);
      InPercentTotals(rows, m.notional);
      SortRowsTotals(InPercent(rows, m.notional));
      SortRowsOrders(InPercent(rows, m.notional));
      SortRowsPermutes(InPercent(rows, m.notional));
      assert m.costs == m.costs[..n] + m.costs[n..];
      SumAppend(m.costs[..n], m.costs[n..]);
      if |m.regimes| == |m.costs| {
        assert m.costs[n..] == [];
        SumOfNothing();
        PctAdds(m.cumulative - m.forced, m.forced, m.notional);
        PctVanishes(m.forced, m.notional);
      }
    }
  }
}
