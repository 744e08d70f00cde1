/** What each fill of a whole run of the execution engine is charged, and where its report stands in the log. */
module ExecutionCharges {
  import opened Arith
  import opened Wrappers
  import opened SimEvents
  import opened TransientImpact
  import opened Markets
  import opened Execution
  import opened ExecutionLaws

  /** The orders of a pass that are filled, which is also the number of its reports. */
  function Fillable(orders: seq<Order>): nat {
    if orders == [] then 0
    else Fillable(orders[..|orders| - 1]) + if orders[|orders| - 1].quantity > 0.0 then 1 else 0
  }

  /** The orders that input `j` of a run passes over. */
  function PassAt(cfg: ExecConfig, inputs: seq<Input>, j: nat): seq<Order>
    requires j < |inputs|
  {
    PassedOver(RunEngine(cfg, inputs[..j]).pending, inputs[j].tse.event)
  }

  /** Where the report for order `k` of that pass stands in the log of the run. */
  function ReportAt(cfg: ExecConfig, inputs: seq<Input>, j: nat, k: nat): nat
    requires j < |inputs| && k < |PassAt(cfg, inputs, j)|
  {
    |RunEngine(cfg, inputs[..j]).log| + Fillable(PassAt(cfg, inputs, j)[..k])
  }

  lemma PassLonger(orders: seq<Order>, start: seq<TradeEvent>, cfg: ExecConfig, now: int, m: Market)
    requires orders != []
    ensures var p, q := FillPass(orders[..|orders| - 1], start, cfg, now, m), FillPass(orders, start, cfg, now, m);
            p.emitted <= q.emitted
            && |q.emitted| == |p.emitted| + if orders[|orders| - 1].quantity > 0.0 then 1 else 0
  {
    hide BaseImpact, Impact, ExecPrice, Recorded;
  }

  lemma {:induction false} ReportsAreFillable(orders: seq<Order>, start: seq<TradeEvent>, cfg: ExecConfig, now: int,
                                              m: Market)
    ensures |FillPass(orders, start, cfg, now, m).emitted| == Fillable(orders)
  {
    if orders != [] {
      ReportsAreFillable(orders[..|orders| - 1], start, cfg, now, m);
      PassLonger(orders, start, cfg, now, m);
      hide FillPass;
    }
  }

  /** A pass reports for the first orders what a pass over them alone would. */
  lemma {:induction false} PassGrows(orders: seq<Order>, n: nat, start: seq<TradeEvent>, cfg: ExecConfig, now: int,
                                     m: Market)
    requires n <= |orders|
    ensures FillPass(orders[..n], start, cfg, now, m).emitted <= FillPass(orders, start, cfg, now, m).emitted
    decreases |orders|
  {
    hide FillPass;
    if n == |orders| {
      assert orders[..n] == orders;
    } else {
      var front := orders[..|orders| - 1];
      PassGrows(front, n, start, cfg, now, m);
      PassLonger(orders, start, cfg, now, m);
      assert front[..n] == orders[..n];
    }
  }

  /** The log only grows. */
  lemma {:induction false} LogGrows(cfg: ExecConfig, inputs: seq<Input>, n: nat)
    requires n <= |inputs|
    ensures RunEngine(cfg, inputs[..n]).log <= RunEngine(cfg, inputs).log
    decreases |inputs|
  {
    if n == |inputs| {
      assert inputs[..n] == inputs;
    } else {
      var front := inputs[..|inputs| - 1];
      LogGrows(cfg, front, n);
      assert front[..n] == inputs[..n];
      hide HandleOutcome;
    }
  }

  lemma HistoryIsUpTo(cfg: ExecConfig, inputs: seq<Input>, at: int)
    requires TimesIncrease(inputs) && (inputs != [] ==> inputs[|inputs| - 1].tse.time <= at)
    ensures UpTo(RunEngine(cfg, inputs).history, at)
  {
    RunRecords(cfg, inputs);
    RunTradesMonotone(cfg, inputs, at);
    KeptUpTo(RunTrades(cfg, inputs), cfg.cutoff);
    hide RunEngine, RunTrades, RecordAll, Monotone, TimesIncrease;
  }

  lemma LogAfterPass(cfg: ExecConfig, inputs: seq<Input>, j: nat)
    requires j < |inputs| && IsTrigger(inputs[j].tse.event)
    ensures var r, x := RunEngine(cfg, inputs[..j]), inputs[j];
            r.log + FillPass(PassAt(cfg, inputs, j), r.history, cfg, x.tse.time, x.market).emitted
            <= RunEngine(cfg, inputs).log
  {
    hide FillPass, RunEngine;
    LogGrows(cfg, inputs, j + 1);
    LogStep(cfg, inputs, j);
  }

  lemma LogStep(cfg: ExecConfig, inputs: seq<Input>, j: nat)
    requires j < |inputs|
    ensures var r, x := RunEngine(cfg, inputs[..j]), inputs[j];
            RunEngine(cfg, inputs[..j + 1]).log
            == r.log + HandleOutcome(r.pending, r.history, cfg, x.tse, x.market).emitted
  {
    hide HandleOutcome;
    assert inputs[..j + 1][..j] == inputs[..j];
  }

  /** The report for order `k` of a pass is the charge that pass makes it after the orders before it. */
  lemma ReportIsCharge(cfg: ExecConfig, inputs: seq<Input>, j: nat, k: nat)
    requires j < |inputs| && IsTrigger(inputs[j].tse.event)
    requires k < |PassAt(cfg, inputs, j)| && PassAt(cfg, inputs, j)[k].quantity > 0.0
    ensures var os, x, start := PassAt(cfg, inputs, j), inputs[j], RunEngine(cfg, inputs[..j]).history;
            var transient := Impact(FillPass(os[..k], start, cfg, x.tse.time, x.market).history, cfg.decay, x.tse.time);
            && ReportAt(cfg, inputs, j, k) < |RunEngine(cfg, inputs).log|
            && RunEngine(cfg, inputs).log[ReportAt(cfg, inputs, j, k)]
               == Charge(os[k], cfg, x.tse.time, x.market, transient)
  {
    hide FillPass, RunEngine, Impact, Charge, PassedOver;
    var os, x, r := PassAt(cfg, inputs, j), inputs[j], RunEngine(cfg, inputs[..j]);
    var now, m := x.tse.time, x.market;
    var all := FillPass(os, r.history, cfg, now, m).emitted;
    var some := FillPass(os[..k + 1], r.history, cfg, now, m).emitted;
    assert os[..k + 1] == os[..k] + [os[k]] && os[..k + 1][..k] == os[..k];
    LastEmission(os[..k], os[k], r.history, cfg, now, m);
    ReportsAreFillable(os[..k + 1], r.history, cfg, now, m);
    PassGrows(os, k + 1, r.history, cfg, now, m);
    LogAfterPass(cfg, inputs, j);
    var at := Fillable(os[..k]);
    assert |some| == at + 1 && some[at] == all[at];
    assert (r.log + all)[|r.log| + at] == all[at];
  }

  /**
    * In every run with times that do not decrease, the report for the k-th order of a pass charges it its own impact
    * plus a transient: the decayed impact of every earlier trade of the run plus the base impacts of the earlier fills
    * of the pass, less at most what pruning may lose. OrderFilled reports exactly the impact that was charged.
    */
  lemma EveryFillIsCharged(cfg: ExecConfig, inputs: seq<Input>, j: nat, k: nat) returns (transient: real)
    requires IsDecay(cfg.decay, cfg.cutoff) && TimesIncrease(inputs)
    requires j < |inputs| && IsTrigger(inputs[j].tse.event)
    requires k < |PassAt(cfg, inputs, j)| && PassAt(cfg, inputs, j)[k].quantity > 0.0
    ensures var os, x := PassAt(cfg, inputs, j), inputs[j];
            && ReportAt(cfg, inputs, j, k) < |RunEngine(cfg, inputs).log|
            && RunEngine(cfg, inputs).log[ReportAt(cfg, inputs, j, k)]
               == Charge(os[k], cfg, x.tse.time, x.market, transient)
    ensures var os, x := PassAt(cfg, inputs, j), inputs[j];
            var l := RecordAll(RunTrades(cfg, inputs[..j]), cfg.cutoff);
            var expected := Impact(l.all, cfg.decay, x.tse.time) + BasesRecorded(os[..k], cfg, x.market);
            var lost := TotalBase(l.dropped)
                        + TotalBase(Dropped(RunEngine(cfg, inputs[..j]).history, cfg.cutoff, x.tse.time));
            expected - PRUNE_LEVEL * lost <= transient <= expected
  {
    var os, x, start := PassAt(cfg, inputs, j), inputs[j], RunEngine(cfg, inputs[..j]).history;
    var now := x.tse.time;
    var h := FillPass(os[..k], start, cfg, now, x.market).history;
    ReportIsCharge(cfg, inputs, j, k);
    TimesOfPrefix(inputs, j);
    hide FillPass, RunEngine, Impact, Charge, PassedOver, IsDecay, TimesIncrease, BasesRecorded, RecordAll, RunTrades,
         TotalBase, Dropped, UpTo, PassHistory;
    transient := Impact(h, cfg.decay, now);
    HistoryIsUpTo(cfg, inputs[..j], now);
    RunPruningError(cfg, inputs[..j], now);
    TransientIsNear(os[..k], start, cfg, now, x.market);
  }

  lemma TimesOfPrefix(inputs: seq<Input>, j: nat)
    requires TimesIncrease(inputs) && j < |inputs|
    ensures TimesIncrease(inputs[..j]) && (j > 0 ==> inputs[..j][j - 1].tse.time <= inputs[j].tse.time)
  {
  }

  lemma TransientIsNear(front: seq<Order>, start: seq<TradeEvent>, cfg: ExecConfig, now: int, m: Market)
    requires IsDecay(cfg.decay, cfg.cutoff) && UpTo(start, now)
    ensures var transient := Impact(FillPass(front, start, cfg, now, m).history, cfg.decay, now);
            var expected := Impact(start, cfg.decay, now) + BasesRecorded(front, cfg, m);
            expected - PRUNE_LEVEL * TotalBase(Dropped(start, cfg.cutoff, now)) <= transient <= expected
  {
    hide FillPass, Impact, UpTo, BasesRecorded, TotalBase, Dropped, PassHistory, Retained;
    CutoffIsPositive(cfg.decay, cfg.cutoff);
    DecayFades(cfg.decay, cfg.cutoff);
    hide IsDecay, FadesFrom;
    PassHistoryIs(front, start, cfg, now, m);
    PruneOnce(start, cfg.decay, cfg.cutoff, now, now);
    TransientBounds(start, FillPass(front, start, cfg, now, m).history, cfg, now, BasesRecorded(front, cfg, m));
  }

  /**
    * In every run every fill is at a price no better than the market's at the time: impact depresses sales and lifts
    * purchases, and the impact that OrderFilled reports is never negative.
    */
  lemma EveryFillIsAdverse(cfg: ExecConfig, inputs: seq<Input>, j: nat, k: nat)
    requires TimesIncrease(inputs) && cfg.impactCoefficient >= 0.0 && forall x: real :: cfg.sqrt(x) >= 0.0
    requires forall d: nat :: cfg.decay(d) > 0.0
    requires j < |inputs| && IsTrigger(inputs[j].tse.event)
    requires inputs[j].market.price >= 0.0 && inputs[j].market.volatility >= 0.0
    requires k < |PassAt(cfg, inputs, j)| && PassAt(cfg, inputs, j)[k].quantity > 0.0
    ensures ReportAt(cfg, inputs, j, k) < |RunEngine(cfg, inputs).log|
    ensures var o, m := PassAt(cfg, inputs, j)[k], inputs[j].market;
            var e := RunEngine(cfg, inputs).log[ReportAt(cfg, inputs, j, k)].event;
            && (e.OrderFilled? || e.PartialFill?)
            && (if o.side.Sell? then e.price <= m.price else e.price >= m.price)
            && (e.OrderFilled? ==> e.impact >= 0.0)
  {
    var os, x, start := PassAt(cfg, inputs, j), inputs[j], RunEngine(cfg, inputs[..j]).history;
    var h := FillPass(os[..k], start, cfg, x.tse.time, x.market).history;
    ReportIsCharge(cfg, inputs, j, k);
    TimesOfPrefix(inputs, j);
    hide FillPass, RunEngine, Impact, PassedOver, TimesIncrease, PassAt, ReportAt, Charge;
    HistoryIsUpTo(cfg, inputs[..j], x.tse.time);
    PassPositive(os[..k], start, cfg, x.tse.time, x.market);
    ImpactIsNonNegative(h, cfg.decay, x.tse.time);
    ChargeIsAdverse(os[k], cfg, x.tse.time, x.market, Impact(h, cfg.decay, x.tse.time));
  }

  lemma ChargeIsAdverse(o: Order, cfg: ExecConfig, now: int, m: Market, transient: real)
    requires cfg.impactCoefficient >= 0.0 && forall x: real :: cfg.sqrt(x) >= 0.0
    requires m.price >= 0.0 && m.volatility >= 0.0 && transient >= 0.0
    ensures var e := Charge(o, cfg, now, m, transient).event;
            && (e.OrderFilled? || e.PartialFill?)
            && (if o.side.Sell? then e.price <= m.price else e.price >= m.price)
            && (e.OrderFilled? ==> e.impact >= 0.0)
  {
    hide BaseImpact, ExecPrice;
    BaseIsNonNegative(cfg, FillOf(o, cfg), m.volatility);
    ImpactMovesPrice(o.side, m.price, BaseImpact(cfg, FillOf(o, cfg), m.volatility) + transient);
  }
}
