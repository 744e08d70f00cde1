/** The square-root law of impact, read off the fill reports that a run of the execution engine logs. */
module SquareRootLaw {
  import opened Arith
  import opened SimEvents
  import opened TransientImpact
  import opened Markets
  import opened Execution
  import opened ExecutionLaws
  import opened ExecutionCharges

  /** What a report says was filled, and at what price. */
  function FilledBy(ev: SimEvent): real {
    match ev
    case OrderFilled(_, filled, _, _) => filled
    case PartialFill(_, filled, _, _) => filled
    case _ => 0.0
  }

  function PriceOf(ev: SimEvent): real {
    match ev
    case OrderFilled(_, _, price, _) => price
    case PartialFill(_, _, _, price) => price
    case _ => 0.0
  }

  /** By which part of the market price a fill was worse than it. */
  function Worsened(side: Side, market: real, price: real): real
    requires market > 0.0
  {
    if side.Sell? then (market - price) / market else (price - market) / market
  }

  /**
    * The own impact of a fill: not negative, and its square is to the squared coefficient times volatility as the
    * quantity filled is to the daily volume.
    */
  ghost predicate IsOwnImpact(cfg: ExecConfig, volatility: real, filled: real, x: real) {
    && x >= 0.0
    && (if filled <= 0.0 || cfg.dailyVolume <= 0.0 then x == 0.0
        else Times(Times(x, x), cfg.dailyVolume)
             == Times(Times(cfg.impactCoefficient * volatility, cfg.impactCoefficient * volatility), filled))
  }

  /** What is left, when report `r` is made, of the own impacts `xs` of the reports before it. */
  function Lingered(log: seq<Emission>, xs: seq<real>, decay: int -> real, n: nat, at: int): real
    requires n <= |xs| == |log|
  {
    if n == 0 then 0.0 else Lingered(log, xs, decay, n - 1, at) + xs[n - 1] * decay(at - log[n - 1].time)
  }

  // ----- The root -----

  lemma SquareOfProduct(c: real, s: real)
    ensures Times(c * s, c * s) == Times(Times(c, c), Times(s, s))
  {
    assert (c * s) * (c * s) == (c * c) * (s * s);
  }

  lemma RootLaw(cfg: ExecConfig, volatility: real, filled: real)
    requires IsSqrt(cfg.sqrt) && cfg.impactCoefficient >= 0.0 && volatility >= 0.0
    ensures IsOwnImpact(cfg, volatility, filled, BaseImpact(cfg, filled, volatility))
  {
    if filled > 0.0 && cfg.dailyVolume > 0.0 {
      var q, k := filled / cfg.dailyVolume, cfg.impactCoefficient * volatility;
      var s := cfg.sqrt(q);
      assert q >= 0.0 && q * cfg.dailyVolume == filled;
      assert Times(s, s) == q && s >= 0.0;
      hide IsSqrt;
      assert k >= 0.0;
      SquareOfProduct(k, s);
      RootScaled(k, s, q, cfg.dailyVolume, filled);
    }
  }

  lemma RootScaled(k: real, s: real, q: real, v: real, filled: real)
    requires k >= 0.0 && s >= 0.0 && Times(s, s) == q && q * v == filled
    ensures k * s >= 0.0 && Times(Times(k * s, k * s), v) == Times(Times(k, k), filled)
  {
    SquareOfProduct(k, s);
    assert (k * k) * q * v == (k * k) * (q * v);
  }

  // ----- The trades of a run are its reports -----

  /** The reports are one tick after their trades. */
  ghost predicate SameTimes(log: seq<Emission>, ts: seq<TradeEvent>) {
    |log| == |ts| && forall i :: 0 <= i < |ts| ==> log[i].time == ts[i].timestamp + 1
  }

  lemma {:induction false} PassTradesMatch(orders: seq<Order>, start: seq<TradeEvent>, cfg: ExecConfig, now: int,
                                           m: Market)
    ensures var es, ts := FillPass(orders, start, cfg, now, m).emitted, PassTrades(orders, cfg, now, m);
            SameTimes(es, ts)
  {
    hide BaseImpact, Impact, ExecPrice, Recorded;
    if orders != [] {
      PassTradesMatch(orders[..|orders| - 1], start, cfg, now, m);
    }
  }

  lemma HandledEmits(pending: seq<Order>, history: seq<TradeEvent>, cfg: ExecConfig, tse: TimestampedEvent, m: Market)
    ensures HandleOutcome(pending, history, cfg, tse, m).emitted ==
              if IsTrigger(tse.event) then
                FillPass(PassedOver(pending, tse.event), history, cfg, tse.time, m).emitted
              else []
  {
    hide FillPass;
  }

  lemma {:induction false} TradesMatchLog(cfg: ExecConfig, inputs: seq<Input>)
    ensures var log, ts := RunEngine(cfg, inputs).log, RunTrades(cfg, inputs);
            SameTimes(log, ts)
  {
    if inputs != [] {
      var n := |inputs| - 1;
      var r, x := RunEngine(cfg, inputs[..n]), inputs[n];
      TradesMatchLog(cfg, inputs[..n]);
      LogAndTradesGrow(cfg, inputs);
      hide RunEngine, RunTrades, FillPass, PassTrades, PassedOver, SameTimes;
      if IsTrigger(x.tse.event) {
        var orders := PassedOver(r.pending, x.tse.event);
        PassTradesMatch(orders, r.history, cfg, x.tse.time, x.market);
        SameTimesAppend(r.log, RunTrades(cfg, inputs[..n]),
                        FillPass(orders, r.history, cfg, x.tse.time, x.market).emitted,
                        PassTrades(orders, cfg, x.tse.time, x.market));
      }
    } else {
      hide HandleOutcome, PassTrades;
    }
  }

  lemma SameTimesAppend(log: seq<Emission>, ts: seq<TradeEvent>, es: seq<Emission>, more: seq<TradeEvent>)
    requires SameTimes(log, ts) && SameTimes(es, more)
    ensures SameTimes(log + es, ts + more)
  {
  }

  lemma LogAndTradesGrow(cfg: ExecConfig, inputs: seq<Input>)
    requires inputs != []
    ensures var n := |inputs| - 1;
            var r, x := RunEngine(cfg, inputs[..n]), inputs[n];
            var orders := PassedOver(r.pending, x.tse.event);
            if IsTrigger(x.tse.event) then
              && RunEngine(cfg, inputs).log
                 == r.log + FillPass(orders, r.history, cfg, x.tse.time, x.market).emitted
              && RunTrades(cfg, inputs)
                 == RunTrades(cfg, inputs[..n]) + PassTrades(orders, cfg, x.tse.time, x.market)
            else RunEngine(cfg, inputs).log == r.log && RunTrades(cfg, inputs) == RunTrades(cfg, inputs[..n])
  {
    var r, x := RunEngine(cfg, inputs[..|inputs| - 1]), inputs[|inputs| - 1];
    HandledEmits(r.pending, r.history, cfg, x.tse, x.market);
    assert r.log + [] == r.log;
    hide HandleOutcome, FillPass, PassTrades, PassedOver;
  }

  lemma {:induction false} TradesGrow(cfg: ExecConfig, inputs: seq<Input>, n: nat)
    requires n <= |inputs|
    ensures RunTrades(cfg, inputs[..n]) <= RunTrades(cfg, inputs)
    decreases |inputs|
  {
    if n == |inputs| {
      assert inputs[..n] == inputs;
    } else {
      var front := inputs[..|inputs| - 1];
      TradesGrow(cfg, front, n);
      assert front[..n] == inputs[..n];
      hide RunEngine, PassTrades, PassedOver;
    }
  }

  lemma {:induction false} PassTradesGrow(orders: seq<Order>, k: nat, cfg: ExecConfig, now: int, m: Market)
    requires k <= |orders|
    ensures PassTrades(orders[..k], cfg, now, m) <= PassTrades(orders, cfg, now, m)
    ensures |PassTrades(orders[..k], cfg, now, m)| == Fillable(orders[..k])
    decreases |orders|
  {
    hide BaseImpact;
    if k == |orders| {
      assert orders[..k] == orders;
      if k > 0 {
        PassTradesGrow(orders[..k - 1], k - 1, cfg, now, m);
        assert orders[..k - 1][..k - 1] == orders[..k - 1];
      }
    } else {
      var front := orders[..|orders| - 1];
      PassTradesGrow(front, k, cfg, now, m);
      assert front[..k] == orders[..k];
    }
  }

  lemma TradesStep(cfg: ExecConfig, inputs: seq<Input>, j: nat)
    requires j < |inputs| && IsTrigger(inputs[j].tse.event)
    ensures RunTrades(cfg, inputs[..j + 1])
         == RunTrades(cfg, inputs[..j])
            + PassTrades(PassAt(cfg, inputs, j), cfg, inputs[j].tse.time, inputs[j].market)
  {
    hide RunEngine, PassTrades, PassedOver;
    assert inputs[..j + 1][..j] == inputs[..j];
  }

  /** The trades before report `(j, k)`, and the trade it stands for. */
  lemma TradesBefore(cfg: ExecConfig, inputs: seq<Input>, j: nat, k: nat)
    requires j < |inputs| && IsTrigger(inputs[j].tse.event)
    requires k < |PassAt(cfg, inputs, j)| && PassAt(cfg, inputs, j)[k].quantity > 0.0
    ensures var ts, r, os, x := RunTrades(cfg, inputs), ReportAt(cfg, inputs, j, k), PassAt(cfg, inputs, j), inputs[j];
            && r < |ts|
            && ts[..r] == RunTrades(cfg, inputs[..j]) + PassTrades(os[..k], cfg, x.tse.time, x.market)
            && ts[r] == TradeEvent(x.tse.time, BaseImpact(cfg, FillOf(os[k], cfg), x.market.volatility))
  {
    var os, now, m := PassAt(cfg, inputs, j), inputs[j].tse.time, inputs[j].market;
    TradesMatchLog(cfg, inputs[..j]);
    TradesGrow(cfg, inputs, j + 1);
    TradesStep(cfg, inputs, j);
    PassTradesGrow(os, k, cfg, now, m);
    PassTradesGrow(os, k + 1, cfg, now, m);
    NextPassTrade(os, k, cfg, now, m);
    hide RunEngine, RunTrades, PassTrades, PassAt, BaseImpact;
    var a, b, c := RunTrades(cfg, inputs[..j]), PassTrades(os[..k], cfg, now, m), PassTrades(os[..k + 1], cfg, now, m);
    assert a + b <= a + c <= RunTrades(cfg, inputs);
  }

  lemma NextPassTrade(os: seq<Order>, k: nat, cfg: ExecConfig, now: int, m: Market)
    requires k < |os| && os[k].quantity > 0.0
    ensures PassTrades(os[..k + 1], cfg, now, m)
         == PassTrades(os[..k], cfg, now, m) + [TradeEvent(now, BaseImpact(cfg, FillOf(os[k], cfg), m.volatility))]
  {
    hide BaseImpact;
    assert os[..k + 1][..k] == os[..k];
  }

  // ----- What the tracker still holds -----

  ghost predicate AllNonNegative(ts: seq<TradeEvent>) {
    forall i :: 0 <= i < |ts| ==> ts[i].baseImpact >= 0.0
  }

  ghost predicate NoneAfter(ts: seq<TradeEvent>, n: nat, now: int) {
    n <= |ts| && forall i :: 0 <= i < n ==> ts[i].timestamp <= now
  }

  function Bases(ts: seq<TradeEvent>): seq<real> {
    seq(|ts|, i requires 0 <= i < |ts| => ts[i].baseImpact)
  }

  lemma {:induction false} PruningKeepsTotal(h: seq<TradeEvent>, cutoff: int, now: int)
    ensures TotalBase(Retained(h, cutoff, now)) + TotalBase(Dropped(h, cutoff, now)) == TotalBase(h)
  {
    if h != [] {
      var n := |h| - 1;
      PruningKeepsTotal(h[..n], cutoff, now);
      TotalBaseSnoc(Retained(h[..n], cutoff, now), h[n]);
      TotalBaseSnoc(Dropped(h[..n], cutoff, now), h[n]);
    }
  }

  lemma TotalBaseSnoc(h: seq<TradeEvent>, e: TradeEvent)
    ensures TotalBase(h + [e]) == TotalBase(h) + e.baseImpact
  {
    assert (h + [e])[..|h|] == h;
  }

  /** What is held and what was dropped come to everything recorded, none of it negative. */
  lemma {:induction false} LedgerTotals(ts: seq<TradeEvent>, cutoff: int)
    requires AllNonNegative(ts)
    ensures var l := RecordAll(ts, cutoff);
            && TotalBase(l.kept) + TotalBase(l.dropped) == TotalBase(l.all) == Sum(Bases(ts))
            && AllNonNegative(l.kept)
  {
    if ts != [] {
      var n := |ts| - 1;
      var e, l := ts[n], RecordAll(ts[..n], cutoff);
      LedgerTotals(ts[..n], cutoff);
      assert Bases(ts)[..n] == Bases(ts[..n]);
      if e.baseImpact > 0.0 {
        PruningKeepsTotal(l.kept + [e], cutoff, e.timestamp);
        TotalBaseSnoc(l.kept, e);
        TotalBaseSnoc(l.all, e);
        TotalBaseAppend(l.dropped, Dropped(l.kept + [e], cutoff, e.timestamp));
        RetainedNonNegative(l.kept + [e], cutoff, e.timestamp);
        hide TotalBase, Retained, Dropped;
      }
    }
  }

  lemma {:induction false} RetainedNonNegative(h: seq<TradeEvent>, cutoff: int, now: int)
    requires AllNonNegative(h)
    ensures AllNonNegative(Retained(h, cutoff, now))
  {
    if h != [] {
      RetainedNonNegative(h[..|h| - 1], cutoff, now);
    }
  }

  lemma {:induction false} TotalIsNonNegative(h: seq<TradeEvent>)
    requires AllNonNegative(h)
    ensures TotalBase(h) >= 0.0
  {
    if h != [] {
      TotalIsNonNegative(h[..|h| - 1]);
    }
  }

  /** The impact of everything recorded, as the sum over the reports that recorded it. */
  lemma {:induction false} ImpactIsLingering(ts: seq<TradeEvent>, n: nat, log: seq<Emission>, cutoff: int,
                                             decay: int -> real, now: int)
    requires AllNonNegative(ts) && n <= |ts| == |log|
    requires SameTimes(log, ts)
    requires NoneAfter(ts, n, now)
    ensures Impact(RecordAll(ts[..n], cutoff).all, decay, now) == Lingered(log, Bases(ts), decay, n, now + 1)
  {
    hide *;
    if n == 0 {
      NothingLingers(ts, log, cutoff, decay, now);
    } else {
      OneFewer(ts, n, now);
      ImpactIsLingering(ts, n - 1, log, cutoff, decay, now);
      assert ts[..n][..n - 1] == ts[..n - 1];
      RecordedLast(ts[..n], cutoff, decay, now);
      LingeredLast(ts, n, log, decay, now);
    }
  }

  lemma OneFewer(ts: seq<TradeEvent>, n: nat, now: int)
    requires n > 0 && AllNonNegative(ts) && NoneAfter(ts, n, now)
    ensures NoneAfter(ts, n - 1, now) && AllNonNegative(ts[..n])
  {
  }

  lemma NothingLingers(ts: seq<TradeEvent>, log: seq<Emission>, cutoff: int, decay: int -> real, now: int)
    requires |ts| == |log|
    ensures Impact(RecordAll(ts[..0], cutoff).all, decay, now) == Lingered(log, Bases(ts), decay, 0, now + 1) == 0.0
  {
  }

  lemma LingeredLast(ts: seq<TradeEvent>, n: nat, log: seq<Emission>, decay: int -> real, now: int)
    requires 0 < n <= |ts| == |log| && SameTimes(log, ts) && NoneAfter(ts, n, now)
    ensures Lingered(log, Bases(ts), decay, n, now + 1)
         == Lingered(log, Bases(ts), decay, n - 1, now + 1)
            + Lingering(ts[n - 1], decay, now)
  {
    assert Elapsed(now, ts[n - 1]) == now + 1 - log[n - 1].time;
    assert Bases(ts)[n - 1] == ts[n - 1].baseImpact;
    hide Elapsed, Bases;
  }

  /** A trade that was not positive leaves nothing. */
  lemma RecordedLast(ts: seq<TradeEvent>, cutoff: int, decay: int -> real, now: int)
    requires ts != [] && AllNonNegative(ts)
    ensures var n := |ts| - 1;
            Impact(RecordAll(ts, cutoff).all, decay, now)
            == Impact(RecordAll(ts[..n], cutoff).all, decay, now) + Lingering(ts[n], decay, now)
  {
    hide RecordAll, Impact, Lingering;
    var n := |ts| - 1;
    var before := RecordAll(ts[..n], cutoff).all;
    AllOfLast(ts, cutoff);
    if ts[n].baseImpact > 0.0 {
      ImpactSnoc(before, ts[n], decay, now);
    } else {
      NothingOf(ts[n], decay, now);
    }
  }

  lemma AllOfLast(ts: seq<TradeEvent>, cutoff: int)
    requires ts != []
    ensures var n := |ts| - 1;
            var before := RecordAll(ts[..n], cutoff).all;
            RecordAll(ts, cutoff).all == if ts[n].baseImpact > 0.0 then before + [ts[n]] else before
  {
    hide Recorded, Dropped;
  }

  lemma NothingOf(e: TradeEvent, decay: int -> real, now: int)
    requires e.baseImpact == 0.0
    ensures Lingering(e, decay, now) == 0.0
  {
  }

  // ----- The law -----

  /** What the law says of the report for order `k` of the pass at input `j`, given all own impacts. */
  ghost predicate ObeysLaw(cfg: ExecConfig, inputs: seq<Input>, xs: seq<real>, j: nat, k: nat)
    requires |xs| == |RunEngine(cfg, inputs).log|
    requires j < |inputs| && k < |PassAt(cfg, inputs, j)| && inputs[j].market.price > 0.0
    requires ReportAt(cfg, inputs, j, k) < |xs|
  {
    var log, r, m := RunEngine(cfg, inputs).log, ReportAt(cfg, inputs, j, k), inputs[j].market;
    var ev := log[r].event;
    var worse := Worsened(PassAt(cfg, inputs, j)[k].side, m.price, PriceOf(ev));
    var earlier := Lingered(log, xs, cfg.decay, r, log[r].time);
    && IsOwnImpact(cfg, m.volatility, FilledBy(ev), xs[r])
    && earlier - PRUNE_LEVEL * Sum(xs[..r]) <= worse - xs[r] <= earlier
    && (ev.OrderFilled? ==> ev.impact == worse)
  }

  ghost predicate Trading(inputs: seq<Input>) {
    forall i :: 0 <= i < |inputs| ==> inputs[i].market.price > 0.0 && inputs[i].market.volatility >= 0.0
  }

  ghost predicate Reported(cfg: ExecConfig, inputs: seq<Input>, j: nat, k: nat) {
    && j < |inputs| && IsTrigger(inputs[j].tse.event)
    && k < |PassAt(cfg, inputs, j)| && PassAt(cfg, inputs, j)[k].quantity > 0.0
  }

  lemma {:induction false} RunTradesNonNegative(cfg: ExecConfig, inputs: seq<Input>)
    requires IsSqrt(cfg.sqrt) && cfg.impactCoefficient >= 0.0 && Trading(inputs)
    ensures AllNonNegative(RunTrades(cfg, inputs))
  {
    if inputs != [] {
      var n := |inputs| - 1;
      RunTradesNonNegative(cfg, inputs[..n]);
      PassTradesNonNegative(PassedOver(RunEngine(cfg, inputs[..n]).pending, inputs[n].tse.event), cfg,
                            inputs[n].tse.time, inputs[n].market);
      hide PassTrades, RunEngine, PassedOver;
    }
  }

  lemma {:induction false} PassTradesNonNegative(orders: seq<Order>, cfg: ExecConfig, now: int, m: Market)
    requires IsSqrt(cfg.sqrt) && cfg.impactCoefficient >= 0.0 && m.volatility >= 0.0
    ensures AllNonNegative(PassTrades(orders, cfg, now, m))
  {
    hide BaseImpact, IsSqrt;
    if orders != [] {
      var n := |orders| - 1;
      PassTradesNonNegative(orders[..n], cfg, now, m);
      RootLaw(cfg, m.volatility, FillOf(orders[n], cfg));
    }
  }

  /** A charge read backwards. */
  lemma ChargeWorsens(o: Order, cfg: ExecConfig, now: int, m: Market, transient: real)
    requires m.price > 0.0
    ensures var e := Charge(o, cfg, now, m, transient);
            var total := BaseImpact(cfg, FillOf(o, cfg), m.volatility) + transient;
            && e.time == now + 1 && FilledBy(e.event) == FillOf(o, cfg)
            && Worsened(o.side, m.price, PriceOf(e.event)) == total
            && (e.event.OrderFilled? ==> e.event.impact == total)
  {
    hide BaseImpact;
    var total := BaseImpact(cfg, FillOf(o, cfg), m.volatility) + transient;
    assert m.price * (1.0 + total) - m.price == total * m.price;
    assert m.price - m.price * (1.0 - total) == total * m.price;
    assert (total * m.price) / m.price == total;
  }

  /** The transient of a pass, from the trades recorded before. */
  lemma TransientIs(cfg: ExecConfig, inputs: seq<Input>, j: nat, k: nat)
    requires Reported(cfg, inputs, j, k)
    ensures var os, x := PassAt(cfg, inputs, j), inputs[j];
            ReportAt(cfg, inputs, j, k) < |RunTrades(cfg, inputs)|
            && FillPass(os[..k], RunEngine(cfg, inputs[..j]).history, cfg, x.tse.time, x.market).history
               == RecordAll(RunTrades(cfg, inputs)[..ReportAt(cfg, inputs, j, k)], cfg.cutoff).kept
  {
    TradesBefore(cfg, inputs, j, k);
    RunRecords(cfg, inputs[..j]);
    hide RunEngine, RunTrades, PassTrades, PassAt, RecordAll, FillPass;
    PassRecords(PassAt(cfg, inputs, j)[..k], RunTrades(cfg, inputs[..j]), cfg, inputs[j].tse.time, inputs[j].market);
  }

  /** What is left of the first `r` trades is what lingers of the reports, up to what pruning lost. */
  lemma HeldIsLingering(cfg: ExecConfig, ts: seq<TradeEvent>, log: seq<Emission>, r: nat, now: int)
    requires IsDecay(cfg.decay, cfg.cutoff) && AllNonNegative(ts) && r <= |ts| == |log| && Monotone(ts[..r])
    requires SameTimes(log, ts)
    requires NoneAfter(ts, r, now)
    ensures var earlier := Lingered(log, Bases(ts), cfg.decay, r, now + 1);
            earlier - PRUNE_LEVEL * Sum(Bases(ts)[..r])
              <= Impact(RecordAll(ts[..r], cfg.cutoff).kept, cfg.decay, now) <= earlier
  {
    ImpactIsLingering(ts, r, log, cfg.cutoff, cfg.decay, now);
    DecayFades(cfg.decay, cfg.cutoff);
    hide IsDecay, FadesFrom, Lingered;
    PruningError(ts[..r], cfg.decay, cfg.cutoff, now);
    LedgerTotals(ts[..r], cfg.cutoff);
    TotalIsNonNegative(RecordAll(ts[..r], cfg.cutoff).kept);
    assert Bases(ts)[..r] == Bases(ts[..r]);
    hide RecordAll, Impact, TotalBase, Sum;
  }

  lemma ReportObeysLaw(cfg: ExecConfig, inputs: seq<Input>, j: nat, k: nat)
    requires IsDecay(cfg.decay, cfg.cutoff) && TimesIncrease(inputs) && IsSqrt(cfg.sqrt)
    requires cfg.impactCoefficient >= 0.0 && Trading(inputs) && Reported(cfg, inputs, j, k)
    ensures |Bases(RunTrades(cfg, inputs))| == |RunEngine(cfg, inputs).log| > ReportAt(cfg, inputs, j, k)
    ensures ObeysLaw(cfg, inputs, Bases(RunTrades(cfg, inputs)), j, k)
  {
    hide RunEngine, RunTrades, PassAt, ReportAt, FillPass, Impact, RecordAll, Charge, BaseImpact, IsDecay, IsSqrt,
         TimesIncrease, Monotone, PassTrades, Sum, Lingered;
    var r, o, x := ReportAt(cfg, inputs, j, k), PassAt(cfg, inputs, j)[k], inputs[j];
    var log, ts := RunEngine(cfg, inputs).log, RunTrades(cfg, inputs);
    TradesMatchLog(cfg, inputs);
    TradesBefore(cfg, inputs, j, k);
    TransientIs(cfg, inputs, j, k);
    ReportIsCharge(cfg, inputs, j, k);
    RunTradesNonNegative(cfg, inputs);
    TradesUpTo(cfg, inputs, j, k);
    var transient := Impact(RecordAll(ts[..r], cfg.cutoff).kept, cfg.decay, x.tse.time);
    RootLaw(cfg, x.market.volatility, FillOf(o, cfg));
    ChargeWorsens(o, cfg, x.tse.time, x.market, transient);
    HeldIsLingering(cfg, ts, log, r, x.tse.time);
  }

  /** The trades before a report are in order of time and none is later than it. */
  lemma TradesUpTo(cfg: ExecConfig, inputs: seq<Input>, j: nat, k: nat)
    requires TimesIncrease(inputs) && Reported(cfg, inputs, j, k)
    ensures var ts, r := RunTrades(cfg, inputs), ReportAt(cfg, inputs, j, k);
            r < |ts| && MonotoneUpTo(ts[..r], inputs[j].tse.time)
            && NoneAfter(ts, r, inputs[j].tse.time)
  {
    var os, now, m := PassAt(cfg, inputs, j), inputs[j].tse.time, inputs[j].market;
    TradesBefore(cfg, inputs, j, k);
    TimesOfPrefix(inputs, j);
    RunTradesMonotone(cfg, inputs[..j], now);
    PassTradesAtNow(os[..k], cfg, now, m);
    MonotoneAppend(RunTrades(cfg, inputs[..j]), PassTrades(os[..k], cfg, now, m), now);
    hide RunTrades, PassTrades, PassAt, ReportAt, TimesIncrease, Monotone;
    var ts, r := RunTrades(cfg, inputs), ReportAt(cfg, inputs, j, k);
    forall i | 0 <= i < r ensures ts[i].timestamp <= now {
      assert ts[..r][i] == ts[i];
    }
  }

  /**
    * In every run there is one own impact for each report, and every report obeys the law: by the part of the market
    * price that its fill was worse, less what lingers of the own impacts of the reports before it, it has its own
    * impact; that is not negative, and its square grows with the quantity filled as a part of the daily volume. Pruning
    * takes at most 1e-8 of those earlier impacts away. A final report states the whole impact.
    */
  lemma RunObeysLaw(cfg: ExecConfig, inputs: seq<Input>) returns (xs: seq<real>)
    requires IsDecay(cfg.decay, cfg.cutoff) && TimesIncrease(inputs) && IsSqrt(cfg.sqrt)
    requires cfg.impactCoefficient >= 0.0 && Trading(inputs)
    ensures |xs| == |RunEngine(cfg, inputs).log| && NonNegative(xs)
    ensures forall j: nat, k: nat :: Reported(cfg, inputs, j, k) ==>
              ReportAt(cfg, inputs, j, k) < |xs| && ObeysLaw(cfg, inputs, xs, j, k)
  {
    xs := Bases(RunTrades(cfg, inputs));
    TradesMatchLog(cfg, inputs);
    RunTradesNonNegative(cfg, inputs);
    hide RunEngine, RunTrades, ObeysLaw, IsDecay, IsSqrt, TimesIncrease;
    forall j: nat, k: nat | Reported(cfg, inputs, j, k)
      ensures ReportAt(cfg, inputs, j, k) < |xs| && ObeysLaw(cfg, inputs, xs, j, k)
    {
      ReportObeysLaw(cfg, inputs, j, k);
    }
  }
}
