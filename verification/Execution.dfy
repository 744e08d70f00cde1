/**
  * Partial fills of a first-in-first-out list of pending orders, with impact charged per fill.
  *
  * The square root of the impact formula is a parameter.
  */
module Execution {
  import opened Arith
  import opened SimEvents
  import opened TransientImpact
  import opened Markets

  const DUST := 0.0000000001

  datatype ExecConfig = ExecConfig(maxFill: real, dailyVolume: real, impactCoefficient: real,
                                   sqrt: real -> real, decay: int -> real, cutoff: int)

  function BaseImpact(cfg: ExecConfig, quantity: real, volatility: real): real {
    if quantity <= 0.0 || cfg.dailyVolume <= 0.0 then 0.0
    else cfg.impactCoefficient * volatility * cfg.sqrt(quantity / cfg.dailyVolume)
  }

  function ExecPrice(side: Side, price: real, impact: real): real {
    match side
    case Sell => price * (1.0 - impact)
    case Buy => price * (1.0 + impact)
  }

  // ----- One pass over the pending orders -----

  datatype Pass = Pass(orders: seq<Order>, history: seq<TradeEvent>, emitted: seq<Emission>, filledIds: seq<nat>)

  function FillNext(p: Pass, o: Order, cfg: ExecConfig, now: int, m: Market): Pass {
    if o.quantity <= 0.0 then
      p.(orders := p.orders + [o], filledIds := p.filledIds + [o.id])
    else
      var fill := Min(o.quantity, cfg.maxFill);
      var base := BaseImpact(cfg, fill, m.volatility);
      var impact := base + Impact(p.history, cfg.decay, now);
      var price := ExecPrice(o.side, m.price, impact);
      var remaining := o.quantity - fill;
      var done := remaining <= DUST;
      Pass(p.orders + [o.(quantity := remaining)],
           Recorded(p.history, cfg.cutoff, now, base),
           p.emitted + [Emission(now + 1, if done then OrderFilled(o.id, fill, price, impact)
                                          else PartialFill(o.id, fill, remaining, price))],
           if done then p.filledIds + [o.id] else p.filledIds)
  }

  function FillPass(orders: seq<Order>, history: seq<TradeEvent>, cfg: ExecConfig, now: int, m: Market): Pass {
    if orders == [] then Pass([], history, [], [])
    else FillNext(FillPass(orders[..|orders| - 1], history, cfg, now, m), orders[|orders| - 1], cfg, now, m)
  }

  /** The orders whose identifier is not listed. */
  function Without(orders: seq<Order>, ids: seq<nat>): seq<Order> {
    if orders == [] then []
    else
      var front := Without(orders[..|orders| - 1], ids);
      var o := orders[|orders| - 1];
      if o.id in ids then front else front + [o]
  }

  /** The engine's state and what it emits for one event. */
  datatype Outcome = Outcome(pending: seq<Order>, history: seq<TradeEvent>, emitted: seq<Emission>)

  function TryFillOutcome(pending: seq<Order>, history: seq<TradeEvent>, cfg: ExecConfig, now: int,
                          m: Market): Outcome {
    var p := FillPass(pending, history, cfg, now, m);
    Outcome(Without(p.orders, p.filledIds), p.history, p.emitted)
  }

  function HandleOutcome(pending: seq<Order>, history: seq<TradeEvent>, cfg: ExecConfig,
                         tse: TimestampedEvent, m: Market): Outcome {
    match tse.event
    case SubmitOrder(order) => TryFillOutcome(pending + [order], history, cfg, tse.time, m)
    case CancelOrder(id) => Outcome(Without(pending, [id]), history, [])
    case TimeTick(_) => TryFillOutcome(pending, history, cfg, tse.time, m)
    case PriceUpdate(_, _) => TryFillOutcome(pending, history, cfg, tse.time, m)
    case _ => Outcome(pending, history, [])
  }

  class ExecutionEngine {
    var pendingOrders: seq<Order>
    const tracker: TransientImpactTracker
    const cfg: ExecConfig

    ghost predicate Valid() {
      tracker.decay == cfg.decay && tracker.cutoff == cfg.cutoff
    }

    constructor (cfg: ExecConfig)
      ensures Valid() && this.cfg == cfg && fresh(tracker)
      ensures pendingOrders == [] && tracker.history == []
    {
      pendingOrders := [];
      this.cfg := cfg;
      tracker := new TransientImpactTracker(cfg.decay, cfg.cutoff);
    }

    method Handle(tse: TimestampedEvent, m: Market) returns (events: seq<Emission>)
      requires Valid()
      modifies this, tracker
      ensures Valid()
      ensures Outcome(pendingOrders, tracker.history, events)
           == HandleOutcome(old(pendingOrders), old(tracker.history), cfg, tse, m)
    {
      hide TryFillOutcome, Without;
      match tse.event {
        case SubmitOrder(order) =>
          pendingOrders := pendingOrders + [order];
          events := TryFill(tse.time, m);
        case CancelOrder(id) =>
          Retain([id]);
          events := [];
        case TimeTick(_) =>
          events := TryFill(tse.time, m);
        case PriceUpdate(_, _) =>
          events := TryFill(tse.time, m);
        case _ =>
          events := [];
      }
    }

    /** Drop the pending orders with a listed identifier. */
    method Retain(ids: seq<nat>)
      modifies this
      ensures pendingOrders == Without(old(pendingOrders), ids)
    {
      var kept := [];
      for i := 0 to |pendingOrders|
        invariant kept == Without(pendingOrders[..i], ids)
        invariant pendingOrders == old(pendingOrders)
      {
        assert pendingOrders[..i + 1][..i] == pendingOrders[..i];
        if pendingOrders[i].id !in ids {
          kept := kept + [pendingOrders[i]];
        }
      }
      assert pendingOrders[..|pendingOrders|] == pendingOrders;
      pendingOrders := kept;
    }

    /** Fill one pending order, at most `cfg.maxFill` of it. */
    method FillOrder(i: nat, now: int, m: Market, ghost p: Pass) returns (events: seq<Emission>, filled: seq<nat>)
      requires Valid() && i < |pendingOrders| && p.history == tracker.history
      modifies this, tracker
      ensures Valid() && |pendingOrders| == |old(pendingOrders)|
      ensures pendingOrders == old(pendingOrders)[i := pendingOrders[i]]
      ensures FillNext(p, old(pendingOrders)[i], cfg, now, m)
           == Pass(p.orders + [pendingOrders[i]], tracker.history, p.emitted + events, p.filledIds + filled)
    {
      hide Impact, Recorded, BaseImpact, ExecPrice;
      events, filled := [], [];
      var order := pendingOrders[i];
      if order.quantity <= 0.0 {
        filled := [order.id];
        assert p.emitted + events == p.emitted;
        return;
      }
      var fill := Min(order.quantity, cfg.maxFill);
      var base := BaseImpact(cfg, fill, m.volatility);
      var transient := tracker.CurrentImpact(now);
      var price := ExecPrice(order.side, m.price, base + transient);
      tracker.RecordTrade(now, base);
      var remaining := order.quantity - fill;
      pendingOrders := pendingOrders[i := order.(quantity := remaining)];
      if remaining <= DUST {
        filled := [order.id];
        events := [Emission(now + 1, OrderFilled(order.id, fill, price, base + transient))];
      } else {
        events := [Emission(now + 1, PartialFill(order.id, fill, remaining, price))];
        assert p.filledIds + filled == p.filledIds;
      }
    }

    method TryFill(now: int, m: Market) returns (events: seq<Emission>)
      requires Valid()
      modifies this, tracker
      ensures Valid()
      ensures Outcome(pendingOrders, tracker.history, events)
           == TryFillOutcome(old(pendingOrders), old(tracker.history), cfg, now, m)
    {
      hide FillNext, Impact, Recorded;
      events := [];
      var filledIds := [];
      ghost var before, start := pendingOrders, tracker.history;
      var n := |pendingOrders|;
      for i := 0 to n
        invariant Valid() && |pendingOrders| == n
        invariant pendingOrders[i..] == before[i..]
        invariant FillPass(before[..i], start, cfg, now, m)
               == Pass(pendingOrders[..i], tracker.history, events, filledIds)
      {
        assert before[..i + 1][..i] == before[..i];
        assert pendingOrders[i] == pendingOrders[i..][0] == before[i];
        ghost var was := pendingOrders;
        var emitted, filled := FillOrder(i, now, m, FillPass(before[..i], start, cfg, now, m));
        events := events + emitted;
        filledIds := filledIds + filled;
        assert pendingOrders[..i + 1] == was[..i] + [pendingOrders[i]];
        assert pendingOrders[i + 1..] == was[i..][1..];
      }
      assert before[..n] == before && pendingOrders[..n] == pendingOrders;
      Retain(filledIds);
    }
  }
}
