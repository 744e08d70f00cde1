/** The market snapshot that events update and that execution and strategies read. */
module Markets {
  import opened SimEvents

  datatype Market = Market(price: real, volatility: real, step: nat)

  function MarketAfter(m: Market, event: SimEvent): Market {
    match event
    case PriceUpdate(price, volatility) => m.(price := price, volatility := volatility)
    case MarketTrade(_, price) => m.(price := price)
    case TimeTick(step) => m.(step := step)
    case _ => m
  }

  class MarketState {
    var price: real
    var volatility: real
    var step: nat

    constructor (price: real, volatility: real)
      ensures this.price == price && this.volatility == volatility && this.step == 0
    {
      this.price, this.volatility, this.step := price, volatility, 0;
    }

    /** Process an event; the market never injects a follow-on event. */
    method Handle(tse: TimestampedEvent) returns (followOn: seq<Emission>)
      modifies this
      ensures Market(price, volatility, step) == MarketAfter(old(Market(price, volatility, step)), tse.event)
      ensures followOn == []
    {
      match tse.event {
        case PriceUpdate(newPrice, newVolatility) => price, volatility := newPrice, newVolatility;
        case MarketTrade(_, newPrice) => price := newPrice;
        case TimeTick(newStep) => step := newStep;
        case _ =>
      }
      followOn := [];
    }
  }

  // ----- What a run of events shows -----

  /** The price of the last update or trade among the events, the first price when there is none. */
  function PriceShown(first: real, events: seq<SimEvent>): real {
    if events == [] then first
    else
      match events[|events| - 1]
      case PriceUpdate(price, _) => price
      case MarketTrade(_, price) => price
      case _ => PriceShown(first, events[..|events| - 1])
  }

  /** The volatility of the last update. */
  function VolatilityShown(first: real, events: seq<SimEvent>): real {
    if events == [] then first
    else
      match events[|events| - 1]
      case PriceUpdate(_, volatility) => volatility
      case _ => VolatilityShown(first, events[..|events| - 1])
  }

  /** The step of the last tick. */
  function StepShown(first: nat, events: seq<SimEvent>): nat {
    if events == [] then first
    else
      match events[|events| - 1]
      case TimeTick(step) => step
      case _ => StepShown(first, events[..|events| - 1])
  }

  function Shown(m: Market, events: seq<SimEvent>): Market {
    Market(PriceShown(m.price, events), VolatilityShown(m.volatility, events), StepShown(m.step, events))
  }

  lemma ShownNext(m: Market, events: seq<SimEvent>, event: SimEvent)
    ensures Shown(m, events + [event]) == MarketAfter(Shown(m, events), event)
  {
    assert (events + [event])[..|events|] == events;
  }
}
