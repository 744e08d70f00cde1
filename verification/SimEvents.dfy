/** The events that flow through the discrete-event simulator. */
module SimEvents {
  import opened Wrappers

  datatype Side = Buy | Sell

  datatype Order = Order(id: nat, strategy: string, side: Side, quantity: real, limitPrice: Option<real>)

  datatype SimEvent =
    | PriceUpdate(price: real, volatility: real)
    | MarketTrade(qty: real, price: real)
    | SubmitOrder(order: Order)
    | CancelOrder(orderId: nat)
    | OrderFilled(orderId: nat, filled: real, price: real, impact: real)
    | PartialFill(orderId: nat, filled: real, remaining: real, price: real)
    | TimeTick(step: nat)
    | PathStart(pathId: nat)
    | PathEnd(pathId: nat)
    | Progress(completed: nat, total: nat)
    | SimulationEnd

  /** An event with its timestamp (in ticks of one nanosecond-unit, 1e-9) and tie-breaking number. */
  datatype TimestampedEvent = TimestampedEvent(time: int, seqNo: nat, event: SimEvent)

  /** An event that a handler asks to have scheduled. */
  datatype Emission = Emission(time: int, event: SimEvent)
}
