/** Identifiers, trade intents and requests shared by every BTS component. */
module Protocol {
  datatype Option<+T> = None | Some(value: T)

  datatype EventId = EventId(text: string)

  datatype SignalId = SignalId(text: string)

  type OrderId = nat

  /** The four trade intents BTS understands. */
  datatype TradeIntent = BuyToOpen | SellToOpen | BuyToClose | SellToClose {
    predicate Closing() {
      BuyToClose? || SellToClose?
    }

    predicate Buys() {
      BuyToOpen? || BuyToClose?
    }

    /** +1 for an order that buys, -1 for one that sells. */
    function Sign(): int {
      if Buys() then 1 else -1
    }
  }

  /** A request captures the Eagle event and the operator's settings. */
  datatype TradeRequest = TradeRequest(
    event: EventId,
    signal: SignalId,
    intent: TradeIntent,
    symbol: string,
    quantity: int)
}
