// The vocabulary shared by the order manager, the order socket and the
// protocol: client identifiers, orders, local slots, decisions and quotes.
module Orders {

  // Two bids and two asks at most.
  const MAX_ORDER_LEVELS := 2

  datatype Option<+T> = None | Some(value: T)

  datatype Side = Buy | Sell

  function Sign(side: Side): real {
    if side == Buy then 1.0 else -1.0
  }

  function Min(a: real, b: real): real {
    if a <= b then a else b
  }

  function Max(a: real, b: real): real {
    if a >= b then a else b
  }

  /** The independent reasons that can block order generation. */
  datatype PauseReason = OrderWebSocket | CircuitBreaker | Safety | MarketData | RiskData | Reconciliation

  /** The three fields a manager prints into a client order id. The text form,
      and that it loses nothing, is the subject of module ClientIds. */
  datatype ClientId = ClientId(level: nat, generation: nat, number: nat)

  datatype Order = Order(id: ClientId, side: Side, level: nat, price: real, qty: real)

  datatype OrderState = Pending | Live | Canceling

  /** A local slot's contents; `orderId` is the exchange's numeric id once known. */
  datatype LiveOrder = LiveOrder(ord: Order, orderId: Option<int>, state: OrderState, sentAt: int, cancelFails: nat)

  type Slots = s: seq<Option<LiveOrder>> | |s| == MAX_ORDER_LEVELS witness [None, None]

  datatype Decision =
    | Send(order: Order)
    | Cancel(id: ClientId)
    | CancelAndReplace(id: ClientId, level: nat, newPrice: real, qty: real)

  datatype Quote = Quote(bids: seq<real>, asks: seq<real>, numLevels: nat, quantity: real, mid: real,
                         validForTrading: bool)

  predicate QuoteShape(q: Quote) {
    |q.bids| == MAX_ORDER_LEVELS && |q.asks| == MAX_ORDER_LEVELS
  }

  function QuotePrice(q: Quote, side: Side, level: nat): real
    requires QuoteShape(q) && level < MAX_ORDER_LEVELS
  {
    if side == Buy then q.bids[level] else q.asks[level]
  }
}
