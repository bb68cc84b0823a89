/**
 * The brokerage gateway (an ib_insync `IB` session) as an oracle. The answers the gateway
 * gives are fixed when it is built: which sessions it accepts, what each contract qualifies
 * to, the ticker each market-data request sees, and the trade handed back for the n-th
 * order placed. What the core does to it is recorded: the session, the order log and the
 * open market-data subscriptions.
 */
module Broker {
  import opened Wrappers

  /** The fields of an ib_insync `Contract` the core reads or sets; unset text fields are "". */
  datatype Contract = Contract(
    secType: string,
    symbol: string,
    month: string,
    strike: real,
    right: string,
    multiplier: string,
    exchange: string,
    currency: string,
    tradingClass: string)

  function FutureContract(symbol: string, month: string, exchange: string, currency: string): Contract
  {
    Contract("FUT", symbol, month, 0.0, "", "", exchange, currency, "")
  }

  function OptionContract(symbol: string, month: string, strike: real, right: string,
                          exchange: string, currency: string, tradingClass: string): Contract
  {
    Contract("OPT", symbol, month, strike, right, "", exchange, currency, tradingClass)
  }

  function StockContract(symbol: string, exchange: string, currency: string): Contract
  {
    Contract("STK", symbol, "", 0.0, "", "", exchange, currency, "")
  }

  /** A row of `ib.portfolio()`; the position is a float at the broker. */
  datatype PortfolioItem = PortfolioItem(
    contract: Contract,
    position: real,
    averageCost: real,
    marketValue: real,
    unrealizedPnl: real,
    realizedPnl: real)

  /** A row of `ib.positions()`: it has `avgCost` and no market value or P&L fields. */
  datatype IbPosition = IbPosition(contract: Contract, position: real, avgCost: real)

  /** The ticker fields a market-data request reads after its settling delay. */
  datatype Ticker = Ticker(bid: real, ask: real, last: real, high: real, low: real, volume: real)

  datatype Action = Buy | Sell

  function ActionText(a: Action): string
  {
    match a
    case Buy => "BUY"
    case Sell => "SELL"
  }

  /** `MarketOrder(action, qty)` or `LimitOrder(action, qty, price)`; a limit price may be None. */
  datatype OrderTicket =
    | MarketOrder(action: Action, quantity: real)
    | LimitOrder(action: Action, quantity: real, price: Option<real>)

  /** `trade.orderStatus` as read at one poll. */
  datatype OrderStatus = OrderStatus(status: string, filled: nat, avgFillPrice: real)

  /** A placed trade: `isDone()` and `orderStatus` as observed after `tick` polls of 0.1 s. */
  datatype Trade = Trade(orderId: int, isDone: nat -> bool, statusAt: nat -> OrderStatus)

  /** What `placeOrder` does: hand back a trade, or raise. */
  datatype Placement = Placed(trade: Trade) | PlaceRaised(error: string)

  /** What `qualifyContractsAsync` does: return the qualified contracts, or raise. */
  datatype Qualification = Qualified(contracts: seq<Contract>) | QualifyRaised(error: string)

  /** The contract a qualification gives: the first one returned, else the error raised, or `none` when nothing came back. */
  function FirstQualified(q: Qualification, none: string): (r: Result<Contract>)
    ensures r.Ok? <==> q.Qualified? && q.contracts != []
    ensures r.Ok? ==> r.value == q.contracts[0]
    ensures q.QualifyRaised? ==> r == Err(q.error)
    ensures q.Qualified? && q.contracts == [] ==> r == Err(none)
  {
    match q
    case QualifyRaised(e) => Err(e)
    case Qualified(cs) => if cs == [] then Err(none) else Ok(cs[0])
  }

  datatype Session = Session(host: string, port: int, clientId: int)

  datatype OrderRecord = OrderRecord(contract: Contract, order: OrderTicket)

  /** The trade reaches a done state at some poll. */
  ghost predicate Settles(t: Trade)
  {
    exists k: nat :: t.isDone(k)
  }

  class Gateway {
    var connected: bool
    var session: Option<Session>
    /** Every `placeOrder` call, in order. */
    var orders: seq<OrderRecord>
    /** Market-data requests not yet cancelled. */
    var subscriptions: multiset<Contract>
    var portfolio: seq<PortfolioItem>
    var positions: seq<IbPosition>

    /** None when `connectAsync` succeeds for a session, else the text of what it raises. */
    const connectError: Session -> Option<string>
    const qualify: Contract -> Qualification
    /** The ticker a request for a contract sees; None when `reqMktData` raises. */
    const quote: Contract -> Option<Ticker>
    /** What the n-th `placeOrder` on this session does. */
    const respond: nat -> Placement

    /** Every trade the gateway hands back is eventually done (the unbounded waits rely on it). */
    ghost predicate FillsArrive()
    {
      forall n: nat :: respond(n).Placed? ==> Settles(respond(n).trade)
    }

    constructor (connectError: Session -> Option<string>, qualify: Contract -> Qualification,
                 quote: Contract -> Option<Ticker>, respond: nat -> Placement,
                 portfolio: seq<PortfolioItem>, positions: seq<IbPosition>)
      ensures !connected && session.None? && orders == [] && subscriptions == multiset{}
      ensures this.connectError == connectError && this.qualify == qualify
      ensures this.quote == quote && this.respond == respond
      ensures this.portfolio == portfolio && this.positions == positions
    {
      connected, session, orders, subscriptions := false, None, [], multiset{};
      this.connectError, this.qualify, this.quote, this.respond := connectError, qualify, quote, respond;
      this.portfolio, this.positions := portfolio, positions;
    }

    /** `connectAsync`: None on success, else the error it raises. */
    method ConnectAsync(host: string, port: int, clientId: int) returns (err: Option<string>)
      modifies this`connected, this`session
      ensures err == connectError(Session(host, port, clientId))
      ensures err.None? ==> connected && session == Some(Session(host, port, clientId))
      ensures err.Some? ==> connected == old(connected) && session == old(session)
    {
      err := connectError(Session(host, port, clientId));
      if err.None? {
        connected, session := true, Some(Session(host, port, clientId));
      }
    }

    method Disconnect()
      modifies this`connected, this`session
      ensures !connected && session.None?
    {
      connected, session := false, None;
    }

    method PlaceOrder(c: Contract, o: OrderTicket) returns (p: Placement)
      modifies this`orders
      ensures orders == old(orders) + [OrderRecord(c, o)]
      ensures p == respond(|old(orders)|)
    {
      p := respond(|orders|);
      orders := orders + [OrderRecord(c, o)];
    }

    method ReqMktData(c: Contract) returns (t: Option<Ticker>)
      modifies this`subscriptions
      ensures t == quote(c)
      ensures subscriptions == old(subscriptions) + (if t.Some? then multiset{c} else multiset{})
    {
      t := quote(c);
      if t.Some? {
        subscriptions := subscriptions + multiset{c};
      }
    }

    method CancelMktData(c: Contract)
      modifies this`subscriptions
      ensures subscriptions == old(subscriptions) - multiset{c}
    {
      subscriptions := subscriptions - multiset{c};
    }
  }
}
