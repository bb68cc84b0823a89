/**
 * The SPY stock trader (`SPYStockTrader`): the SPY stock qualified at connect time, bought at
 * market five shares at a time, and a closing loop that offsets every open SPY stock
 * position at market on that one qualified contract.
 */
module SpyStocks {
  import opened Wrappers
  import opened Seqs
  import opened Text
  import opened Broker
  import opened Models
  import opened Market
  import opened Polling
  import opened Netting
  import Config

  const StockSymbol: string := "SPY"
  const StockExchange: string := "SMART"
  const StockCurrency: string := "USD"
  /** The size of a buy when none is given. */
  const FixedQuantity: int := 5

  /** The stock the trader qualifies when it connects. */
  const TradedStock: Contract := StockContract(StockSymbol, StockExchange, StockCurrency)

  const NotTradable: string := "SPY stock contract not found or not tradable"

  /** The client id of the stock trader's session is the configured one plus 20. */
  function SessionFor(host: Option<string>, port: Option<int>, clientId: Option<int>): (s: Session)
    ensures host.None? || host.value == "" ==> s.host == Config.IbkrHost
    ensures port.None? || port.value == 0 ==> s.port == Config.IbkrPort
    ensures clientId.None? || clientId.value == 0 ==> s.clientId == Config.IbkrClientId + 20
    ensures clientId.Some? && clientId.value != 0 ==> s.clientId == clientId.value
  {
    Session(OrDefault(host, "", Config.IbkrHost), OrDefault(port, 0, Config.IbkrPort),
            OrDefault(clientId, 0, Config.IbkrClientId + 20))
  }

  /** A SPY stock position as `get_stock_positions` reports it. */
  datatype StockHolding = StockHolding(
    symbol: string,
    exchange: string,
    quantity: int,
    averagePrice: real,
    marketValue: real,
    unrealizedPnl: real)

  predicate IsSpyStock(it: PortfolioItem)
  {
    it.contract.symbol == StockSymbol && it.contract.secType == "STK" && it.position != 0.0
  }

  function HoldingOf(it: PortfolioItem): StockHolding
  {
    StockHolding(it.contract.symbol, it.contract.exchange, Trunc(it.position), it.averageCost, it.marketValue,
                 it.unrealizedPnl)
  }

  function StockHoldings(items: seq<PortfolioItem>): seq<StockHolding>
  {
    Collect(items, IsSpyStock, HoldingOf)
  }

  /**
   * The holdings are exactly the non-zero SPY stock items of the portfolio, each with its
   * truncated size, and a portfolio without one gives none.
   */
  lemma StockHoldingsSpec(items: seq<PortfolioItem>)
    ensures |StockHoldings(items)| <= |items|
    ensures forall h :: h in StockHoldings(items) <==>
      exists i :: 0 <= i < |items| && IsSpyStock(items[i]) && h == HoldingOf(items[i])
    ensures (forall i | 0 <= i < |items| :: !IsSpyStock(items[i])) ==> StockHoldings(items) == []
  {
    CollectMembers(items, IsSpyStock, HoldingOf);
    if forall i | 0 <= i < |items| :: !IsSpyStock(items[i]) {
      CollectNone(items, IsSpyStock, HoldingOf);
    }
  }

  /** One entry of the closing loop's results. */
  datatype StockEntry = StockEntry(action: string, symbol: string, quantity: int, outcome: CloseOutcome)

  const SellLabel: string := "SELL"
  const BuyBackLabel: string := "BUY_TO_CLOSE"
  const FailedLabel: string := "CLOSE"

  /** The order the closing loop places on contract c for a holding: none when its size is 0. */
  function StockTickets(c: Contract, h: StockHolding): (r: seq<OrderRecord>)
    ensures |r| == (if h.quantity != 0 then 1 else 0)
    ensures |r| == 1 ==> r[0] == OrderRecord(c, MarketOrder(Side(h.quantity), AbsInt(h.quantity) as real))
  {
    if h.quantity == 0 then [] else [OrderRecord(c, MarketOrder(Side(h.quantity), AbsInt(h.quantity) as real))]
  }

  function Tickets(c: Contract): StockHolding -> seq<OrderRecord>
  {
    (h: StockHolding) => StockTickets(c, h)
  }

  /**
   * The entries the closing loop records for a holding whose order is the n-th placed: an
   * order that raises gives a 'CLOSE' entry with the error, a zero size gives none.
   */
  ghost function StockEntriesAt(ib: Gateway, h: StockHolding, n: nat): seq<StockEntry>
    requires ib.FillsArrive()
  {
    if h.quantity == 0 then []
    else
      match ib.respond(n)
      case PlaceRaised(e) => [StockEntry(FailedLabel, h.symbol, AbsInt(h.quantity), NotClosed(e))]
      case Placed(t) =>
        [StockEntry(if h.quantity > 0 then SellLabel else BuyBackLabel, h.symbol, AbsInt(h.quantity), SettledClose(t))]
  }

  ghost function StockResults(ib: Gateway): (StockHolding, nat) -> seq<StockEntry>
    requires ib.FillsArrive()
  {
    (h: StockHolding, n: nat) => StockEntriesAt(ib, h, n)
  }

  function ClosedFill(e: StockEntry): int
  {
    if e.outcome.Closed? then e.outcome.filled else 0
  }

  predicate EntryClosed(e: StockEntry)
  {
    e.outcome.Closed?
  }

  predicate NonZeroSize(h: StockHolding)
  {
    h.quantity != 0
  }

  /**
   * The closing loop records exactly one entry and places exactly one order per holding with
   * a non-zero size.
   */
  lemma {:induction false} StockClosingCounts(ib: Gateway, c: Contract, hs: seq<StockHolding>, orders: seq<OrderRecord>)
    requires ib.FillsArrive()
    ensures var r := Closing(StockResults(ib), Tickets(c), hs, orders);
      && |r.entries| == Count(hs, NonZeroSize)
      && r.orders == orders + PlacedBy(Tickets(c), hs)
  {
    forall h, n: nat
      ensures |StockResults(ib)(h, n)| == (if NonZeroSize(h) then 1 else 0)
    {
      assert StockResults(ib)(h, n) == StockEntriesAt(ib, h, n);
    }
    ClosingCount(StockResults(ib), Tickets(c), hs, orders, NonZeroSize);
    ClosingOrders(StockResults(ib), Tickets(c), hs, orders);
  }

  /**
   * Over holdings of non-zero size, entry i and the i-th new order belong to holding i: the
   * order sells a long and buys back a short of the holding's size on the qualified stock,
   * and the entry carries that order's outcome, or its error under 'CLOSE'.
   */
  lemma StockClosingEach(ib: Gateway, c: Contract, hs: seq<StockHolding>, orders: seq<OrderRecord>)
    requires ib.FillsArrive()
    requires forall i | 0 <= i < |hs| :: hs[i].quantity != 0
    ensures var r := Closing(StockResults(ib), Tickets(c), hs, orders);
      && |r.entries| == |hs|
      && |r.orders| == |orders| + |hs|
      && r.orders[..|orders|] == orders
      && forall i | 0 <= i < |hs| ::
           var q := hs[i].quantity;
           var p := ib.respond(|orders| + i);
           r.orders[|orders| + i] == OrderRecord(c, MarketOrder(Side(q), AbsInt(q) as real))
           && r.entries[i].quantity == AbsInt(q)
           && r.entries[i].symbol == hs[i].symbol
           && (p.PlaceRaised? ==> r.entries[i].action == FailedLabel && r.entries[i].outcome == NotClosed(p.error))
           && (p.Placed? ==>
                 r.entries[i].action == (if q > 0 then SellLabel else BuyBackLabel)
                 && r.entries[i].outcome == SettledClose(p.trade))
  {
    var close := StockResults(ib);
    var place := Tickets(c);
    forall i, n: nat | 0 <= i < |hs|
      ensures |close(hs[i], n)| == 1
    {
      assert close(hs[i], n) == StockEntriesAt(ib, hs[i], n);
    }
    forall i | 0 <= i < |hs|
      ensures |place(hs[i])| == 1
    {
      assert place(hs[i]) == StockTickets(c, hs[i]);
    }
    ClosingOneEach(close, place, hs, orders);
    var r := Closing(close, place, hs, orders);
    forall i | 0 <= i < |hs|
      ensures r.entries[i] == StockEntriesAt(ib, hs[i], |orders| + i)[0]
      ensures r.orders[|orders| + i] == StockTickets(c, hs[i])[0]
    {
      assert close(hs[i], |orders| + i) == StockEntriesAt(ib, hs[i], |orders| + i);
      assert place(hs[i]) == StockTickets(c, hs[i]);
    }
  }

  /** The market-data view of the traded stock. */
  datatype StockQuote = StockQuote(symbol: string, exchange: string, bid: Option<real>, ask: Option<real>,
                                   last: Option<real>, spread: Option<real>)

  function QuoteOf(c: Contract, s: Snapshot): StockQuote
  {
    StockQuote(c.symbol, c.exchange, s.bid, s.ask, s.last, Spread(s.bid, s.ask))
  }

  /** The quote of the stock from one market-data request: None when the request raises. */
  function QuoteFor(quote: Contract -> Option<Ticker>, c: Contract): Option<StockQuote>
  {
    match Quote(quote, c)
    case Some(s) => Some(QuoteOf(c, s))
    case None => None
  }

  /** The spread of a quote from a ticker exists exactly when both sides are positive, and is then ask minus bid. */
  lemma QuoteOfSpread(c: Contract, t: Ticker)
    ensures QuoteOf(c, Normalise(t)).spread.Some? <==> t.bid > 0.0 && t.ask > 0.0
    ensures QuoteOf(c, Normalise(t)).spread.Some? ==> QuoteOf(c, Normalise(t)).spread.value == t.ask - t.bid
  {
    NormalisedSpread(t);
  }

  const BuyNotConnected: string := "Error placing SPY stock buy order: Not connected to IBKR"
  const BuyNotQualified: string := "Error placing SPY stock buy order: SPY stock contract not qualified"
  const SpyBuy: BuyWording := BuyWording("SPY stock shares", "SPY stock buy order")

  /** A buy's result and the order log after it. */
  datatype Bought = Bought(result: TradeResult, orders: seq<OrderRecord>)

  /**
   * `buy_stock`: not connected or no qualified stock fails without an order; otherwise one
   * market buy of the given size (5 when none is given) on the qualified stock.
   */
  ghost function BuyStep(ib: Gateway, connected: bool, stock: Option<Contract>, quantity: Option<int>,
                         orders: seq<OrderRecord>, show: real -> string): Bought
    requires ib.FillsArrive()
  {
    if !connected then Bought(Failed(BuyNotConnected), orders)
    else if stock.None? then Bought(Failed(BuyNotQualified), orders)
    else
      var size := match quantity case None => FixedQuantity case Some(q) => q;
      Bought(BoughtResult(ib.respond(|orders|), SpyBuy, show),
             orders + [OrderRecord(stock.value, MarketOrder(Buy, size as real))])
  }

  /**
   * A buy places at most one order, a buy of the qualified stock sized as asked or 5; it
   * succeeds exactly when that order settles as 'Filled', and then carries the fill and
   * the order id; any other final status fails with the order id kept.
   */
  lemma BuyStepSpec(ib: Gateway, connected: bool, stock: Option<Contract>, quantity: Option<int>,
                    orders: seq<OrderRecord>, show: real -> string)
    requires ib.FillsArrive()
    ensures var b := BuyStep(ib, connected, stock, quantity, orders, show);
      var p := ib.respond(|orders|);
      && b.orders[..|orders|] == orders
      && (|b.orders| == |orders| + 1 <==> connected && stock.Some?)
      && (b.orders == orders || |b.orders| == |orders| + 1)
      && (|b.orders| == |orders| + 1 ==>
            b.orders[|orders|] == OrderRecord(stock.value, MarketOrder(Buy, (if quantity.None? then 5 else quantity.value) as real)))
      && (b.result.success <==>
            connected && stock.Some? && p.Placed? && p.trade.statusAt(SettleTick(p.trade)).status == "Filled")
      && (b.result.success ==>
            b.result.orderId == Some(p.trade.orderId)
            && b.result.filledQuantity == Some(p.trade.statusAt(SettleTick(p.trade)).filled as int)
            && b.result.message
               == "Successfully bought " + WholeText(p.trade.statusAt(SettleTick(p.trade)).filled, true) + " " + SpyBuy.units
                  + " at $" + show(p.trade.statusAt(SettleTick(p.trade)).avgFillPrice))
      && (connected && stock.Some? && p.Placed? && !b.result.success ==> b.result.orderId == Some(p.trade.orderId))
  {
  }

  const CloseNotConnected: string := "Error closing SPY stock positions: Not connected to IBKR"
  const NothingToClose: string := "No SPY stock positions to close"

  function ClosedMessage(total: int, isFloat: bool): string
  {
    "Successfully closed " + WholeText(total, isFloat) + " SPY stock shares"
  }

  /** The closing summary of a run over a non-empty holding list. */
  function StockSummary(entries: seq<StockEntry>): CloseSummary<StockEntry>
  {
    var total := SumOf(entries, ClosedFill);
    CloseSummary(ClosedMessage(total, AnyOf(entries, EntryClosed)), total, entries)
  }

  /** The SPY stock trader: the connection flag, the qualified stock and the gateway session. */
  class SpyStockTrader {
    var connected: bool
    var stockContract: Option<Contract>
    const ib: Gateway
    /** How Python prints a float price in a message. */
    const show: real -> string

    /** A connected trader always holds its qualified stock, so the closing loop always has a contract. */
    ghost predicate Valid()
      reads this
    {
      connected ==> stockContract.Some?
    }

    constructor (ib: Gateway, show: real -> string)
      ensures this.ib == ib && this.show == show && !connected && stockContract.None? && Valid()
    {
      this.ib := ib;
      this.show := show;
      connected := false;
      stockContract := None;
    }

    predicate IsConnected()
      reads this, ib
    {
      connected && ib.connected
    }

    /**
     * `connect`: None when the session opens and the stock qualifies, else the error
     * re-raised with `connected` cleared. The stock is only replaced by a qualified one.
     */
    method Connect(host: Option<string>, port: Option<int>, clientId: Option<int>) returns (err: Option<string>)
      modifies this, ib`connected, ib`session
      ensures var s := SessionFor(host, port, clientId);
        var q := FirstQualified(ib.qualify(TradedStock), NotTradable);
        && (ib.connectError(s).Some? ==>
              err == ib.connectError(s) && ib.connected == old(ib.connected) && ib.session == old(ib.session))
        && (ib.connectError(s).None? ==>
              ib.connected && ib.session == Some(s) && err == (if q.Ok? then None else Some(q.error)))
        && (err.None? ==> connected && stockContract == Some(q.value))
        && (err.Some? ==> !connected && stockContract == old(stockContract))
      ensures Valid()
    {
      var s := SessionFor(host, port, clientId);
      err := ib.ConnectAsync(s.host, s.port, s.clientId);
      if err.Some? {
        connected := false;
        return;
      }
      connected := true;
      var q := FirstQualified(ib.qualify(TradedStock), NotTradable);
      if q.Err? {
        connected := false;
        return Some(q.error);
      }
      stockContract := Some(q.value);
    }

    method Disconnect()
      modifies this`connected, ib`connected, ib`session
      ensures !connected
      ensures old(connected) ==> !ib.connected && ib.session.None?
      ensures !old(connected) ==> ib.connected == old(ib.connected) && ib.session == old(ib.session)
      ensures Valid()
    {
      if connected {
        ib.Disconnect();
        connected := false;
      }
    }

    /** `get_stock_positions`: the SPY stock holdings in portfolio order while connected, else none. */
    method GetStockPositions() returns (hs: seq<StockHolding>)
      ensures hs == (if IsConnected() then StockHoldings(ib.portfolio) else [])
    {
      if !IsConnected() {
        return [];
      }
      var items := ib.portfolio;
      hs := [];
      var i := 0;
      while i < |items|
        invariant 0 <= i <= |items|
        invariant hs == Collect(items[..i], IsSpyStock, HoldingOf)
      {
        var it := items[i];
        assert items[..i + 1] == items[..i] + [it];
        CollectSnoc(items[..i], it, IsSpyStock, HoldingOf);
        if IsSpyStock(it) {
          hs := hs + [HoldingOf(it)];
        }
        i := i + 1;
      }
      assert items[..i] == items;
    }

    /** `buy_stock`: a market buy of the qualified stock. */
    method BuyStock(quantity: Option<int>) returns (r: TradeResult)
      requires ib.FillsArrive()
      modifies ib`orders
      ensures Bought(r, ib.orders) == BuyStep(ib, IsConnected(), stockContract, quantity, old(ib.orders), show)
    {
      if !IsConnected() {
        return Failed(BuyNotConnected);
      }
      if stockContract.None? {
        return Failed(BuyNotQualified);
      }
      var size := if quantity.None? then FixedQuantity else quantity.value;
      var p := ib.PlaceOrder(stockContract.value, MarketOrder(Buy, size as real));
      r := AwaitBought(p, SpyBuy, show);
    }

    /** `sell_all_stock_positions`: close every SPY stock holding at market on the qualified stock. */
    method SellAllStockPositions() returns (s: CloseSummary<StockEntry>)
      requires ib.FillsArrive() && Valid()
      modifies ib`orders
      ensures !IsConnected() ==> s == CloseSummary(CloseNotConnected, 0, []) && ib.orders == old(ib.orders)
      ensures IsConnected() ==>
        var hs := StockHoldings(ib.portfolio);
        var r := Closing(StockResults(ib), Tickets(stockContract.value), hs, old(ib.orders));
        && ib.orders == r.orders
        && s == (if hs == [] then CloseSummary(NothingToClose, 0, []) else StockSummary(r.entries))
    {
      if !IsConnected() {
        return CloseSummary(CloseNotConnected, 0, []);
      }
      var hs := GetStockPositions();
      if hs == [] {
        return CloseSummary(NothingToClose, 0, []);
      }
      var results, total, anyFilled := CloseHoldings(hs, stockContract.value);
      s := CloseSummary(ClosedMessage(total, anyFilled), total, results);
    }

    /** The closing loop: offset each holding at market on contract c. */
    method CloseHoldings(hs: seq<StockHolding>, c: Contract) returns (results: seq<StockEntry>, total: int, anyFilled: bool)
      requires ib.FillsArrive()
      modifies ib`orders
      ensures Run(results, ib.orders) == Closing(StockResults(ib), Tickets(c), hs, old(ib.orders))
      ensures total == SumOf(results, ClosedFill)
      ensures anyFilled == AnyOf(results, EntryClosed)
    {
      ghost var close := StockResults(ib);
      ghost var place := Tickets(c);
      results, total, anyFilled := [], 0, false;
      var i := 0;
      while i < |hs|
        invariant 0 <= i <= |hs|
        invariant Closing(close, place, hs[..i], old(ib.orders)) == Run(results, ib.orders)
        invariant total == SumOf(results, ClosedFill)
        invariant anyFilled == AnyOf(results, EntryClosed)
      {
        ClosingSnoc(close, place, hs, i, old(ib.orders));
        var es := CloseHolding(hs[i], c, close, place);
        results, total, anyFilled := Tally(results, total, anyFilled, es, ClosedFill, EntryClosed);
        i := i + 1;
      }
      assert hs[..i] == hs;
    }

    /** One pass of the closing loop: the entry its holding adds, none for a zero size. */
    method CloseHolding(h: StockHolding, c: Contract, ghost close: (StockHolding, nat) -> seq<StockEntry>,
                        ghost place: StockHolding -> seq<OrderRecord>) returns (es: seq<StockEntry>)
      requires ib.FillsArrive()
      requires close(h, |ib.orders|) == StockEntriesAt(ib, h, |ib.orders|)
      requires place(h) == StockTickets(c, h)
      modifies ib`orders
      ensures es == close(h, |old(ib.orders)|)
      ensures ib.orders == old(ib.orders) + place(h)
      ensures |es| <= 1
    {
      if h.quantity == 0 {
        return [];
      }
      var p := ib.PlaceOrder(c, MarketOrder(Side(h.quantity), AbsInt(h.quantity) as real));
      match p {
        case PlaceRaised(e) =>
          es := [StockEntry(FailedLabel, h.symbol, AbsInt(h.quantity), NotClosed(e))];
        case Placed(t) =>
          var outcome := AwaitClose(t);
          es := [StockEntry(if h.quantity > 0 then SellLabel else BuyBackLabel, h.symbol, AbsInt(h.quantity), outcome)];
      }
    }

    /** `get_stock_market_data`: the normalised quote of the qualified stock, with the subscription cancelled again. */
    method GetStockMarketData() returns (md: Option<StockQuote>)
      modifies ib`subscriptions
      ensures md == (if IsConnected() && stockContract.Some? then QuoteFor(ib.quote, stockContract.value) else None)
      ensures ib.subscriptions == old(ib.subscriptions)
    {
      if !IsConnected() || stockContract.None? {
        return None;
      }
      var c := stockContract.value;
      var t := ib.ReqMktData(c);
      if t.None? {
        return None;
      }
      var s := Normalise(t.value);
      ib.CancelMktData(c);
      md := Some(QuoteOf(c, s));
      assert md == QuoteFor(ib.quote, c);
    }
  }
}
