/**
 * The SPX option trader (`SPXOptionTrader`): one SPXW call option qualified at connect time,
 * bought at market one contract at a time, and a closing loop that re-qualifies every open
 * SPXW option position and offsets it at market.
 */
module SpxOptions {
  import opened Wrappers
  import opened Seqs
  import opened Text
  import opened Broker
  import opened Models
  import opened Market
  import opened Polling
  import opened Netting
  import Config

  const OptionSymbol: string := "SPXW"
  const Expiration: string := "20251010"
  const Strike: real := 6675.0
  const Right: string := "C"
  const OptionExchange: string := "SMART"
  const OptionCurrency: string := "USD"
  const TradingClass: string := "SPXW"
  /** The size of a buy when none is given. */
  const FixedQuantity: int := 1

  /** The option the trader qualifies when it connects. */
  const TradedOption: Contract :=
    OptionContract(OptionSymbol, Expiration, Strike, Right, OptionExchange, OptionCurrency, TradingClass)

  const NotTradable: string := "SPX option contract not found or not tradable"

  /** The client id of the option trader's session is the configured one plus 10. */
  function SessionFor(host: Option<string>, port: Option<int>, clientId: Option<int>): (s: Session)
    ensures host.None? || host.value == "" ==> s.host == Config.IbkrHost
    ensures port.None? || port.value == 0 ==> s.port == Config.IbkrPort
    ensures clientId.None? || clientId.value == 0 ==> s.clientId == Config.IbkrClientId + 10
    ensures clientId.Some? && clientId.value != 0 ==> s.clientId == clientId.value
  {
    Session(OrDefault(host, "", Config.IbkrHost), OrDefault(port, 0, Config.IbkrPort),
            OrDefault(clientId, 0, Config.IbkrClientId + 10))
  }

  /** An SPX option position as `get_option_positions` reports it. */
  datatype OptionHolding = OptionHolding(
    symbol: string,
    strike: real,
    right: string,
    expiration: string,
    quantity: int,
    averagePrice: real,
    marketValue: real,
    unrealizedPnl: real)

  predicate IsSpxOption(it: PortfolioItem)
  {
    it.contract.symbol == OptionSymbol && it.contract.secType == "OPT" && it.position != 0.0
  }

  function HoldingOf(it: PortfolioItem): OptionHolding
  {
    OptionHolding(it.contract.symbol, it.contract.strike, it.contract.right, it.contract.month,
                  Trunc(it.position), it.averageCost, it.marketValue, it.unrealizedPnl)
  }

  function OptionHoldings(items: seq<PortfolioItem>): seq<OptionHolding>
  {
    Collect(items, IsSpxOption, HoldingOf)
  }

  /**
   * The holdings are exactly the non-zero SPXW option items of the portfolio, each with its
   * truncated size, and a portfolio without one gives none.
   */
  lemma OptionHoldingsSpec(items: seq<PortfolioItem>)
    ensures |OptionHoldings(items)| <= |items|
    ensures forall h :: h in OptionHoldings(items) <==>
      exists i :: 0 <= i < |items| && IsSpxOption(items[i]) && h == HoldingOf(items[i])
    ensures (forall i | 0 <= i < |items| :: !IsSpxOption(items[i])) ==> OptionHoldings(items) == []
  {
    CollectMembers(items, IsSpxOption, HoldingOf);
    if forall i | 0 <= i < |items| :: !IsSpxOption(items[i]) {
      CollectNone(items, IsSpxOption, HoldingOf);
    }
  }

  /** The contract the closing loop qualifies for a holding: the holding's option on the trader's exchange. */
  function ContractOf(h: OptionHolding): Contract
  {
    OptionContract(h.symbol, h.expiration, h.strike, h.right, OptionExchange, OptionCurrency, TradingClass)
  }

  /** One entry of the closing loop's results. */
  datatype OptionEntry = OptionEntry(action: string, symbol: string, strike: real, right: string,
                                     quantity: int, outcome: CloseOutcome)

  /** The order the closing loop places for a holding: none when it qualifies to nothing or its size is 0. */
  function OptionTickets(qualify: Contract -> Qualification, h: OptionHolding): (r: seq<OrderRecord>)
    ensures |r| <= 1
    ensures |r| == 1 <==> qualify(ContractOf(h)).Qualified? && qualify(ContractOf(h)).contracts != [] && h.quantity != 0
    ensures |r| == 1 ==> r[0] == OrderRecord(qualify(ContractOf(h)).contracts[0], MarketOrder(Side(h.quantity), AbsInt(h.quantity) as real))
  {
    match qualify(ContractOf(h))
    case QualifyRaised(_) => []
    case Qualified(cs) =>
      if cs == [] || h.quantity == 0 then [] else [OrderRecord(cs[0], MarketOrder(Side(h.quantity), AbsInt(h.quantity) as real))]
  }

  /**
   * The entries the closing loop records for a holding whose order, if any, is the n-th
   * placed: a qualification that raises or an order that raises gives a 'CLOSE' entry with
   * the error; an empty qualification or a zero size gives none.
   */
  ghost function OptionEntriesAt(ib: Gateway, h: OptionHolding, n: nat): seq<OptionEntry>
    requires ib.FillsArrive()
  {
    var failed := (e: string) => OptionEntry("CLOSE", h.symbol, h.strike, h.right, AbsInt(h.quantity), NotClosed(e));
    match ib.qualify(ContractOf(h))
    case QualifyRaised(e) => [failed(e)]
    case Qualified(cs) =>
      if cs == [] || h.quantity == 0 then []
      else
        match ib.respond(n)
        case PlaceRaised(e) => [failed(e)]
        case Placed(t) =>
          var action := if h.quantity > 0 then "SELL" else "BUY_TO_CLOSE";
          [OptionEntry(action, h.symbol, h.strike, h.right, AbsInt(h.quantity), SettledClose(t))]
  }

  ghost function OptionResults(ib: Gateway): (OptionHolding, nat) -> seq<OptionEntry>
    requires ib.FillsArrive()
  {
    (h: OptionHolding, n: nat) => OptionEntriesAt(ib, h, n)
  }

  function Tickets(qualify: Contract -> Qualification): OptionHolding -> seq<OrderRecord>
  {
    (h: OptionHolding) => OptionTickets(qualify, h)
  }

  /** A holding is skipped, with no entry and no order, exactly when it qualifies to nothing or truncates to 0. */
  predicate Recorded(qualify: Contract -> Qualification, h: OptionHolding)
  {
    qualify(ContractOf(h)).QualifyRaised? || (qualify(ContractOf(h)).contracts != [] && h.quantity != 0)
  }

  function ClosedFill(e: OptionEntry): int
  {
    if e.outcome.Closed? then e.outcome.filled else 0
  }

  predicate EntryClosed(e: OptionEntry)
  {
    e.outcome.Closed?
  }

  /**
   * The closing loop records one entry per holding that is not skipped, so it can record fewer
   * entries than holdings; it places one order per holding with a qualified contract and a
   * non-zero size.
   */
  lemma {:induction false} OptionClosingCounts(ib: Gateway, hs: seq<OptionHolding>, orders: seq<OrderRecord>)
    requires ib.FillsArrive()
    ensures var r := Closing(OptionResults(ib), Tickets(ib.qualify), hs, orders);
      && |r.entries| == Count(hs, (h: OptionHolding) => Recorded(ib.qualify, h))
      && |r.entries| <= |hs|
      && r.orders == orders + PlacedBy(Tickets(ib.qualify), hs)
  {
    var keep := (h: OptionHolding) => Recorded(ib.qualify, h);
    forall h, n: nat
      ensures |OptionResults(ib)(h, n)| == (if keep(h) then 1 else 0)
    {
      assert OptionResults(ib)(h, n) == OptionEntriesAt(ib, h, n);
    }
    ClosingCount(OptionResults(ib), Tickets(ib.qualify), hs, orders, keep);
    ClosingOrders(OptionResults(ib), Tickets(ib.qualify), hs, orders);
  }

  /**
   * When every holding qualifies to a contract and has a non-zero size, entry i belongs to
   * holding i: it sells a long and buys back a short of the holding's size on the first
   * qualified contract, and carries the outcome of the i-th new order.
   */
  lemma OptionClosingAllQualified(ib: Gateway, hs: seq<OptionHolding>, orders: seq<OrderRecord>)
    requires ib.FillsArrive()
    requires forall i | 0 <= i < |hs| ::
      ib.qualify(ContractOf(hs[i])).Qualified? && ib.qualify(ContractOf(hs[i])).contracts != [] && hs[i].quantity != 0
    ensures var r := Closing(OptionResults(ib), Tickets(ib.qualify), hs, orders);
      && |r.entries| == |hs|
      && |r.orders| == |orders| + |hs|
      && forall i | 0 <= i < |hs| ::
           var q := hs[i].quantity;
           var p := ib.respond(|orders| + i);
           r.orders[|orders| + i]
             == OrderRecord(ib.qualify(ContractOf(hs[i])).contracts[0], MarketOrder(Side(q), AbsInt(q) as real))
           && r.entries[i].quantity == AbsInt(q)
           && r.entries[i].symbol == hs[i].symbol
           && (p.PlaceRaised? ==> r.entries[i].action == "CLOSE" && r.entries[i].outcome == NotClosed(p.error))
           && (p.Placed? ==>
                 r.entries[i].action == (if q > 0 then "SELL" else "BUY_TO_CLOSE")
                 && r.entries[i].outcome == SettledClose(p.trade))
  {
    var close := OptionResults(ib);
    var place := Tickets(ib.qualify);
    forall i, n: nat | 0 <= i < |hs|
      ensures |close(hs[i], n)| == 1
    {
      assert close(hs[i], n) == OptionEntriesAt(ib, hs[i], n);
    }
    forall i | 0 <= i < |hs|
      ensures |place(hs[i])| == 1
    {
      assert place(hs[i]) == OptionTickets(ib.qualify, hs[i]);
    }
    ClosingOneEach(close, place, hs, orders);
    var r := Closing(close, place, hs, orders);
    forall i | 0 <= i < |hs|
      ensures r.entries[i] == OptionEntriesAt(ib, hs[i], |orders| + i)[0]
      ensures r.orders[|orders| + i] == OptionTickets(ib.qualify, hs[i])[0]
    {
      assert close(hs[i], |orders| + i) == OptionEntriesAt(ib, hs[i], |orders| + i);
      assert place(hs[i]) == OptionTickets(ib.qualify, hs[i]);
    }
  }

  /** The market-data view of the traded option. */
  datatype OptionQuote = OptionQuote(symbol: string, strike: real, right: string, expiration: string,
                                     bid: Option<real>, ask: Option<real>, last: Option<real>, spread: Option<real>)

  function QuoteOf(c: Contract, s: Snapshot): OptionQuote
  {
    OptionQuote(c.symbol, c.strike, c.right, c.month, s.bid, s.ask, s.last, Spread(s.bid, s.ask))
  }

  /** The quote of an option from one market-data request: None when the request raises. */
  function QuoteFor(quote: Contract -> Option<Ticker>, c: Contract): Option<OptionQuote>
  {
    match Quote(quote, c)
    case Some(s) => Some(QuoteOf(c, s))
    case None => None
  }

  /** The spread of a quote from a ticker exists exactly when both sides are positive, and is then ask minus bid. */
  lemma QuoteOfSpread(c: Contract, t: Ticker)
    ensures QuoteOf(c, Normalise(t)).spread.Some? <==> t.bid > 0.0 && t.ask > 0.0
    ensures QuoteOf(c, Normalise(t)).spread.Some? ==> QuoteOf(c, Normalise(t)).spread.value == t.ask - t.bid
  {
    NormalisedSpread(t);
  }

  const BuyNotConnected: string := "Error placing SPX option buy order: Not connected to IBKR"
  const BuyNotQualified: string := "Error placing SPX option buy order: SPX option contract not qualified"
  const SpxBuy: BuyWording := BuyWording("SPX option contracts", "SPX option buy order")

  /** A buy's result and the order log after it. */
  datatype Bought = Bought(result: TradeResult, orders: seq<OrderRecord>)

  /**
   * `buy_option`: not connected or no qualified option fails without an order; otherwise one
   * market buy of the given size (1 when none is given) on the qualified option.
   */
  ghost function BuyStep(ib: Gateway, connected: bool, option: Option<Contract>, quantity: Option<int>,
                         orders: seq<OrderRecord>, show: real -> string): Bought
    requires ib.FillsArrive()
  {
    if !connected then Bought(Failed(BuyNotConnected), orders)
    else if option.None? then Bought(Failed(BuyNotQualified), orders)
    else
      var size := match quantity case None => FixedQuantity case Some(q) => q;
      Bought(BoughtResult(ib.respond(|orders|), SpxBuy, show),
             orders + [OrderRecord(option.value, MarketOrder(Buy, size as real))])
  }

  /**
   * A buy places at most one order, a buy of the qualified option sized as asked or 1; it
   * succeeds only when that order settles as 'Filled', and then reports what was filled.
   */
  lemma BuyStepSpec(ib: Gateway, connected: bool, option: Option<Contract>, quantity: Option<int>,
                    orders: seq<OrderRecord>, show: real -> string)
    requires ib.FillsArrive()
    ensures var b := BuyStep(ib, connected, option, quantity, orders, show);
      && (b.orders == orders || |b.orders| == |orders| + 1)
      && b.orders[..|orders|] == orders
      && (|b.orders| == |orders| + 1 <==> connected && option.Some?)
      && (|b.orders| == |orders| + 1 ==>
            b.orders[|orders|] == OrderRecord(option.value, MarketOrder(Buy, (if quantity.None? then 1 else quantity.value) as real)))
      && (b.result.success <==>
            connected && option.Some? && ib.respond(|orders|).Placed?
            && ib.respond(|orders|).trade.statusAt(SettleTick(ib.respond(|orders|).trade)).status == "Filled")
      && (b.result.success ==>
            var d := ib.respond(|orders|).trade.statusAt(SettleTick(ib.respond(|orders|).trade));
            && b.result.filledQuantity == Some(d.filled as int)
            && b.result.message == "Successfully bought " + WholeText(d.filled, true) + " " + SpxBuy.units + " at $" + show(d.avgFillPrice))
      && (!b.result.success ==> b.result.filledQuantity.None?)
  {
  }

  const CloseNotConnected: string := "Error closing SPX option positions: Not connected to IBKR"
  const NothingToClose: string := "No SPX option positions to close"

  function ClosedMessage(total: int, isFloat: bool): string
  {
    "Successfully closed " + WholeText(total, isFloat) + " SPX option contracts"
  }

  /** The closing summary of a run over a non-empty holding list. */
  function OptionSummary(entries: seq<OptionEntry>): CloseSummary<OptionEntry>
  {
    var total := SumOf(entries, ClosedFill);
    CloseSummary(ClosedMessage(total, AnyOf(entries, EntryClosed)), total, entries)
  }

  /** The SPX option trader: the connection flag, the qualified option and the gateway session. */
  class SpxOptionTrader {
    var connected: bool
    var optionContract: Option<Contract>
    const ib: Gateway
    /** How Python prints a float price in a message. */
    const show: real -> string

    /** A connected trader always holds its qualified option. */
    ghost predicate Valid()
      reads this
    {
      connected ==> optionContract.Some?
    }

    constructor (ib: Gateway, show: real -> string)
      ensures this.ib == ib && this.show == show && !connected && optionContract.None? && Valid()
    {
      this.ib := ib;
      this.show := show;
      connected := false;
      optionContract := None;
    }

    predicate IsConnected()
      reads this, ib
    {
      connected && ib.connected
    }

    /**
     * `connect`: None when the session opens and the option qualifies, else the error
     * re-raised with `connected` cleared. The option is only replaced by a qualified one.
     */
    method Connect(host: Option<string>, port: Option<int>, clientId: Option<int>) returns (err: Option<string>)
      modifies this, ib`connected, ib`session
      ensures var s := SessionFor(host, port, clientId);
        var q := FirstQualified(ib.qualify(TradedOption), NotTradable);
        && (ib.connectError(s).Some? ==>
              err == ib.connectError(s) && ib.connected == old(ib.connected) && ib.session == old(ib.session))
        && (ib.connectError(s).None? ==>
              ib.connected && ib.session == Some(s) && err == (if q.Ok? then None else Some(q.error)))
        && (err.None? ==> connected && optionContract == Some(q.value))
        && (err.Some? ==> !connected && optionContract == old(optionContract))
      ensures Valid()
    {
      var s := SessionFor(host, port, clientId);
      err := ib.ConnectAsync(s.host, s.port, s.clientId);
      if err.Some? {
        connected := false;
        return;
      }
      connected := true;
      var q := FirstQualified(ib.qualify(TradedOption), NotTradable);
      if q.Err? {
        connected := false;
        return Some(q.error);
      }
      optionContract := Some(q.value);
    }

    method Disconnect()
      modifies this`connected, ib`connected, ib`session
      ensures !connected
      ensures old(connected) ==> !ib.connected && ib.session.None?
      ensures !old(connected) ==> ib.connected == old(ib.connected) && ib.session == old(ib.session)
      ensures Valid()
    {
      if connected {
        ib.Disconnect();
        connected := false;
      }
    }

    /** `get_option_positions`: the SPXW option holdings in portfolio order while connected, else none. */
    method GetOptionPositions() returns (hs: seq<OptionHolding>)
      ensures hs == (if IsConnected() then OptionHoldings(ib.portfolio) else [])
    {
      if !IsConnected() {
        return [];
      }
      var items := ib.portfolio;
      hs := [];
      var i := 0;
      while i < |items|
        invariant 0 <= i <= |items|
        invariant hs == Collect(items[..i], IsSpxOption, HoldingOf)
      {
        var it := items[i];
        assert items[..i + 1] == items[..i] + [it];
        CollectSnoc(items[..i], it, IsSpxOption, HoldingOf);
        if IsSpxOption(it) {
          hs := hs + [HoldingOf(it)];
        }
        i := i + 1;
      }
      assert items[..i] == items;
    }

    /** `buy_option`: a market buy of the qualified option. */
    method BuyOption(quantity: Option<int>) returns (r: TradeResult)
      requires ib.FillsArrive()
      modifies ib`orders
      ensures Bought(r, ib.orders) == BuyStep(ib, IsConnected(), optionContract, quantity, old(ib.orders), show)
    {
      if !IsConnected() {
        return Failed(BuyNotConnected);
      }
      if optionContract.None? {
        return Failed(BuyNotQualified);
      }
      var size := if quantity.None? then FixedQuantity else quantity.value;
      var p := ib.PlaceOrder(optionContract.value, MarketOrder(Buy, size as real));
      r := AwaitBought(p, SpxBuy, show);
    }

    /** `sell_all_option_positions`: close every SPXW option holding at market. */
    method SellAllOptionPositions() returns (s: CloseSummary<OptionEntry>)
      requires ib.FillsArrive()
      modifies ib`orders
      ensures !IsConnected() ==>
        s == CloseSummary(CloseNotConnected, 0, []) && ib.orders == old(ib.orders)
      ensures IsConnected() ==>
        var hs := OptionHoldings(ib.portfolio);
        var r := Closing(OptionResults(ib), Tickets(ib.qualify), hs, old(ib.orders));
        && ib.orders == r.orders
        && s == (if hs == [] then CloseSummary(NothingToClose, 0, []) else OptionSummary(r.entries))
    {
      if !IsConnected() {
        return CloseSummary(CloseNotConnected, 0, []);
      }
      var hs := GetOptionPositions();
      if hs == [] {
        return CloseSummary(NothingToClose, 0, []);
      }
      var results, total, anyFilled := CloseHoldings(hs);
      s := CloseSummary(ClosedMessage(total, anyFilled), total, results);
    }

    /** The closing loop: re-qualify each holding and offset it at market. */
    method CloseHoldings(hs: seq<OptionHolding>) returns (results: seq<OptionEntry>, total: int, anyFilled: bool)
      requires ib.FillsArrive()
      modifies ib`orders
      ensures Run(results, ib.orders) == Closing(OptionResults(ib), Tickets(ib.qualify), hs, old(ib.orders))
      ensures total == SumOf(results, ClosedFill)
      ensures anyFilled == AnyOf(results, EntryClosed)
    {
      ghost var close := OptionResults(ib);
      ghost var place := Tickets(ib.qualify);
      results, total, anyFilled := [], 0, false;
      var i := 0;
      while i < |hs|
        invariant 0 <= i <= |hs|
        invariant Closing(close, place, hs[..i], old(ib.orders)) == Run(results, ib.orders)
        invariant total == SumOf(results, ClosedFill)
        invariant anyFilled == AnyOf(results, EntryClosed)
      {
        ClosingSnoc(close, place, hs, i, old(ib.orders));
        var es := CloseHolding(hs[i], close, place);
        results, total, anyFilled := Tally(results, total, anyFilled, es, ClosedFill, EntryClosed);
        i := i + 1;
      }
      assert hs[..i] == hs;
    }

    /** One pass of the closing loop: the entries its holding adds, at most one. */
    method CloseHolding(h: OptionHolding, ghost close: (OptionHolding, nat) -> seq<OptionEntry>,
                        ghost place: OptionHolding -> seq<OrderRecord>) returns (es: seq<OptionEntry>)
      requires ib.FillsArrive()
      requires close(h, |ib.orders|) == OptionEntriesAt(ib, h, |ib.orders|)
      requires place(h) == OptionTickets(ib.qualify, h)
      modifies ib`orders
      ensures es == close(h, |old(ib.orders)|)
      ensures ib.orders == old(ib.orders) + place(h)
      ensures |es| <= 1
    {
      var c := ContractOf(h);
      var failed := OptionEntry("CLOSE", h.symbol, h.strike, h.right, AbsInt(h.quantity), NotClosed(""));
      match ib.qualify(c) {
        case QualifyRaised(e) =>
          return [failed.(outcome := NotClosed(e))];
        case Qualified(cs) =>
          if cs == [] || h.quantity == 0 {
            return [];
          }
          var p := ib.PlaceOrder(cs[0], MarketOrder(Side(h.quantity), AbsInt(h.quantity) as real));
          match p {
            case PlaceRaised(e) =>
              es := [failed.(outcome := NotClosed(e))];
            case Placed(t) =>
              var outcome := AwaitClose(t);
              var action := if h.quantity > 0 then "SELL" else "BUY_TO_CLOSE";
              es := [OptionEntry(action, h.symbol, h.strike, h.right, AbsInt(h.quantity), outcome)];
          }
      }
    }

    /** `get_option_market_data`: the normalised quote of the qualified option, with the subscription cancelled again. */
    method GetOptionMarketData() returns (md: Option<OptionQuote>)
      modifies ib`subscriptions
      ensures md == (if IsConnected() && optionContract.Some? then QuoteFor(ib.quote, optionContract.value) else None)
      ensures ib.subscriptions == old(ib.subscriptions)
    {
      if !IsConnected() || optionContract.None? {
        return None;
      }
      var c := optionContract.value;
      var t := ib.ReqMktData(c);
      if t.None? {
        return None;
      }
      var s := Normalise(t.value);
      ib.CancelMktData(c);
      md := Some(QuoteOf(c, s));
      assert md == QuoteFor(ib.quote, c);
    }
  }
}
