/**
 * The decision logic of the alert server's handlers. Each handler first answers HTTP 500
 * when the bot was never created or is not connected; the sell alerts then net every ES
 * position, the buy alerts buy 3 contracts, and the bid/ask endpoint reads one snapshot of
 * the primary contract. `bot` is the module-level `trading_bot` (null before start-up).
 */
module AlertServer {
  import opened Wrappers
  import opened Text
  import opened Broker
  import opened Models
  import opened Market
  import opened Netting
  import opened FuturesBot
  import opened Polling

  const NotInitialised: string := "Trading bot not initialized"
  const NoContract: string := "No contract available"
  const NoMarketData: string := "Could not get market data"

  /** Every buy alert trades this many contracts. */
  const AlertQuantity: int := 3

  const MarketLabels: Labels := Labels("SELL_AT_MARKET", "BUY_TO_CLOSE_AT_MARKET")
  const LimitLabels: Labels := Labels("SELL_LIMIT", "BUY_TO_CLOSE_LIMIT")
  const MarketSuffix: string := " contracts at market prices"
  const LimitPrefix: string := "Sell limit alert processed successfully - closed "

  /** The only content type whose body is read for a price. */
  const JsonType: string := "application/json"

  /** What a handler answers; the timestamps and the fixed "processed" texts of the HTTP layer are left out. */
  datatype Reply =
    | Rejected(detail: string)
    | Skipped
    | SellProcessed(result: CloseSummary<NettedEntry>)
    | SellLimitProcessed(summary: CloseSummary<NettedEntry>)
    | BuyProcessed(trade: TradeResult)
    | BidAsk(symbol: string, month: string, bid: Option<real>, ask: Option<real>, last: Option<real>,
             spread: Option<real>)

  /** `body.get("price")`, with the body read only for the exact content type `application/json`. */
  function BodyPrice(contentType: Option<string>, price: Option<real>): (r: Option<real>)
    ensures r.Some? <==> contentType == Some(JsonType) && price.Some?
    ensures r.Some? ==> r == price
  {
    if contentType == Some(JsonType) then price else None
  }

  /** A JSON body sent with a charset parameter is not read, so its price is ignored. */
  lemma CharsetIgnoresPrice(price: real)
    ensures BodyPrice(Some("application/json; charset=utf-8"), Some(price)) == None
    ensures BodyPrice(Some(JsonType), Some(price)) == Some(price)
  {
    assert "application/json; charset=utf-8" != JsonType by {
      assert |"application/json; charset=utf-8"| != |JsonType|;
    }
  }

  /** The sell alert's summary: the netting entries and their filled total. */
  function MarketSummary(entries: seq<NettedEntry>): CloseSummary<NettedEntry>
  {
    Summary(entries, ClosedPrefix, MarketSuffix)
  }

  function LimitSummary(entries: seq<NettedEntry>): CloseSummary<NettedEntry>
  {
    Summary(entries, LimitPrefix, ContractsSuffix)
  }

  /**
   * The entries of an alert's netting loop over the ES positions. Entry i offsets the i-th
   * ES position that is not flat: it is labelled by the closing side, of that position's
   * truncated size, and while the price is known it carries the result of the i-th order
   * placed during the loop. Once every one of those orders fills, the ES book is flat.
   */
  lemma AlertEntriesSpec(ib: Gateway, show: real -> string, c: Contract, kind: Kind, labels: Labels, ps: seq<Position>, base: nat)
    requires ib.FillsArrive()
    ensures var es := NetEntries(OrderResults(ib, show, c, kind), TicketsOn(ib.quote, c, kind), labels, Quantities(ps), base);
      var os := NetOrders(Quantities(ps));
      && os == OffsetOrders(Reals(Quantities(ps)))
      && Sum(Reals(Quantities(ps))) + SignedSum(os) == 0.0
      && |es| == |os|
      && (forall i | 0 <= i < |os| ::
            es[i].action == Label(labels, os[i].action) && es[i].quantity as real == os[i].quantity
            && es[i].quantity > 0)
      && ((kind.AtMarket? || kind.price.Some?) ==>
            forall i | 0 <= i < |os| ::
              es[i].result == SettledResult(ib.respond(base + i), OrderWording(kind, os[i].action), show))
  {
    NetEntriesSpec(OrderResults(ib, show, c, kind), TicketsOn(ib.quote, c, kind), labels, Quantities(ps), base);
    NetOrdersSpec(Quantities(ps));
    OffsetOrdersFlatten(Reals(Quantities(ps)));
    if kind.AtMarket? || kind.price.Some? {
      PricedRunResults(ib, show, c, kind, labels, Quantities(ps), base);
    }
  }

  /**
   * `sell_alert`: HTTP 500 while the bot is missing or not connected; 'skipped' with no
   * order when there is no ES position; else every position is netted at market and the
   * summary reports the total.
   */
  method SellAlert(bot: TradingBot?) returns (reply: Reply)
    requires bot != null ==> bot.ib.FillsArrive() && bot.Valid()
    modifies if bot == null then {} else {bot, bot.ib}
    ensures bot == null ==> reply == Rejected(NotInitialised)
    ensures bot != null ==>
      && bot.connected == old(bot.connected) && bot.ib.connected == old(bot.ib.connected)
      && bot.ib.portfolio == old(bot.ib.portfolio) && bot.ib.positions == old(bot.ib.positions)
      && bot.ib.subscriptions == old(bot.ib.subscriptions) && bot.Valid()
    ensures bot != null && !old(bot.IsConnected()) ==>
      reply == Rejected(FuturesBot.NotConnected) && bot.ib.orders == old(bot.ib.orders)
      && bot.contracts == old(bot.contracts)
    ensures bot != null && old(bot.IsConnected()) ==>
      var ps := EsPositions(bot.ib.portfolio, bot.ib.positions);
      var c := Primed(old(bot.contracts)[0]);
      var es := NetEntries(OrderResults(bot.ib, bot.show, c, AtMarket), TicketsOn(bot.ib.quote, c, AtMarket), MarketLabels,
                           Quantities(ps), |old(bot.ib.orders)|);
      && bot.ib.orders == old(bot.ib.orders) + NetPlacements(TicketsOn(bot.ib.quote, c, AtMarket), Quantities(ps))
      && bot.contracts == (if NetOrders(Quantities(ps)) != [] then old(bot.contracts)[0 := c] else old(bot.contracts))
      && reply == (if ps == [] then Skipped else SellProcessed(MarketSummary(es)))
      && (ps == [] ==> bot.ib.orders == old(bot.ib.orders))
  {
    if bot == null {
      return Rejected(NotInitialised);
    }
    if !bot.IsConnected() {
      return Rejected(FuturesBot.NotConnected);
    }
    var ps, results, total := bot.CloseRun(AtMarket, MarketLabels);
    if ps == [] {
      return Skipped;
    }
    reply := SellProcessed(CloseSummary(ClosedPrefix + IntToString(total) + MarketSuffix, total, results));
  }

  /**
   * `sell_limit_alert`: like the sell alert, but every position is closed by a limit order
   * at the one price taken from the body, or at the quoted side when there is none.
   */
  method SellLimitAlert(bot: TradingBot?, contentType: Option<string>, bodyPrice: Option<real>) returns (reply: Reply)
    requires bot != null ==> bot.ib.FillsArrive() && bot.Valid()
    modifies if bot == null then {} else {bot, bot.ib}
    ensures bot == null ==> reply == Rejected(NotInitialised)
    ensures bot != null ==>
      && bot.connected == old(bot.connected) && bot.ib.connected == old(bot.ib.connected)
      && bot.ib.portfolio == old(bot.ib.portfolio) && bot.ib.positions == old(bot.ib.positions)
      && bot.ib.subscriptions == old(bot.ib.subscriptions) && bot.Valid()
    ensures bot != null && !old(bot.IsConnected()) ==>
      reply == Rejected(FuturesBot.NotConnected) && bot.ib.orders == old(bot.ib.orders)
      && bot.contracts == old(bot.contracts)
    ensures bot != null && old(bot.IsConnected()) ==>
      var kind := AtLimit(BodyPrice(contentType, bodyPrice), false);
      var ps := EsPositions(bot.ib.portfolio, bot.ib.positions);
      var c := Primed(old(bot.contracts)[0]);
      var es := NetEntries(OrderResults(bot.ib, bot.show, c, kind), TicketsOn(bot.ib.quote, c, kind), LimitLabels,
                           Quantities(ps), |old(bot.ib.orders)|);
      && bot.ib.orders == old(bot.ib.orders) + NetPlacements(TicketsOn(bot.ib.quote, c, kind), Quantities(ps))
      && bot.contracts == (if NetOrders(Quantities(ps)) != [] then old(bot.contracts)[0 := c] else old(bot.contracts))
      && reply == (if ps == [] then Skipped else SellLimitProcessed(LimitSummary(es)))
      && (ps == [] ==> bot.ib.orders == old(bot.ib.orders))
  {
    if bot == null {
      return Rejected(NotInitialised);
    }
    if !bot.IsConnected() {
      return Rejected(FuturesBot.NotConnected);
    }
    var price := BodyPrice(contentType, bodyPrice);
    var ps, results, total := bot.CloseRun(AtLimit(price, false), LimitLabels);
    if ps == [] {
      return Skipped;
    }
    reply := SellLimitProcessed(CloseSummary(LimitPrefix + IntToString(total) + ContractsSuffix, total, results));
  }

  /** `buy_alert`: HTTP 500 while the bot is missing or not connected, else a market buy of 3 contracts. */
  method BuyAlert(bot: TradingBot?) returns (reply: Reply)
    requires bot != null ==> bot.ib.FillsArrive()
    modifies if bot == null then {} else {bot, bot.ib}
    ensures bot == null ==> reply == Rejected(NotInitialised)
    ensures bot != null ==>
      && bot.connected == old(bot.connected) && bot.ib.connected == old(bot.ib.connected)
      && bot.ib.subscriptions == old(bot.ib.subscriptions)
    ensures bot != null && !old(bot.IsConnected()) ==>
      reply == Rejected(FuturesBot.NotConnected) && bot.ib.orders == old(bot.ib.orders)
      && bot.contracts == old(bot.contracts)
    ensures bot != null && old(bot.IsConnected()) ==>
      reply.BuyProcessed?
      && Step(reply.trade, Book(bot.contracts, bot.ib.orders))
         == OrderStep(bot.ib, bot.show, true, Book(old(bot.contracts), old(bot.ib.orders)), AtMarket, Buy, AlertQuantity)
  {
    if bot == null {
      return Rejected(NotInitialised);
    }
    if !bot.IsConnected() {
      return Rejected(FuturesBot.NotConnected);
    }
    var r := bot.BuyContracts(AlertQuantity);
    reply := BuyProcessed(r);
  }

  /**
   * `buy_limit_alert`: HTTP 500 while the bot is missing or not connected, else a limit buy
   * of 3 at the body's price, or at the ask without one.
   */
  method BuyLimitAlert(bot: TradingBot?, contentType: Option<string>, bodyPrice: Option<real>) returns (reply: Reply)
    requires bot != null ==> bot.ib.FillsArrive()
    modifies if bot == null then {} else {bot, bot.ib}
    ensures bot == null ==> reply == Rejected(NotInitialised)
    ensures bot != null ==>
      && bot.connected == old(bot.connected) && bot.ib.connected == old(bot.ib.connected)
      && bot.ib.subscriptions == old(bot.ib.subscriptions)
    ensures bot != null && !old(bot.IsConnected()) ==>
      reply == Rejected(FuturesBot.NotConnected) && bot.ib.orders == old(bot.ib.orders)
      && bot.contracts == old(bot.contracts)
    ensures bot != null && old(bot.IsConnected()) ==>
      reply.BuyProcessed?
      && Step(reply.trade, Book(bot.contracts, bot.ib.orders))
         == OrderStep(bot.ib, bot.show, true, Book(old(bot.contracts), old(bot.ib.orders)),
                      AtLimit(BodyPrice(contentType, bodyPrice), false), Buy, AlertQuantity)
  {
    if bot == null {
      return Rejected(NotInitialised);
    }
    if !bot.IsConnected() {
      return Rejected(FuturesBot.NotConnected);
    }
    var price := BodyPrice(contentType, bodyPrice);
    var r := bot.BuyContractsLimit(AlertQuantity, price, false);
    reply := BuyProcessed(r);
  }

  /** The bid/ask reply for contract c and its snapshot: a spread only when both sides are truthy. */
  function BidAskOf(c: Contract, md: Snapshot): (r: Reply)
    ensures r.BidAsk? && r.symbol == c.symbol && r.month == c.month
    ensures r.bid == md.bid && r.ask == md.ask && r.last == md.last
    ensures r.spread.Some? <==> Truthy(md.bid) && Truthy(md.ask)
    ensures r.spread.Some? ==> r.spread.value == md.ask.value - md.bid.value
  {
    BidAsk(c.symbol, c.month, md.bid, md.ask, md.last, Spread(md.bid, md.ask))
  }

  /**
   * `get_bid_ask`: HTTP 500 while the bot is missing or not connected, else one snapshot of
   * the primary contract; no contract or no snapshot is an HTTP 500 too.
   */
  method GetBidAsk(bot: TradingBot?) returns (reply: Reply)
    modifies if bot == null then {} else {bot.ib}
    ensures bot == null ==> reply == Rejected(NotInitialised)
    ensures bot != null ==> bot.ib.orders == old(bot.ib.orders) && bot.ib.subscriptions == old(bot.ib.subscriptions)
    ensures bot != null && !bot.IsConnected() ==> reply == Rejected(FuturesBot.NotConnected)
    ensures bot != null && bot.IsConnected() ==>
      reply == (if bot.contracts == [] then Rejected(NoContract)
                else match Quote(bot.ib.quote, bot.contracts[0])
                     case None => Rejected(NoMarketData)
                     case Some(md) => BidAskOf(bot.contracts[0], md))
  {
    if bot == null {
      return Rejected(NotInitialised);
    }
    if !bot.IsConnected() {
      return Rejected(FuturesBot.NotConnected);
    }
    var contract := bot.PrimaryContract();
    if contract.None? {
      return Rejected(NoContract);
    }
    var md := bot.GetMarketData(contract.value);
    if md.None? {
      return Rejected(NoMarketData);
    }
    reply := BidAskOf(contract.value, md.value);
  }
}
