/**
 * The stand-alone bid/ask function: one session per call, one market-data request for an
 * ES futures month, the positive bid, ask and last kept and the spread when both sides
 * exist; any error gives None, and the session is closed on every path.
 */
module BidAskFunctions {
  import opened Wrappers
  import opened Broker
  import opened Market
  import DirectPrices

  const DefaultMonth: string := "20251219"
  const DefaultHost: string := "127.0.0.1"
  const DefaultPort: int := 7497
  const DefaultClientId: int := 1

  /** The `{'bid', 'ask', 'last', 'spread'}` dictionary; the timestamp is left out. */
  datatype EsQuote = EsQuote(bid: Option<real>, ask: Option<real>, last: Option<real>, spread: Option<real>)

  /** The dictionary read from a ticker. */
  function EsQuoteOf(t: Ticker): EsQuote
  {
    var bid := Positive(t.bid);
    var ask := Positive(t.ask);
    EsQuote(bid, ask, Positive(t.last), Spread(bid, ask))
  }

  /**
   * Each field of the dictionary is the ticker's field when positive and None otherwise, and
   * the spread is `ask - bid` exactly when both sides are positive.
   */
  lemma EsQuoteSpec(t: Ticker)
    ensures var q := EsQuoteOf(t);
      && (q.bid.Some? <==> t.bid > 0.0) && (q.bid.Some? ==> q.bid.value == t.bid)
      && (q.ask.Some? <==> t.ask > 0.0) && (q.ask.Some? ==> q.ask.value == t.ask)
      && (q.last.Some? <==> t.last > 0.0) && (q.last.Some? ==> q.last.value == t.last)
      && (q.spread.Some? <==> t.bid > 0.0 && t.ask > 0.0)
      && (q.spread.Some? ==> q.spread.value == t.ask - t.bid)
  {
    NormalisedSpread(t);
  }

  /** The price getter and this function read the same bid, ask, last and spread from one ticker. */
  lemma AgreesWithPriceGetter(month: string, t: Ticker)
    ensures var q := EsQuoteOf(t);
      var p := DirectPrices.PricesOf(month, t);
      q.bid == p.bid && q.ask == p.ask && q.last == p.last && q.spread == p.spread
  {
    EsQuoteSpec(t);
  }

  /** `get_es_bid_ask` for the session's connect answer and the request's ticker. */
  function EsBidAsk(connectError: Option<string>, ticker: Option<Ticker>): Option<EsQuote>
  {
    if connectError.Some? || ticker.None? then None else Some(EsQuoteOf(ticker.value))
  }

  /**
   * `get_es_bid_ask`: the dictionary for `month` when the session opens and the request
   * answers, else None; the request is cancelled and the session closed on every path.
   */
  method GetEsBidAsk(ib: Gateway, month: string, host: string, port: int, clientId: int) returns (r: Option<EsQuote>)
    modifies ib`connected, ib`session, ib`subscriptions
    ensures r == EsBidAsk(ib.connectError(Session(host, port, clientId)), ib.quote(DirectPrices.EsFuture(month)))
    ensures !ib.connected && ib.session.None?
    ensures ib.subscriptions == old(ib.subscriptions)
  {
    r := None;
    var err := ib.ConnectAsync(host, port, clientId);
    if err.None? {
      var c := DirectPrices.EsFuture(month);
      var t := ib.ReqMktData(c);
      if t.Some? {
        var bid := Positive(t.value.bid);
        var ask := Positive(t.value.ask);
        var last := Positive(t.value.last);
        var spread: Option<real> := None;
        if Truthy(ask) && Truthy(bid) {
          spread := Some(ask.value - bid.value);
        }
        ib.CancelMktData(c);
        r := Some(EsQuote(bid, ask, last, spread));
      }
    }
    ib.Disconnect();
  }

  /** `get_current_es_prices`: `get_es_bid_ask` for December 2025 on the default session. */
  method GetCurrentEsPrices(ib: Gateway) returns (r: Option<EsQuote>)
    modifies ib`connected, ib`session, ib`subscriptions
    ensures r == EsBidAsk(ib.connectError(Session(DefaultHost, DefaultPort, DefaultClientId)),
                          ib.quote(DirectPrices.EsFuture(DefaultMonth)))
    ensures !ib.connected && ib.session.None?
    ensures ib.subscriptions == old(ib.subscriptions)
  {
    r := GetEsBidAsk(ib, DefaultMonth, DefaultHost, DefaultPort, DefaultClientId);
  }
}
