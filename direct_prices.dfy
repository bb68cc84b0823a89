/**
 * The direct price getter: over its own session it requests a market-data snapshot for an
 * ES futures month, keeps the six positive quote fields, adds the spread in dollars and in
 * quarter-point ticks when both sides are quoted, and cancels the request.
 */
module DirectPrices {
  import opened Wrappers
  import opened Broker
  import opened Market

  const EsSymbol: string := "ES"

  /** The contract the getter quotes: the ES future of `month` on CME in USD. */
  function EsFuture(month: string): (c: Contract)
    ensures c.secType == "FUT" && c.symbol == "ES" && c.month == month && c.exchange == "CME" && c.currency == "USD"
  {
    FutureContract(EsSymbol, month, "CME", "USD")
  }

  /** The session `connect` opens when no argument is given. */
  const DefaultHost: string := "127.0.0.1"
  const DefaultPort: int := 7497
  const DefaultClientId: int := 1

  /** The month `get_es_prices` quotes when none is given. */
  const DefaultMonth: string := "20251219"

  /** The months `get_multiple_contracts` quotes when none are given. */
  const DefaultMonths: seq<string> := ["20241219", "20250321", "20250620", "20250919", "20251219"]

  /** The price dictionary of one month; the timestamp is left out. */
  datatype Prices = Prices(
    symbol: string,
    month: string,
    bid: Option<real>,
    ask: Option<real>,
    last: Option<real>,
    high: Option<real>,
    low: Option<real>,
    volume: Option<real>,
    spread: Option<real>,
    spreadPoints: Option<real>)

  /** ES moves in quarter points, so a spread in points is four times its price difference. */
  function Points(spread: Option<real>): Option<real>
  {
    if spread.Some? then Some(spread.value * 4.0) else None
  }

  /**
   * The dictionary built from a ticker: each of the six fields is kept only when positive,
   * and the spread and its points exist only when both bid and ask are kept.
   */
  function PricesOf(month: string, t: Ticker): (p: Prices)
    ensures p.symbol == EsSymbol && p.month == month
    ensures p.bid == Positive(t.bid) && p.ask == Positive(t.ask) && p.last == Positive(t.last)
    ensures p.high == Positive(t.high) && p.low == Positive(t.low) && p.volume == Positive(t.volume)
    ensures p.spread.Some? <==> t.bid > 0.0 && t.ask > 0.0
    ensures p.spread.Some? ==> p.spread.value == t.ask - t.bid && p.spreadPoints == Some(4.0 * (t.ask - t.bid))
    ensures p.spread.None? ==> p.spreadPoints.None?
  {
    var bid := Positive(t.bid);
    var ask := Positive(t.ask);
    var spread := Spread(bid, ask);
    Prices(EsSymbol, month, bid, ask, Positive(t.last), Positive(t.high), Positive(t.low),
           Positive(t.volume), spread, Points(spread))
  }

  /** What `get_es_prices` returns while connected: None when the market-data request raises. */
  function PricesAt(quote: Contract -> Option<Ticker>, month: string): Option<Prices>
  {
    match quote(EsFuture(month))
    case Some(t) => Some(PricesOf(month, t))
    case None => None
  }

  /** The prices of the quoted months, in the order the months were given. */
  function Series(quote: Contract -> Option<Ticker>, months: seq<string>): (r: seq<Prices>)
    ensures |r| <= |months|
  {
    if months == [] then []
    else
      var init := Series(quote, months[..|months| - 1]);
      match PricesAt(quote, months[|months| - 1])
      case Some(p) => init + [p]
      case None => init
  }

  lemma SeriesSnoc(quote: Contract -> Option<Ticker>, months: seq<string>, m: string)
    ensures Series(quote, months + [m])
         == Series(quote, months) + (if PricesAt(quote, m).Some? then [PricesAt(quote, m).value] else [])
  {
    assert (months + [m])[..|months|] == months;
  }

  /** The prices of two runs of months are those of the first run followed by those of the second. */
  lemma {:induction false} SeriesAppend(quote: Contract -> Option<Ticker>, a: seq<string>, b: seq<string>)
    ensures Series(quote, a + b) == Series(quote, a) + Series(quote, b)
    decreases |b|
  {
    if b == [] {
      assert a + b == a;
    } else {
      var b0, m := b[..|b| - 1], b[|b| - 1];
      assert b == b0 + [m];
      assert a + b == (a + b0) + [m];
      SeriesAppend(quote, a, b0);
      SeriesSnoc(quote, a + b0, m);
      SeriesSnoc(quote, b0, m);
    }
  }

  /** Every listed price belongs to one of the given months, and comes from its ticker. */
  lemma {:induction false} SeriesFromMonths(quote: Contract -> Option<Ticker>, months: seq<string>)
    ensures forall p :: p in Series(quote, months) ==> p.month in months && PricesAt(quote, p.month) == Some(p)
  {
    if months != [] {
      var init := months[..|months| - 1];
      SeriesFromMonths(quote, init);
      forall p | p in Series(quote, months)
        ensures p.month in months && PricesAt(quote, p.month) == Some(p)
      {
        if p in Series(quote, init) {
          assert p.month in init;
        }
      }
    }
  }

  /** When every month is quoted, the list holds one entry per month, in month order. */
  lemma {:induction false} SeriesAllQuoted(quote: Contract -> Option<Ticker>, months: seq<string>)
    requires forall j | 0 <= j < |months| :: quote(EsFuture(months[j])).Some?
    ensures var r := Series(quote, months);
      |r| == |months| && forall k | 0 <= k < |months| :: r[k].month == months[k]
  {
    if months != [] {
      var init := months[..|months| - 1];
      assert forall j | 0 <= j < |init| :: init[j] == months[j];
      SeriesAllQuoted(quote, init);
      var r := Series(quote, months);
      assert r == Series(quote, init) + [PricesAt(quote, months[|months| - 1]).value];
    }
  }

  /** `BidAskPriceGetter`. */
  class PriceGetter {
    var connected: bool
    const ib: Gateway

    constructor (ib: Gateway)
      ensures this.ib == ib && !connected
    {
      this.ib := ib;
      connected := false;
    }

    /** `connect`: opens the session; on failure the error is re-raised and nothing changes. */
    method Connect(host: string, port: int, clientId: int) returns (err: Option<string>)
      modifies this`connected, ib`connected, ib`session
      ensures err == ib.connectError(Session(host, port, clientId))
      ensures err.None? ==> connected && ib.connected && ib.session == Some(Session(host, port, clientId))
      ensures err.Some? ==> connected == old(connected) && ib.connected == old(ib.connected)
                            && ib.session == old(ib.session)
    {
      err := ib.ConnectAsync(host, port, clientId);
      if err.None? {
        connected := true;
      }
    }

    /** `connect()` with its default arguments: the local gateway on port 7497 as client 1. */
    method ConnectDefault() returns (err: Option<string>)
      modifies this`connected, ib`connected, ib`session
      ensures err == ib.connectError(Session(DefaultHost, DefaultPort, DefaultClientId))
      ensures err.None? ==> connected && ib.connected && ib.session == Some(Session(DefaultHost, DefaultPort, DefaultClientId))
      ensures err.Some? ==> connected == old(connected) && ib.connected == old(ib.connected)
                            && ib.session == old(ib.session)
    {
      err := Connect(DefaultHost, DefaultPort, DefaultClientId);
    }

    method Disconnect()
      modifies this`connected, ib`connected, ib`session
      ensures !connected
      ensures old(connected) ==> !ib.connected && ib.session.None?
      ensures !old(connected) ==> ib.connected == old(ib.connected) && ib.session == old(ib.session)
    {
      if connected {
        ib.Disconnect();
        connected := false;
      }
    }

    /**
     * `get_es_prices`: the month's price dictionary while connected, None otherwise or when
     * the request raises; a request that answered is cancelled before returning.
     */
    method GetEsPrices(month: string) returns (p: Option<Prices>)
      modifies ib`subscriptions
      ensures p == (if connected then PricesAt(ib.quote, month) else None)
      ensures ib.subscriptions == old(ib.subscriptions)
    {
      if !connected {
        return None;
      }
      var c := EsFuture(month);
      var t := ib.ReqMktData(c);
      if t.None? {
        return None;
      }
      var ticker := t.value;
      var bid := Positive(ticker.bid);
      var ask := Positive(ticker.ask);
      var prices := Prices(c.symbol, c.month, bid, ask, Positive(ticker.last), Positive(ticker.high),
                           Positive(ticker.low), Positive(ticker.volume), None, None);
      if Truthy(prices.ask) && Truthy(prices.bid) {
        var spread := prices.ask.value - prices.bid.value;
        prices := prices.(spread := Some(spread), spreadPoints := Some(spread * 4.0));
      }
      ib.CancelMktData(c);
      return Some(prices);
    }

    /** `get_es_prices()` with its default argument: the December 2025 contract. */
    method GetDefaultEsPrices() returns (p: Option<Prices>)
      modifies ib`subscriptions
      ensures p == (if connected then PricesAt(ib.quote, DefaultMonth) else None)
      ensures ib.subscriptions == old(ib.subscriptions)
    {
      p := GetEsPrices(DefaultMonth);
    }

    /**
     * `get_multiple_contracts`: the price dictionaries of the quoted months in month order,
     * months whose request raised left out; nothing when not connected.
     */
    method GetMultipleContracts(months: seq<string>) returns (all: seq<Prices>)
      modifies ib`subscriptions
      ensures all == (if connected then Series(ib.quote, months) else [])
      ensures ib.subscriptions == old(ib.subscriptions)
    {
      if !connected {
        return [];
      }
      all := [];
      var i := 0;
      while i < |months|
        invariant 0 <= i <= |months|
        invariant all == Series(ib.quote, months[..i])
        invariant ib.subscriptions == old(ib.subscriptions)
      {
        assert months[..i + 1] == months[..i] + [months[i]];
        SeriesSnoc(ib.quote, months[..i], months[i]);
        var prices := GetEsPrices(months[i]);
        if prices.Some? {
          all := all + [prices.value];
        }
        i := i + 1;
      }
      assert months[..i] == months;
    }

    /**
     * `get_multiple_contracts()` with its default argument: the five quarterly months from
     * December 2024 to December 2025, in that order.
     */
    method GetDefaultContracts() returns (all: seq<Prices>)
      modifies ib`subscriptions
      ensures all == (if connected then Series(ib.quote, DefaultMonths) else [])
      ensures |all| <= 5
      ensures ib.subscriptions == old(ib.subscriptions)
    {
      all := GetMultipleContracts(DefaultMonths);
    }
  }
}
