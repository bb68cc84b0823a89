/**
 * Market-data snapshots as the traders read them from a ticker: every price field that is
 * not strictly positive becomes None, a spread exists only when both sides are present, and
 * a limit order without an explicit price takes one side of the book.
 */
module Market {
  import opened Wrappers
  import opened Broker

  /** `x if x > 0 else None`. */
  function Positive(x: real): (r: Option<real>)
    ensures r.Some? <==> x > 0.0
    ensures r.Some? ==> r.value == x
  {
    if x > 0.0 then Some(x) else None
  }

  /** Python truthiness of an optional price: None and 0 are false. */
  predicate Truthy(x: Option<real>)
  {
    x.Some? && x.value != 0.0
  }

  /** The `{'bid', 'ask', 'last'}` dictionary a market-data call returns. */
  datatype Snapshot = Snapshot(bid: Option<real>, ask: Option<real>, last: Option<real>)

  function Normalise(t: Ticker): (s: Snapshot)
    ensures s.bid.Some? <==> t.bid > 0.0
    ensures s.ask.Some? <==> t.ask > 0.0
    ensures s.last.Some? <==> t.last > 0.0
    ensures s.bid.Some? ==> s.bid.value == t.bid
    ensures s.ask.Some? ==> s.ask.value == t.ask
    ensures s.last.Some? ==> s.last.value == t.last
  {
    Snapshot(Positive(t.bid), Positive(t.ask), Positive(t.last))
  }

  /** The snapshot one market-data request returns: None when the request raises. */
  function Quote(quote: Contract -> Option<Ticker>, c: Contract): (r: Option<Snapshot>)
    ensures r.Some? <==> quote(c).Some?
    ensures r.Some? ==> r.value == Normalise(quote(c).value)
  {
    match quote(c)
    case Some(t) => Some(Normalise(t))
    case None => None
  }

  /** `ask - bid if (ask and bid) else None`. */
  function Spread(bid: Option<real>, ask: Option<real>): (r: Option<real>)
    ensures r.Some? <==> Truthy(bid) && Truthy(ask)
    ensures r.Some? ==> r.value == ask.value - bid.value
  {
    if Truthy(ask) && Truthy(bid) then Some(ask.value - bid.value) else None
  }

  /** On a normalised ticker the spread exists exactly when both quoted sides are positive. */
  lemma NormalisedSpread(t: Ticker)
    ensures Spread(Normalise(t).bid, Normalise(t).ask).Some? <==> t.bid > 0.0 && t.ask > 0.0
    ensures t.bid > 0.0 && t.ask > 0.0 ==> Spread(Normalise(t).bid, Normalise(t).ask) == Some(t.ask - t.bid)
  {
    var s := Normalise(t);
    assert Truthy(s.bid) <==> t.bid > 0.0;
    assert Truthy(s.ask) <==> t.ask > 0.0;
  }

  /** The side a limit order without a price takes: ask for a buy and bid for a sell, or the other side when flipped. */
  function QuotedSide(s: Snapshot, action: Action, flip: bool): Option<real>
  {
    if (action == Buy) != flip then s.ask else s.bid
  }

  /**
   * The price of a limit order: an explicit price wins; otherwise the snapshot must exist
   * and its chosen side must be truthy. The errors are the texts the order methods raise.
   */
  function LimitPrice(action: Action, price: Option<real>, md: Option<Snapshot>, flip: bool): (r: Result<real>)
    ensures price.Some? ==> r == Ok(price.value)
    ensures price.None? && md.None? ==> r == Err("Could not get market data")
    ensures price.None? && md.Some? ==> (r.Ok? <==> Truthy(QuotedSide(md.value, action, flip)))
    ensures price.None? && md.Some? && r.Ok? ==> r.value == QuotedSide(md.value, action, flip).value
    ensures price.None? && md.Some? && r.Err? ==> r.error == "Could not get market price"
  {
    if price.Some? then Ok(price.value)
    else if md.None? then Err("Could not get market data")
    else
      var side := QuotedSide(md.value, action, flip);
      if Truthy(side) then Ok(side.value) else Err("Could not get market price")
  }

  function Opposite(a: Action): Action
  {
    if a == Buy then Sell else Buy
  }

  /** A sell with `use_ask` prices like a buy without `use_bid`, and the other way round. */
  lemma LimitPriceMirror(action: Action, price: Option<real>, md: Option<Snapshot>, flip: bool)
    ensures LimitPrice(action, price, md, flip) == LimitPrice(Opposite(action), price, md, !flip)
  {
  }

  /** A price taken from a normalised snapshot is always strictly positive and is one of the ticker's sides. */
  lemma {:induction false} QuotedPricePositive(action: Action, t: Ticker, flip: bool)
    ensures LimitPrice(action, None, Some(Normalise(t)), flip).Ok? ==>
      var p := LimitPrice(action, None, Some(Normalise(t)), flip).value;
      p > 0.0 && (p == t.bid || p == t.ask)
    ensures LimitPrice(action, None, Some(Normalise(t)), flip).Ok? <==>
      (if (action == Buy) != flip then t.ask > 0.0 else t.bid > 0.0)
  {
    var s := Normalise(t);
    assert Truthy(s.bid) <==> t.bid > 0.0;
    assert Truthy(s.ask) <==> t.ask > 0.0;
  }

  /** A one-sided book: with no bid, a buy still prices at the ask, a sell fails and there is no spread. */
  lemma OneSidedBook()
    ensures LimitPrice(Buy, None, Some(Normalise(Ticker(0.0, 4500.25, 4500.0, 0.0, 0.0, 0.0))), false) == Ok(4500.25)
    ensures LimitPrice(Sell, None, Some(Normalise(Ticker(0.0, 4500.25, 4500.0, 0.0, 0.0, 0.0))), false)
         == Err("Could not get market price")
    ensures Spread(Normalise(Ticker(0.0, 4500.25, 4500.0, 0.0, 0.0, 0.0)).bid,
                   Normalise(Ticker(0.0, 4500.25, 4500.0, 0.0, 0.0, 0.0)).ask).None?
  {
  }
}
