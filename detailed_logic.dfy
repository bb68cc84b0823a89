/**
 * The step-by-step trading logic (`DetailedTradingLogic`): orders are limit orders at the
 * quoted side of a fresh snapshot (ask to buy, bid to sell), each wait is bounded by 30 s,
 * and the outcome is a dictionary that is filled, failed with the final status, or 'Timeout'.
 */
module DetailedLogic {
  import opened Wrappers
  import opened Seqs
  import opened Broker
  import opened Market
  import opened Polling
  import opened Netting
  import FuturesBot

  const DetailedHost: string := "127.0.0.1"
  const DetailedPort: int := 7497
  const DetailedClientId: int := 1

  /** The ES DEC 2025 future `setup_contract` stores. */
  const DetailedContract: Contract := FutureContract("ES", "20251219", "CME", "USD")

  const NoMarketData: string := "Could not get market data"

  /** A market-data request for the stored contract: None when there is no contract or the request raises. */
  function DetailedQuote(quote: Contract -> Option<Ticker>, c: Option<Contract>): (r: Option<Snapshot>)
    ensures r.Some? ==> c.Some?
    ensures c.Some? ==> r == Quote(quote, c.value)
  {
    if c.None? then None else Quote(quote, c.value)
  }

  /** The limit order of a step-by-step buy or sell: at the ask to buy and the bid to sell, even when that side is missing. */
  function DetailedTicket(action: Action, quantity: real, md: Snapshot): (t: OrderTicket)
    ensures t == LimitOrder(action, quantity, if action == Buy then md.ask else md.bid)
  {
    LimitOrder(action, quantity, QuotedSide(md, action, false))
  }

  /**
   * The dictionary a step-by-step order returns: not connected or no snapshot fails first
   * with no order id; a placement that raises fails with its error; a placed order gives
   * the outcome of the bounded wait.
   */
  function DetailedOutcome(connected: bool, md: Option<Snapshot>, p: Placement): (r: DetailedResult)
    ensures !connected ==> r == DetailedFailed(FuturesBot.NotConnected, None)
    ensures connected && md.None? ==> r == DetailedFailed(NoMarketData, None)
    ensures connected && md.Some? && p.PlaceRaised? ==> r == DetailedFailed(p.error, None)
    ensures connected && md.Some? && p.Placed? ==> r == BoundedOutcome(p.trade)
  {
    if !connected then DetailedFailed(FuturesBot.NotConnected, None)
    else if md.None? then DetailedFailed(NoMarketData, None)
    else
      match p
      case PlaceRaised(e) => DetailedFailed(e, None)
      case Placed(t) => BoundedOutcome(t)
  }

  /**
   * A step-by-step order succeeds exactly when it is placed and its trade is first seen done
   * within 30 s with status 'Filled', and then carries that fill and the order id; a placed
   * trade not done by then is a 'Timeout'; a failure has an order id exactly when an order
   * went out.
   */
  lemma DetailedOutcomeSpec(connected: bool, md: Option<Snapshot>, p: Placement)
    ensures var r := DetailedOutcome(connected, md, p);
      && (r.DetailedFilled? <==>
            connected && md.Some? && p.Placed? && Settles(p.trade) && SettleTick(p.trade) <= TimeoutTicks
            && p.trade.statusAt(SettleTick(p.trade)).status == "Filled")
      && (r.DetailedFilled? ==>
            r.orderId == p.trade.orderId && r.filledQuantity == p.trade.statusAt(SettleTick(p.trade)).filled
            && r.averagePrice == p.trade.statusAt(SettleTick(p.trade)).avgFillPrice)
      && (r.DetailedFailed? ==> (r.placedId.Some? <==> connected && md.Some? && p.Placed?))
      && (connected && md.Some? && p.Placed? && NotDoneBefore(p.trade, TimeoutTicks + 1) ==>
            r == DetailedFailed("Timeout", Some(p.trade.orderId)))
  {
    if p.Placed? {
      BoundedOutcomeSpec(p.trade);
    }
  }

  /** The orders a step-by-step order places: one limit order on the stored contract once connected with a snapshot. */
  function DetailedPlaced(connected: bool, c: Option<Contract>, md: Option<Snapshot>, action: Action,
                          quantity: real): (r: seq<OrderRecord>)
    ensures |r| <= 1
  {
    if connected && md.Some? && c.Some? then [OrderRecord(c.value, DetailedTicket(action, quantity, md.value))] else []
  }

  /** `get_positions_detailed`: the non-zero ES portfolio items, in order. */
  function EsItems(items: seq<PortfolioItem>): seq<PortfolioItem>
  {
    Collect(items, FuturesBot.IsEsItem, FuturesBot.ItemItself)
  }

  lemma EsItemsSpec(items: seq<PortfolioItem>)
    ensures forall it :: it in EsItems(items) <==> it in items && it.contract.symbol == "ES" && it.position != 0.0
  {
    CollectMembers(items, FuturesBot.IsEsItem, FuturesBot.ItemItself);
  }

  lemma {:induction false} EsItemsNonZero(items: seq<PortfolioItem>)
    ensures forall i | 0 <= i < |EsItems(items)| :: EsItems(items)[i].position != 0.0
  {
    EsItemsSpec(items);
    forall i | 0 <= i < |EsItems(items)|
      ensures EsItems(items)[i].position != 0.0
    {
      assert EsItems(items)[i] in EsItems(items);
    }
  }

  /** One entry of the closing results: the side taken and the order's dictionary. */
  datatype DetailedEntry = DetailedEntry(action: string, result: DetailedResult)

  /** `{'closed': …, 'results': […]}`, with the error of a closing run that stopped. */
  datatype DetailedClose = DetailedClose(closed: int, results: seq<DetailedEntry>, error: Option<string>)

  /** 'SELL' for the sell that closes a long, 'BUY_TO_CLOSE' for the buy that closes a short. */
  function SideLabel(a: Action): string
  {
    if a == Sell then FuturesBot.SellLabel else FuturesBot.BuyBackLabel
  }

  /** The entry a position adds when its order would be the n-th placed: none for a flat position. */
  function DetailedEntriesAt(respond: nat -> Placement, connected: bool, md: Snapshot, pos: PortfolioItem,
                             n: nat): seq<DetailedEntry>
  {
    match Offset(pos.position)
    case None => []
    case Some(o) => [DetailedEntry(SideLabel(o.action), DetailedOutcome(connected, Some(md), respond(n)))]
  }

  function DetailedResults(respond: nat -> Placement, connected: bool, md: Snapshot): (PortfolioItem, nat) -> seq<DetailedEntry>
  {
    (pos: PortfolioItem, n: nat) => DetailedEntriesAt(respond, connected, md, pos, n)
  }

  /** The orders a position's close places: the offsetting side and size, as a limit order at the quoted side. */
  function DetailedTicketsOf(connected: bool, c: Option<Contract>, md: Snapshot, pos: PortfolioItem): seq<OrderRecord>
  {
    match Offset(pos.position)
    case None => []
    case Some(o) => DetailedPlaced(connected, c, Some(md), o.action, o.quantity)
  }

  function DetailedTickets(connected: bool, c: Option<Contract>, md: Snapshot): PortfolioItem -> seq<OrderRecord>
  {
    (pos: PortfolioItem) => DetailedTicketsOf(connected, c, md, pos)
  }

  function DetailedFill(e: DetailedEntry): int
  {
    if e.result.DetailedFilled? then e.result.filledQuantity else 0
  }

  predicate EntryFilled(e: DetailedEntry)
  {
    e.result.DetailedFilled?
  }

  /**
   * A connected closing run over non-zero positions: one entry and one order per position,
   * in order; a long q sells q at the bid and a short q buys |q| back at the ask; each entry
   * carries its own order's outcome.
   */
  lemma DetailedClosingSpec(respond: nat -> Placement, c: Contract, md: Snapshot, ps: seq<PortfolioItem>,
                            orders: seq<OrderRecord>)
    requires forall i | 0 <= i < |ps| :: ps[i].position != 0.0
    ensures var r := Closing(DetailedResults(respond, true, md), DetailedTickets(true, Some(c), md), ps, orders);
      && |r.entries| == |ps|
      && |r.orders| == |orders| + |ps|
      && r.orders[..|orders|] == orders
      && forall i | 0 <= i < |ps| ::
           var q := ps[i].position;
           var side := if q > 0.0 then Sell else Buy;
           && r.orders[|orders| + i] == OrderRecord(c, LimitOrder(side, Abs(q), if q > 0.0 then md.bid else md.ask))
           && r.entries[i] == DetailedEntry(SideLabel(side), DetailedOutcome(true, Some(md), respond(|orders| + i)))
  {
    var close := DetailedResults(respond, true, md);
    var place := DetailedTickets(true, Some(c), md);
    forall i, n: nat | 0 <= i < |ps|
      ensures |close(ps[i], n)| == 1
    {
      assert close(ps[i], n) == DetailedEntriesAt(respond, true, md, ps[i], n);
    }
    forall i | 0 <= i < |ps|
      ensures |place(ps[i])| == 1
    {
      assert place(ps[i]) == DetailedTicketsOf(true, Some(c), md, ps[i]);
    }
    ClosingOneEach(close, place, ps, orders);
    var r := Closing(close, place, ps, orders);
    forall i | 0 <= i < |ps|
      ensures r.entries[i] == DetailedEntriesAt(respond, true, md, ps[i], |orders| + i)[0]
      ensures r.orders[|orders| + i] == DetailedTicketsOf(true, Some(c), md, ps[i])[0]
    {
      assert close(ps[i], |orders| + i) == DetailedEntriesAt(respond, true, md, ps[i], |orders| + i);
      assert place(ps[i]) == DetailedTicketsOf(true, Some(c), md, ps[i]);
    }
  }

  /** The entry a non-zero position gets when the trader is not connected. */
  function DisconnectedEntry(pos: PortfolioItem): DetailedEntry
  {
    DetailedEntry(SideLabel(if pos.position > 0.0 then Sell else Buy), DetailedFailed(FuturesBot.NotConnected, None))
  }

  lemma DisconnectedStep(respond: nat -> Placement, c: Option<Contract>, md: Snapshot, pos: PortfolioItem, n: nat)
    requires pos.position != 0.0
    ensures DetailedResults(respond, false, md)(pos, n) == [DisconnectedEntry(pos)]
    ensures DetailedTickets(false, c, md)(pos) == []
  {
    assert DetailedResults(respond, false, md)(pos, n) == DetailedEntriesAt(respond, false, md, pos, n);
    assert DetailedTickets(false, c, md)(pos) == DetailedTicketsOf(false, c, md, pos);
  }

  /**
   * Without a connection the closing run still walks every position, but places no order
   * and records 'Not connected to IBKR' under its side for each, so it closes nothing.
   */
  lemma DisconnectedClosing(respond: nat -> Placement, c: Option<Contract>, md: Snapshot,
                            ps: seq<PortfolioItem>, orders: seq<OrderRecord>)
    requires forall i | 0 <= i < |ps| :: ps[i].position != 0.0
    ensures var r := Closing(DetailedResults(respond, false, md), DetailedTickets(false, c, md), ps, orders);
      && r.orders == orders
      && |r.entries| == |ps|
      && SumOf(r.entries, DetailedFill) == 0
      && forall i | 0 <= i < |ps| :: r.entries[i] == DisconnectedEntry(ps[i])
  {
    var close := DetailedResults(respond, false, md);
    var place := DetailedTickets(false, c, md);
    forall i, n: nat | 0 <= i < |ps|
      ensures close(ps[i], n) == [DisconnectedEntry(ps[i])]
    {
      DisconnectedStep(respond, c, md, ps[i], n);
    }
    forall i | 0 <= i < |ps|
      ensures place(ps[i]) == []
    {
      DisconnectedStep(respond, c, md, ps[i], 0);
    }
    ClosingPlacesNone(close, place, ps, orders, DisconnectedEntry);
    SumOfZero(Closing(close, place, ps, orders).entries, DetailedFill);
  }

  /** A sell on a book with no bid still goes out, as a limit order without a price. */
  lemma SellWithoutBid(c: Contract, t: Ticker, quantity: real)
    requires t.bid <= 0.0
    ensures DetailedPlaced(true, Some(c), Some(Normalise(t)), Sell, quantity) == [OrderRecord(c, LimitOrder(Sell, quantity, None))]
  {
  }

  class DetailedTrader {
    var connected: bool
    var contract: Option<Contract>
    const ib: Gateway

    constructor (ib: Gateway)
      ensures this.ib == ib && !connected && contract.None?
    {
      this.ib := ib;
      connected := false;
      contract := None;
    }

    /** `connect`: the fixed local session with client id 1; an error is re-raised and leaves the flag as it was. */
    method Connect() returns (err: Option<string>)
      modifies this`connected, ib`connected, ib`session
      ensures err == ib.connectError(Session(DetailedHost, DetailedPort, DetailedClientId))
      ensures err.None? ==> connected && ib.connected && ib.session == Some(Session(DetailedHost, DetailedPort, DetailedClientId))
      ensures err.Some? ==> connected == old(connected) && ib.connected == old(ib.connected) && ib.session == old(ib.session)
    {
      err := ib.ConnectAsync(DetailedHost, DetailedPort, DetailedClientId);
      if err.None? {
        connected := true;
      }
    }

    method Disconnect()
      modifies this`connected, ib`connected, ib`session
      ensures !connected
      ensures old(connected) ==> !ib.connected && ib.session.None?
      ensures !old(connected) ==> ib.connected == old(ib.connected) && ib.session == old(ib.session)
    {
      if connected {
        ib.Disconnect();
        connected := false;
      }
    }

    method SetupContract()
      modifies this`contract
      ensures contract == Some(DetailedContract)
    {
      contract := Some(DetailedContract);
    }

    /** `get_market_data`: the normalised snapshot of the stored contract, with the subscription cancelled again. */
    method GetMarketData() returns (md: Option<Snapshot>)
      modifies ib`subscriptions
      ensures md == DetailedQuote(ib.quote, contract)
      ensures ib.subscriptions == old(ib.subscriptions)
    {
      if contract.None? {
        return None;
      }
      var c := contract.value;
      var t := ib.ReqMktData(c);
      if t.None? {
        return None;
      }
      var s := Normalise(t.value);
      ib.CancelMktData(c);
      md := Some(s);
    }

    /** `buy_contracts_detailed` (action Buy) and `sell_contracts_detailed` (action Sell). */
    method TradeDetailed(action: Action, quantity: real) returns (r: DetailedResult)
      modifies ib`orders, ib`subscriptions
      ensures var md := DetailedQuote(ib.quote, contract);
        && r == DetailedOutcome(connected, md, ib.respond(|old(ib.orders)|))
        && ib.orders == old(ib.orders) + DetailedPlaced(connected, contract, md, action, quantity)
      ensures ib.subscriptions == old(ib.subscriptions)
    {
      if !connected {
        return DetailedFailed(FuturesBot.NotConnected, None);
      }
      var md := GetMarketData();
      if md.None? {
        return DetailedFailed(NoMarketData, None);
      }
      var order := DetailedTicket(action, quantity, md.value);
      var p := ib.PlaceOrder(contract.value, order);
      match p {
        case PlaceRaised(e) =>
          r := DetailedFailed(e, None);
        case Placed(t) =>
          var tick := AwaitBounded(t);
          var st := t.statusAt(tick);
          if t.isDone(tick) {
            r := if st.status == "Filled" then DetailedFilled(st.filled, st.avgFillPrice, t.orderId)
                 else DetailedFailed(st.status, Some(t.orderId));
          } else {
            r := DetailedFailed("Timeout", Some(t.orderId));
          }
      }
    }

    /** `get_positions_detailed`: the non-zero ES items of the portfolio view, read without a connection check. */
    method GetPositionsDetailed() returns (ps: seq<PortfolioItem>)
      ensures ps == EsItems(ib.portfolio)
    {
      var items := ib.portfolio;
      ps := [];
      var i := 0;
      while i < |items|
        invariant 0 <= i <= |items|
        invariant ps == Collect(items[..i], FuturesBot.IsEsItem, FuturesBot.ItemItself)
      {
        var it := items[i];
        assert items[..i + 1] == items[..i] + [it];
        CollectSnoc(items[..i], it, FuturesBot.IsEsItem, FuturesBot.ItemItself);
        if FuturesBot.IsEsItem(it) {
          ps := ps + [it];
        }
        i := i + 1;
      }
      assert items[..i] == items;
    }

    /**
     * `close_all_positions_detailed`: nothing to close gives 0 and no results; a missing
     * snapshot stops the run with its error; otherwise every ES position is closed by a
     * step-by-step order and `closed` is the sum of the filled quantities.
     */
    method CloseAllDetailed() returns (s: DetailedClose)
      modifies ib`orders, ib`subscriptions
      ensures var ps := EsItems(ib.portfolio);
        var md := DetailedQuote(ib.quote, contract);
        && (ps == [] ==> s == DetailedClose(0, [], None) && ib.orders == old(ib.orders))
        && (ps != [] && md.None? ==> s == DetailedClose(0, [], Some(NoMarketData)) && ib.orders == old(ib.orders))
        && (ps != [] && md.Some? ==>
              var r := Closing(DetailedResults(ib.respond, connected, md.value), DetailedTickets(connected, contract, md.value),
                               ps, old(ib.orders));
              s == DetailedClose(SumOf(r.entries, DetailedFill), r.entries, None) && ib.orders == r.orders)
      ensures ib.subscriptions == old(ib.subscriptions)
    {
      var ps := GetPositionsDetailed();
      if ps == [] {
        return DetailedClose(0, [], None);
      }
      var md := GetMarketData();
      if md.None? {
        return DetailedClose(0, [], Some(NoMarketData));
      }
      var results, total := CloseEachDetailed(ps, md.value);
      s := DetailedClose(total, results, None);
    }

    /** The closing loop, once a snapshot md of the stored contract exists. */
    method CloseEachDetailed(ps: seq<PortfolioItem>, ghost md: Snapshot) returns (results: seq<DetailedEntry>, total: int)
      requires DetailedQuote(ib.quote, contract) == Some(md)
      modifies ib`orders, ib`subscriptions
      ensures Run(results, ib.orders)
              == Closing(DetailedResults(ib.respond, connected, md), DetailedTickets(connected, contract, md), ps, old(ib.orders))
      ensures total == SumOf(results, DetailedFill)
      ensures ib.subscriptions == old(ib.subscriptions)
    {
      ghost var close := DetailedResults(ib.respond, connected, md);
      ghost var place := DetailedTickets(connected, contract, md);
      results, total := [], 0;
      var anyFilled := false;
      var i := 0;
      while i < |ps|
        invariant 0 <= i <= |ps|
        invariant Closing(close, place, ps[..i], old(ib.orders)) == Run(results, ib.orders)
        invariant total == SumOf(results, DetailedFill) && anyFilled == AnyOf(results, EntryFilled)
        invariant ib.subscriptions == old(ib.subscriptions)
      {
        ClosingSnoc(close, place, ps, i, old(ib.orders));
        var es := CloseOneDetailed(ps[i], md, close, place);
        results, total, anyFilled := Tally(results, total, anyFilled, es, DetailedFill, EntryFilled);
        i := i + 1;
      }
      assert ps[..i] == ps;
    }

    /** One pass of the closing loop: a long position sells, a short one buys back, a flat one is passed over. */
    method CloseOneDetailed(pos: PortfolioItem, ghost md: Snapshot, ghost close: (PortfolioItem, nat) -> seq<DetailedEntry>,
                            ghost place: PortfolioItem -> seq<OrderRecord>) returns (es: seq<DetailedEntry>)
      requires DetailedQuote(ib.quote, contract) == Some(md)
      requires close(pos, |ib.orders|) == DetailedEntriesAt(ib.respond, connected, md, pos, |ib.orders|)
      requires place(pos) == DetailedTicketsOf(connected, contract, md, pos)
      modifies ib`orders, ib`subscriptions
      ensures es == close(pos, |old(ib.orders)|)
      ensures ib.orders == old(ib.orders) + place(pos)
      ensures ib.subscriptions == old(ib.subscriptions)
      ensures |es| <= 1
    {
      if pos.position > 0.0 {
        var r := TradeDetailed(Sell, pos.position);
        es := [DetailedEntry(FuturesBot.SellLabel, r)];
      } else if pos.position < 0.0 {
        var r := TradeDetailed(Buy, Abs(pos.position));
        es := [DetailedEntry(FuturesBot.BuyBackLabel, r)];
      } else {
        es := [];
      }
    }
  }
}
