/**
 * The ES futures bot (`TradingBot`): a contract list loaded from the selection file, a
 * connection to the gateway, and order methods that always trade the first contract of the
 * list. Every order method catches its own errors and returns a failed TradeResult; the
 * closing loops issue one offsetting order per open position and total what was filled.
 */
module FuturesBot {
  import opened Wrappers
  import opened Seqs
  import opened Text
  import opened Broker
  import opened Models
  import opened Market
  import opened Polling
  import opened Netting
  import opened ContractFile
  import Config

  /** A contract with an empty exchange is sent to CME. */
  function Primed(c: Contract): (r: Contract)
    ensures r.exchange != ""
    ensures r.(exchange := c.exchange) == c
    ensures c.exchange != "" ==> r == c
  {
    if c.exchange == "" then c.(exchange := "CME") else c
  }

  /** The family search used when none of the selected contracts qualifies. */
  const SearchContract: Contract := FutureContract("ES", "", "CME", "USD")

  /** The qualified contracts of each of cs, concatenated in order; one that raises adds none. */
  function QualifiedAll(cs: seq<Contract>, qualify: Contract -> Qualification): seq<Contract>
  {
    if cs == [] then []
    else
      QualifiedAll(cs[..|cs| - 1], qualify)
      + (match qualify(cs[|cs| - 1]) case Qualified(q) => q case QualifyRaised(_) => [])
  }

  /**
   * Every contract kept by qualification is one the gateway returned for a selected
   * contract, and a list is only empty when no selected contract qualified to anything.
   */
  lemma {:induction false} QualifiedAllFrom(cs: seq<Contract>, qualify: Contract -> Qualification)
    ensures forall c :: c in QualifiedAll(cs, qualify) ==>
      exists i :: 0 <= i < |cs| && qualify(cs[i]).Qualified? && c in qualify(cs[i]).contracts
    ensures QualifiedAll(cs, qualify) == [] <==>
      forall i | 0 <= i < |cs| :: qualify(cs[i]).QualifyRaised? || qualify(cs[i]).contracts == []
  {
    if cs != [] {
      var init := cs[..|cs| - 1];
      QualifiedAllFrom(init, qualify);
      forall c | c in QualifiedAll(cs, qualify)
        ensures exists i :: 0 <= i < |cs| && qualify(cs[i]).Qualified? && c in qualify(cs[i]).contracts
      {
        if c in QualifiedAll(init, qualify) {
          var i :| 0 <= i < |init| && qualify(init[i]).Qualified? && c in qualify(init[i]).contracts;
          assert cs[i] == init[i];
        } else {
          assert qualify(cs[|cs| - 1]).Qualified?;
        }
      }
      if QualifiedAll(cs, qualify) == [] {
        forall i | 0 <= i < |cs|
          ensures qualify(cs[i]).QualifyRaised? || qualify(cs[i]).contracts == []
        {
          if i < |init| {
            assert cs[i] == init[i];
          }
        }
      }
      if forall i | 0 <= i < |cs| :: qualify(cs[i]).QualifyRaised? || qualify(cs[i]).contracts == [] {
        forall i | 0 <= i < |init|
          ensures qualify(init[i]).QualifyRaised? || qualify(init[i]).contracts == []
        {
          assert init[i] == cs[i];
        }
        assert qualify(cs[|cs| - 1]).QualifyRaised? || qualify(cs[|cs| - 1]).contracts == [];
      }
    }
  }

  /**
   * The contract list after a successful connect: the qualified list when it is non-empty,
   * else the family search result when that is non-empty, else the list as it was (the
   * error raised for an empty search is swallowed).
   */
  function Requalified(cs: seq<Contract>, qualify: Contract -> Qualification): (r: seq<Contract>)
    ensures |cs| > 0 ==> |r| > 0
    ensures r == QualifiedAll(cs, qualify) || r == cs
         || (qualify(SearchContract).Qualified? && r == qualify(SearchContract).contracts)
  {
    var q := QualifiedAll(cs, qualify);
    if q != [] then q
    else
      match qualify(SearchContract)
      case Qualified(found) => if found != [] then found else cs
      case QualifyRaised(_) => cs
  }

  /** The three outcomes of requalification, in the order they are tried. */
  lemma RequalifiedCases(cs: seq<Contract>, qualify: Contract -> Qualification)
    ensures QualifiedAll(cs, qualify) != [] ==> Requalified(cs, qualify) == QualifiedAll(cs, qualify)
    ensures QualifiedAll(cs, qualify) == [] && qualify(SearchContract).Qualified?
            && qualify(SearchContract).contracts != [] ==>
      Requalified(cs, qualify) == qualify(SearchContract).contracts
    ensures QualifiedAll(cs, qualify) == []
            && (qualify(SearchContract).QualifyRaised? || qualify(SearchContract).contracts == []) ==>
      Requalified(cs, qualify) == cs
  {
  }

  predicate IsEsItem(it: PortfolioItem)
  {
    it.position != 0.0 && it.contract.symbol == "ES"
  }

  predicate IsEsHolding(p: IbPosition)
  {
    p.position != 0.0 && p.contract.symbol == "ES"
  }

  /** A position read from the portfolio view, with its truncated size. */
  function ItemPosition(it: PortfolioItem): Position
  {
    Position(it.contract.symbol, Trunc(it.position), it.averageCost, it.marketValue,
             it.unrealizedPnl, it.realizedPnl)
  }

  /** A position read from the plain positions view, which has none of the money fields. */
  function HoldingPosition(p: IbPosition): Position
  {
    Position(p.contract.symbol, Trunc(p.position), 0.0, 0.0, 0.0, 0.0)
  }

  /** The ES positions: from the portfolio view, else from the plain positions view. */
  function EsPositions(items: seq<PortfolioItem>, held: seq<IbPosition>): seq<Position>
  {
    var fromPortfolio := Collect(items, IsEsItem, ItemPosition);
    if fromPortfolio != [] then fromPortfolio else Collect(held, IsEsHolding, HoldingPosition)
  }

  /**
   * When the portfolio holds a non-zero ES item, the positions are exactly the portfolio's
   * non-zero ES items; only when it holds none is the plain positions view consulted.
   */
  lemma EsPositionsSpec(items: seq<PortfolioItem>, held: seq<IbPosition>)
    ensures forall p :: p in EsPositions(items, held) ==> p.symbol == "ES"
    ensures (exists i :: 0 <= i < |items| && IsEsItem(items[i])) ==>
      forall p :: p in EsPositions(items, held) <==>
        exists i :: 0 <= i < |items| && IsEsItem(items[i]) && p == ItemPosition(items[i])
    ensures (forall i | 0 <= i < |items| :: !IsEsItem(items[i])) ==>
      forall p :: p in EsPositions(items, held) <==>
        exists j :: 0 <= j < |held| && IsEsHolding(held[j]) && p == HoldingPosition(held[j])
  {
    CollectMembers(items, IsEsItem, ItemPosition);
    CollectMembers(held, IsEsHolding, HoldingPosition);
    if forall i | 0 <= i < |items| :: !IsEsItem(items[i]) {
      CollectNone(items, IsEsItem, ItemPosition);
    }
    if exists i :: 0 <= i < |items| && IsEsItem(items[i]) {
      var i :| 0 <= i < |items| && IsEsItem(items[i]);
      assert ItemPosition(items[i]) in Collect(items, IsEsItem, ItemPosition);
    }
  }

  /** The order side an order method takes, and whether it is a market or a limit order. */
  datatype Kind = AtMarket | AtLimit(price: Option<real>, flip: bool)

  /** The texts of the four order methods. */
  function OrderWording(kind: Kind, action: Action): Wording
  {
    var filled := if action == Buy then "Successfully bought" else "Successfully sold";
    var error :=
      match kind
      case AtMarket => if action == Buy then "Error placing buy order: " else "Error placing sell order: "
      case AtLimit(_, _) =>
        if action == Buy then "Error placing buy limit order: " else "Error placing sell limit order: ";
    Wording(filled, "Order not filled: ", error)
  }

  const NotConnected: string := "Not connected to IBKR"
  const NoContracts: string := "No contracts available"

  /** The ticket an order method places on contract c, or the error that stops it first. */
  function Ticket(quote: Contract -> Option<Ticker>, c: Contract, kind: Kind, action: Action,
                  quantity: real): (r: Result<OrderTicket>)
    ensures r.Ok? ==> r.value.action == action && r.value.quantity == quantity
    ensures kind.AtMarket? ==> r == Ok(MarketOrder(action, quantity))
    ensures kind.AtLimit? && kind.price.Some? ==> r == Ok(LimitOrder(action, quantity, kind.price))
  {
    match kind
    case AtMarket => Ok(MarketOrder(action, quantity))
    case AtLimit(price, flip) =>
      match LimitPrice(action, price, Quote(quote, c), flip)
      case Ok(p) => Ok(LimitOrder(action, quantity, Some(p)))
      case Err(e) => Err(e)
  }

  /** The part of the state an order method reads and changes. */
  datatype Book = Book(contracts: seq<Contract>, orders: seq<OrderRecord>)

  datatype Step = Step(result: TradeResult, book: Book)

  /**
   * The result of an order call that gets as far as making its ticket for o on contract c,
   * with placedBefore orders already placed: the error that stopped it before placing, or
   * the result read from the trade once it is done.
   */
  ghost function TicketResult(ib: Gateway, show: real -> string, c: Contract, kind: Kind, o: Order, placedBefore: nat): TradeResult
    requires ib.FillsArrive()
  {
    var w := OrderWording(kind, o.action);
    match Ticket(ib.quote, c, kind, o.action, o.quantity)
    case Err(e) => Failed(w.error + e)
    case Ok(_) => SettledResult(ib.respond(placedBefore), w, show)
  }

  /**
   * One call of an order method: not connected or no contract fails first; otherwise the
   * first contract gets its exchange filled in, the ticket is placed on it, and the result is
   * read once the trade is done.
   */
  ghost function OrderStep(ib: Gateway, show: real -> string, connected: bool, b: Book, kind: Kind, action: Action,
                           quantity: int): Step
    requires ib.FillsArrive()
  {
    var w := OrderWording(kind, action);
    if !connected then Step(Failed(w.error + NotConnected), b)
    else if b.contracts == [] then Step(Failed(w.error + NoContracts), b)
    else
      var c := Primed(b.contracts[0]);
      var o := Order(action, quantity as real);
      Step(TicketResult(ib, show, c, kind, o, |b.orders|),
           Book(b.contracts[0 := c], b.orders + TicketFor(ib.quote, c, kind, o)))
  }

  /**
   * An order call places at most one order, on the first contract with its exchange filled
   * in; it succeeds only if that order was placed and filled, and then carries what was
   * filled and at what price, both written into 'Successfully bought/sold N contracts at $P'.
   * The contract list keeps its length.
   */
  lemma OrderStepSpec(ib: Gateway, show: real -> string, connected: bool, b: Book, kind: Kind, action: Action, quantity: int)
    requires ib.FillsArrive()
    ensures var st := OrderStep(ib, show, connected, b, kind, action, quantity);
      && |st.book.contracts| == |b.contracts|
      && (st.book.orders == b.orders || |st.book.orders| == |b.orders| + 1)
      && st.book.orders[..|b.orders|] == b.orders
      && (|st.book.orders| == |b.orders| + 1 ==>
            connected && b.contracts != []
            && st.book.orders[|b.orders|].contract == Primed(b.contracts[0])
            && st.book.orders[|b.orders|].order.action == action
            && st.book.orders[|b.orders|].order.quantity == quantity as real)
      && (st.result.success ==>
            |st.book.orders| == |b.orders| + 1 && ib.respond(|b.orders|).Placed?
            && var d := ib.respond(|b.orders|).trade.statusAt(SettleTick(ib.respond(|b.orders|).trade));
               && st.result.message
                  == OrderWording(kind, action).filled + " " + WholeText(d.filled, true) + " contracts at $" + show(d.avgFillPrice)
               && st.result.filledQuantity == Some(d.filled as int)
               && st.result.averagePrice == Some(d.avgFillPrice))
      && (!connected ==> st == Step(Failed(OrderWording(kind, action).error + NotConnected), b))
  {
    SuccessCarriesFill(ib.respond(|b.orders|), OrderWording(kind, action), show);
  }

  /** A limit order on a side the book does not quote places nothing and is reported as failed. */
  lemma UnpricedLimitPlacesNothing(ib: Gateway, show: real -> string, b: Book, price: Option<real>, flip: bool,
                                   action: Action, quantity: int)
    requires ib.FillsArrive()
    requires b.contracts != []
    requires LimitPrice(action, price, Quote(ib.quote, Primed(b.contracts[0])), flip).Err?
    ensures var st := OrderStep(ib, show, true, b, AtLimit(price, flip), action, quantity);
      st.book.orders == b.orders && !st.result.success
      && st.result.message == OrderWording(AtLimit(price, flip), action).error
         + LimitPrice(action, price, Quote(ib.quote, Primed(b.contracts[0])), flip).error
  {
  }

  /** The labels a closing loop puts on the entries for long and for short positions. */
  datatype Labels = Labels(sell: string, buyToClose: string)

  const SellLabel: string := "SELL"
  const BuyBackLabel: string := "BUY_TO_CLOSE"
  const CloseLabels: Labels := Labels(SellLabel, BuyBackLabel)

  function Label(labels: Labels, a: Action): string
  {
    if a == Sell then labels.sell else labels.buyToClose
  }

  /** One entry of a closing loop's results: the side, the size ordered and the order's result. */
  datatype NettedEntry = NettedEntry(action: string, quantity: int, result: TradeResult)

  /** What an entry adds to the closed total: the filled quantity of a success. */
  function Filled(e: NettedEntry): int
  {
    if e.result.success && e.result.filledQuantity.Some? then e.result.filledQuantity.value else 0
  }

  /** The order an order call places for o on contract c: none when its ticket cannot be made. */
  function TicketFor(quote: Contract -> Option<Ticker>, c: Contract, kind: Kind, o: Order): (r: seq<OrderRecord>)
    ensures |r| <= 1
    ensures kind.AtMarket? || kind.price.Some? ==> |r| == 1
    ensures r != [] ==> r[0].contract == c && r[0].order.action == o.action && r[0].order.quantity == o.quantity
  {
    match Ticket(quote, c, kind, o.action, o.quantity)
    case Ok(t) => [OrderRecord(c, t)]
    case Err(_) => []
  }

  /** `TicketFor` on contract c as a function of the order alone. */
  function TicketsOn(quote: Contract -> Option<Ticker>, c: Contract, kind: Kind): Order -> seq<OrderRecord>
  {
    (o: Order) => TicketFor(quote, c, kind, o)
  }

  /** The orders a sequence of order calls places, each placing what `place` gives its order. */
  function Placements(place: Order -> seq<OrderRecord>, os: seq<Order>): seq<OrderRecord>
  {
    if os == [] then []
    else Placements(place, os[..|os| - 1]) + place(os[|os| - 1])
  }

  lemma PlacementsSnoc(place: Order -> seq<OrderRecord>, os: seq<Order>, o: Order)
    ensures Placements(place, os + [o]) == Placements(place, os) + place(o)
  {
    assert (os + [o])[..|os|] == os;
  }

  /** Order calls on one contract place at most one order each, and exactly one each when every side is priced. */
  lemma {:induction false} PlacementsCount(quote: Contract -> Option<Ticker>, c: Contract, kind: Kind, os: seq<Order>)
    ensures |Placements(TicketsOn(quote, c, kind), os)| <= |os|
    ensures kind.AtMarket? || kind.price.Some? ==> |Placements(TicketsOn(quote, c, kind), os)| == |os|
    decreases |os|
  {
    if os != [] {
      PlacementsCount(quote, c, kind, os[..|os| - 1]);
      var _ := TicketFor(quote, c, kind, os[|os| - 1]);
    }
  }

  /** The orders a closing loop makes for the signed sizes qs, skipping the flat ones. */
  function NetOrders(qs: seq<int>): (r: seq<Order>)
    ensures |r| <= |qs|
  {
    if qs == [] then []
    else
      var q := qs[|qs| - 1];
      NetOrders(qs[..|qs| - 1]) + (if q == 0 then [] else [NetOrder(q)])
  }

  /** One more position adds an order exactly when it is not flat. */
  lemma NetOrdersPrefix(qs: seq<int>, i: nat)
    requires i < |qs|
    ensures NetOrders(qs[..i + 1]) != [] <==> NetOrders(qs[..i]) != [] || qs[i] != 0
  {
    assert qs[..i + 1][..i] == qs[..i];
  }

  /**
   * The contract list during a closing loop: the first contract is primed from the first
   * non-flat position on, and untouched before it.
   */
  lemma PrimedAfterStep(cs0: seq<Contract>, c: Contract, done: seq<int>, q: int,
                        before: seq<Contract>, after: seq<Contract>)
    requires |cs0| > 0 && before == (if NetOrders(done) != [] then cs0[0 := c] else cs0)
    requires after == (if q != 0 then before[0 := c] else before)
    ensures after == (if NetOrders(done + [q]) != [] then cs0[0 := c] else cs0)
  {
    NetOrdersPrefix(done + [q], |done|);
    assert (done + [q])[..|done|] == done && (done + [q])[..|done| + 1] == done + [q];
    UpdateTwice(cs0, 0, c);
  }

  /** The orders of a closing loop are exactly the netting's offsetting orders of the positions. */
  lemma {:induction false} NetOrdersSpec(qs: seq<int>)
    ensures NetOrders(qs) == OffsetOrders(Reals(qs))
    decreases |qs|
  {
    if qs != [] {
      var q := qs[|qs| - 1];
      NetOrdersSpec(qs[..|qs| - 1]);
      RealsPrefix(qs, |qs| - 1);
      assert Reals(qs)[|qs| - 1] == q as real;
      if q != 0 {
        NetOrderIsOffset(q);
      }
    }
  }

  /** What the order call for position q places: nothing for a flat position. */
  function NetPlaced(place: Order -> seq<OrderRecord>, q: int): seq<OrderRecord>
  {
    if q == 0 then [] else place(NetOrder(q))
  }

  /** The orders a closing loop over the signed sizes qs places, in position order. */
  function NetPlacements(place: Order -> seq<OrderRecord>, qs: seq<int>): seq<OrderRecord>
  {
    if qs == [] then []
    else NetPlacements(place, qs[..|qs| - 1]) + NetPlaced(place, qs[|qs| - 1])
  }

  /** The result of each order call a closing loop on contract c makes: order o, placed after n others. */
  ghost function OrderResults(ib: Gateway, show: real -> string, c: Contract, kind: Kind): (Order, nat) -> TradeResult
    requires ib.FillsArrive()
  {
    (o: Order, n: nat) => TicketResult(ib, show, c, kind, o, n)
  }

  /** The entry for a non-zero position q whose order call is made after n placements. */
  function NetEntry(outcome: (Order, nat) -> TradeResult, labels: Labels, q: int, n: nat): NettedEntry
  {
    NettedEntry(Label(labels, Side(q)), AbsInt(q), outcome(NetOrder(q), n))
  }

  /**
   * The entries of a closing loop over the signed sizes qs, with base orders already placed:
   * one entry per non-zero size, labelled with its side, carrying the result `outcome` gives
   * its order call.
   */
  function NetEntries(outcome: (Order, nat) -> TradeResult, place: Order -> seq<OrderRecord>,
                      labels: Labels, qs: seq<int>, base: nat): seq<NettedEntry>
  {
    if qs == [] then []
    else
      var init := qs[..|qs| - 1];
      var q := qs[|qs| - 1];
      var prev := NetEntries(outcome, place, labels, init, base);
      if q == 0 then prev
      else prev + [NetEntry(outcome, labels, q, base + |NetPlacements(place, init)|)]
  }

  lemma NetSnoc(outcome: (Order, nat) -> TradeResult, place: Order -> seq<OrderRecord>,
                labels: Labels, qs: seq<int>, q: int, base: nat)
    ensures NetPlacements(place, qs + [q]) == NetPlacements(place, qs) + NetPlaced(place, q)
    ensures q == 0 ==> NetEntries(outcome, place, labels, qs + [q], base) == NetEntries(outcome, place, labels, qs, base)
    ensures q != 0 ==>
      NetEntries(outcome, place, labels, qs + [q], base)
        == NetEntries(outcome, place, labels, qs, base) + [NetEntry(outcome, labels, q, base + |NetPlacements(place, qs)|)]
  {
    assert (qs + [q])[..|qs|] == qs;
  }

  /** One netting pass at a non-zero size appends its entry, numbered after the orders already placed. */
  lemma NetAppendEntry(outcome: (Order, nat) -> TradeResult, place: Order -> seq<OrderRecord>, labels: Labels,
                       o0: seq<OrderRecord>, done: seq<int>, q: int, results: seq<NettedEntry>, entry: NettedEntry)
    requires q != 0
    requires results == NetEntries(outcome, place, labels, done, |o0|)
    requires entry == NetEntry(outcome, labels, q, |o0| + |NetPlacements(place, done)|)
    ensures results + [entry] == NetEntries(outcome, place, labels, done + [q], |o0|)
  {
    NetSnoc(outcome, place, labels, done, q, |o0|);
  }

  /** The bookkeeping of one netting pass at a non-zero size: its entry, its orders and its fill join the totals. */
  lemma NetAppendStep(outcome: (Order, nat) -> TradeResult, place: Order -> seq<OrderRecord>, labels: Labels,
                      o0: seq<OrderRecord>, done: seq<int>, q: int, results: seq<NettedEntry>, total: int,
                      before: seq<OrderRecord>, entry: NettedEntry, after: seq<OrderRecord>)
    requires q != 0
    requires results == NetEntries(outcome, place, labels, done, |o0|)
    requires before == o0 + NetPlacements(place, done)
    requires total == SumOf(results, Filled)
    requires entry == NetEntry(outcome, labels, q, |before|)
    requires after == before + NetPlaced(place, q)
    ensures results + [entry] == NetEntries(outcome, place, labels, done + [q], |o0|)
    ensures after == o0 + NetPlacements(place, done + [q])
    ensures total + Filled(entry) == SumOf(results + [entry], Filled)
  {
    assert |before| == |o0| + |NetPlacements(place, done)|;
    NetAppendEntry(outcome, place, labels, o0, done, q, results, entry);
    NetAppendOrders(place, o0, done, q, after);
    SumOfSnoc(results, entry, Filled);
  }

  /** One netting pass appends what its order call places. */
  lemma NetAppendOrders(place: Order -> seq<OrderRecord>, o0: seq<OrderRecord>, done: seq<int>, q: int,
                        after: seq<OrderRecord>)
    requires after == (o0 + NetPlacements(place, done)) + NetPlaced(place, q)
    ensures after == o0 + NetPlacements(place, done + [q])
  {
    assert NetPlacements(place, done + [q]) == NetPlacements(place, done) + NetPlaced(place, q) by {
      assert (done + [q])[..|done|] == done;
    }
    AppendAssoc(o0, NetPlacements(place, done), NetPlaced(place, q));
  }

  /** A closing loop places what its order calls place, in position order. */
  lemma {:induction false} NetPlacementsSpec(place: Order -> seq<OrderRecord>, qs: seq<int>)
    ensures NetPlacements(place, qs) == Placements(place, NetOrders(qs))
    decreases |qs|
  {
    if qs != [] {
      var init := qs[..|qs| - 1];
      var q := qs[|qs| - 1];
      NetPlacementsSpec(place, init);
      assert NetPlacements(place, qs) == NetPlacements(place, init) + NetPlaced(place, q);
      if q != 0 {
        assert NetOrders(qs) == NetOrders(init) + [NetOrder(q)];
        PlacementsSnoc(place, NetOrders(init), NetOrder(q));
      } else {
        assert NetOrders(qs) == NetOrders(init) + [] == NetOrders(init);
        assert NetPlaced(place, q) == [];
        assert NetPlacements(place, qs) == NetPlacements(place, init) + [] == NetPlacements(place, init);
      }
    }
  }

  /**
   * The result of an order call succeeds only when a ticket was made and its order placed,
   * and then carries the filled quantity and average price of the settled status.
   */
  lemma TicketResultFill(ib: Gateway, show: real -> string, c: Contract, kind: Kind, o: Order, placedBefore: nat)
    requires ib.FillsArrive()
    ensures var r := TicketResult(ib, show, c, kind, o, placedBefore);
      var p := ib.respond(placedBefore);
      r.success ==>
        Ticket(ib.quote, c, kind, o.action, o.quantity).Ok? && p.Placed?
        && r.filledQuantity == Some(p.trade.statusAt(SettleTick(p.trade)).filled as int)
        && r.averagePrice == Some(p.trade.statusAt(SettleTick(p.trade)).avgFillPrice)
  {
    SuccessCarriesFill(ib.respond(placedBefore), OrderWording(kind, o.action), show);
  }

  /**
   * Entry i of a closing loop is the loop's i-th order, that is the netting's i-th
   * offsetting order: its side's label and its size.
   */
  lemma {:induction false} NetEntriesSpec(outcome: (Order, nat) -> TradeResult, place: Order -> seq<OrderRecord>,
                                          labels: Labels, qs: seq<int>, base: nat)
    ensures var es := NetEntries(outcome, place, labels, qs, base);
      var os := NetOrders(qs);
      |es| == |os|
      && forall i | 0 <= i < |os| ::
           es[i].action == Label(labels, os[i].action)
           && es[i].quantity as real == os[i].quantity
           && es[i].quantity > 0
    decreases |qs|
  {
    if qs != [] {
      var init := qs[..|qs| - 1];
      var q := qs[|qs| - 1];
      var pos := NetOrders(init);
      var os := NetOrders(qs);
      var es := NetEntries(outcome, place, labels, qs, base);
      var prev := NetEntries(outcome, place, labels, init, base);
      NetEntriesSpec(outcome, place, labels, init, base);
      if q != 0 {
        forall i | 0 <= i < |os|
          ensures es[i].action == Label(labels, os[i].action)
          ensures es[i].quantity as real == os[i].quantity && es[i].quantity > 0
        {
          if i < |pos| {
            assert os[i] == pos[i] && es[i] == prev[i];
          }
        }
      }
    }
  }

  /** When every order call places exactly one order, the calls for os place |os| orders. */
  lemma {:induction false} OneEachPlacements(place: Order -> seq<OrderRecord>, os: seq<Order>)
    requires forall o :: |place(o)| == 1
    ensures |Placements(place, os)| == |os|
    decreases |os|
  {
    if os != [] {
      OneEachPlacements(place, os[..|os| - 1]);
      assert |place(os[|os| - 1])| == 1;
    }
  }

  /**
   * When every order call places exactly one order, entry i of a closing loop carries the
   * result of the i-th order call, made after base + i placements.
   */
  lemma {:induction false} OneEachEntries(outcome: (Order, nat) -> TradeResult, place: Order -> seq<OrderRecord>,
                                          labels: Labels, qs: seq<int>, base: nat)
    requires forall o :: |place(o)| == 1
    ensures var es := NetEntries(outcome, place, labels, qs, base);
      var os := NetOrders(qs);
      |es| == |os|
      && forall i | 0 <= i < |os| :: es[i].result == outcome(os[i], base + i)
    decreases |qs|
  {
    if qs != [] {
      var init := qs[..|qs| - 1];
      var q := qs[|qs| - 1];
      var pos := NetOrders(init);
      var os := NetOrders(qs);
      var es := NetEntries(outcome, place, labels, qs, base);
      var prev := NetEntries(outcome, place, labels, init, base);
      OneEachEntries(outcome, place, labels, init, base);
      if q != 0 {
        var n := |NetPlacements(place, init)|;
        assert n == |pos| by {
          NetPlacementsSpec(place, init);
          OneEachPlacements(place, pos);
        }
        var e := NetEntry(outcome, labels, q, base + n);
        assert es == prev + [e];
        assert os == pos + [NetOrder(q)];
        forall i | 0 <= i < |os|
          ensures es[i].result == outcome(os[i], base + i)
        {
          if i < |pos| {
            assert os[i] == pos[i] && es[i] == prev[i];
          }
        }
      } else {
        assert es == prev;
        assert os == pos + [] == pos;
      }
    }
  }

  /** A priced order call always places its ticket, so its result is read from the placement. */
  lemma TicketResultPriced(ib: Gateway, show: real -> string, c: Contract, kind: Kind, o: Order, n: nat)
    requires ib.FillsArrive()
    requires kind.AtMarket? || kind.price.Some?
    ensures TicketResult(ib, show, c, kind, o, n) == SettledResult(ib.respond(n), OrderWording(kind, o.action), show)
  {
    assert Ticket(ib.quote, c, kind, o.action, o.quantity).Ok?;
  }

  /**
   * With every side priced (market orders, or an explicit limit price) every offsetting order
   * is placed, and entry i carries the result of the i-th order placed by the loop.
   */
  lemma PricedRunResults(ib: Gateway, show: real -> string, c: Contract, kind: Kind, labels: Labels, qs: seq<int>, base: nat)
    requires ib.FillsArrive()
    requires kind.AtMarket? || kind.price.Some?
    ensures var os := NetOrders(qs);
      var es := NetEntries(OrderResults(ib, show, c, kind), TicketsOn(ib.quote, c, kind), labels, qs, base);
      && |NetPlacements(TicketsOn(ib.quote, c, kind), qs)| == |os|
      && |es| == |os|
      && forall i | 0 <= i < |os| ::
           es[i].result == SettledResult(ib.respond(base + i), OrderWording(kind, os[i].action), show)
  {
    var place := TicketsOn(ib.quote, c, kind);
    var os := NetOrders(qs);
    var es := NetEntries(OrderResults(ib, show, c, kind), place, labels, qs, base);
    PricedPlacesOne(ib.quote, c, kind);
    NetPlacementsSpec(place, qs);
    OneEachPlacements(place, os);
    OneEachEntries(OrderResults(ib, show, c, kind), place, labels, qs, base);
    PricedOrderResults(ib, show, c, kind);
  }

  /** With every side priced, each order call places exactly one ticket. */
  lemma PricedPlacesOne(quote: Contract -> Option<Ticker>, c: Contract, kind: Kind)
    requires kind.AtMarket? || kind.price.Some?
    ensures forall o :: |TicketsOn(quote, c, kind)(o)| == 1
  {
    forall o ensures |TicketsOn(quote, c, kind)(o)| == 1 {
      var _ := TicketFor(quote, c, kind, o);
    }
  }

  /** With every side priced, the result of an order call is read from the n-th placement. */
  lemma PricedOrderResults(ib: Gateway, show: real -> string, c: Contract, kind: Kind)
    requires ib.FillsArrive()
    requires kind.AtMarket? || kind.price.Some?
    ensures forall o, n: nat :: OrderResults(ib, show, c, kind)(o, n) == SettledResult(ib.respond(n), OrderWording(kind, o.action), show)
  {
    forall o, n: nat
      ensures OrderResults(ib, show, c, kind)(o, n) == SettledResult(ib.respond(n), OrderWording(kind, o.action), show)
    {
      TicketResultPriced(ib, show, c, kind, o, n);
    }
  }

  /**
   * An order call of a closing loop, while connected and with the first contract priming to c,
   * trades c: the list gets c in front, the ticket is placed if it can be made, and the
   * result is that of the order.
   */
  lemma OrderStepOnFirst(ib: Gateway, show: real -> string, b: Book, c: Contract, kind: Kind, q: int)
    requires ib.FillsArrive()
    requires b.contracts != [] && Primed(b.contracts[0]) == c
    requires q != 0
    ensures OrderStep(ib, show, true, b, kind, Side(q), AbsInt(q))
         == Step(TicketResult(ib, show, c, kind, NetOrder(q), |b.orders|),
                 Book(b.contracts[0 := c], b.orders + TicketFor(ib.quote, c, kind, NetOrder(q))))
  {
  }

  function Quantities(ps: seq<Position>): (r: seq<int>)
    ensures |r| == |ps|
    ensures forall i | 0 <= i < |ps| :: r[i] == ps[i].quantity
  {
    seq(|ps|, i requires 0 <= i < |ps| => ps[i].quantity)
  }

  const CloseNotConnected: string := "Error closing positions: Not connected to IBKR"
  const ForceNotConnected: string := "Error force closing positions: Not connected to IBKR"
  const NoPositions: string := "No positions to close"
  const ClosedPrefix: string := "Successfully closed "
  const ContractsSuffix: string := " contracts"

  /** The closing summary of a run over a non-empty position list. */
  function Summary(entries: seq<NettedEntry>, prefix: string, suffix: string): CloseSummary<NettedEntry>
  {
    CloseSummary(prefix + IntToString(SumOf(entries, Filled)) + suffix, SumOf(entries, Filled), entries)
  }

  /** A portfolio item that `close_all_positions_force` closes: any symbol, non-zero size. */
  predicate IsOpenItem(it: PortfolioItem)
  {
    it.position != 0.0
  }

  function ItemItself(it: PortfolioItem): PortfolioItem
  {
    it
  }

  function OpenItems(items: seq<PortfolioItem>): seq<PortfolioItem>
  {
    Collect(items, IsOpenItem, ItemItself)
  }

  datatype ForceEntry = ForceEntry(action: string, symbol: string, quantity: real, outcome: CloseOutcome)

  /** The order a forced close places for one position. */
  function ForceTicket(it: PortfolioItem): OrderRecord
  {
    if it.position > 0.0 then OrderRecord(Primed(it.contract), MarketOrder(Sell, Trunc(it.position) as real))
    else OrderRecord(Primed(it.contract), MarketOrder(Buy, Trunc(Abs(it.position)) as real))
  }

  function ForceTickets(it: PortfolioItem): seq<OrderRecord>
  {
    [ForceTicket(it)]
  }

  /** The entry of a forced close of item it whose order is the n-th placed on the session. */
  ghost function ForceEntryAt(ib: Gateway, it: PortfolioItem, n: nat): ForceEntry
    requires ib.FillsArrive()
  {
    var p := ib.respond(n);
    if it.position > 0.0 then
      ForceEntry(SellLabel, it.contract.symbol, it.position,
                 match p case PlaceRaised(e) => NotClosed(e) case Placed(t) => BoundedClose(t))
    else
      ForceEntry(BuyBackLabel, it.contract.symbol, Abs(it.position),
                 match p case PlaceRaised(e) => NotClosed(e) case Placed(t) => SettledClose(t))
  }

  /** The loop of a forced close: one entry and one order for every item it is given. */
  ghost function ForceResults(ib: Gateway): (PortfolioItem, nat) -> seq<ForceEntry>
    requires ib.FillsArrive()
  {
    (it: PortfolioItem, n: nat) => [ForceEntryAt(ib, it, n)]
  }

  function ClosedCount(e: ForceEntry): int
  {
    if e.outcome.Closed? then e.outcome.filled else 0
  }

  predicate IsClosed(e: ForceEntry)
  {
    e.outcome.Closed?
  }

  /**
   * A forced close on the session: item i places the i-th new order, selling its truncated
   * size when long and waiting at most 30 s, buying back its truncated size when short and
   * waiting until done; entry i keeps the item's symbol and size, and an order that raises
   * is recorded with its error.
   */
  lemma ForceClosingSpec(ib: Gateway, items: seq<PortfolioItem>, orders: seq<OrderRecord>)
    requires ib.FillsArrive()
    ensures var f := Closing(ForceResults(ib), ForceTickets, items, orders);
      && |f.entries| == |items|
      && |f.orders| == |orders| + |items| && f.orders[..|orders|] == orders
      && forall i | 0 <= i < |items| ::
           f.orders[|orders| + i] == ForceTicket(items[i]) && ForceEntryShape(ib, items[i], |orders| + i, f.entries[i])
  {
    var close := ForceResults(ib);
    forall i, n: nat | 0 <= i < |items|
      ensures |close(items[i], n)| == 1
    {
      assert close(items[i], n) == [ForceEntryAt(ib, items[i], n)];
    }
    ClosingOneEach(close, ForceTickets, items, orders);
    var f := Closing(close, ForceTickets, items, orders);
    forall i | 0 <= i < |items|
      ensures ForceEntryShape(ib, items[i], |orders| + i, f.entries[i])
    {
      assert close(items[i], |orders| + i) == [ForceEntryAt(ib, items[i], |orders| + i)];
      ForceEntryAtShape(ib, items[i], |orders| + i);
    }
  }

  /**
   * The entry of item it whose order is the n-th: its symbol and size; a long sells and
   * waits at most 30 s, a short buys back and waits until done; an order that raises is
   * recorded with its error.
   */
  ghost predicate ForceEntryShape(ib: Gateway, it: PortfolioItem, n: nat, e: ForceEntry)
    requires ib.FillsArrive()
  {
    var p := ib.respond(n);
    && e.symbol == it.contract.symbol
    && e.quantity == Abs(it.position)
    && (it.position > 0.0 ==>
          e.action == SellLabel
          && e.outcome == (match p case PlaceRaised(err) => NotClosed(err) case Placed(t) => BoundedClose(t)))
    && (it.position < 0.0 ==>
          e.action == BuyBackLabel
          && e.outcome == (match p case PlaceRaised(err) => NotClosed(err) case Placed(t) => SettledClose(t)))
  }

  lemma ForceEntryAtShape(ib: Gateway, it: PortfolioItem, n: nat)
    requires ib.FillsArrive()
    ensures ForceEntryShape(ib, it, n, ForceEntryAt(ib, it, n))
  {
  }

  /** The ticket of a forced close: a market order for the item's truncated size, selling exactly when it is long. */
  lemma ForceTicketSpec(it: PortfolioItem)
    ensures ForceTicket(it).contract == Primed(it.contract)
    ensures ForceTicket(it).order.MarketOrder?
    ensures ForceTicket(it).order.quantity == AbsInt(Trunc(it.position)) as real
    ensures ForceTicket(it).order.action == Sell <==> it.position > 0.0
  {
    TruncAbs(it.position);
  }

  /** The trading bot: the contract list, the connection flag and the gateway session. */
  class TradingBot {
    var connected: bool
    var contracts: seq<Contract>
    const ib: Gateway
    /** How Python prints a float price into a message. */
    const show: real -> string

    /** The list the bot loads is never empty, and connecting never empties it. */
    ghost predicate Valid()
      reads this
    {
      |contracts| > 0
    }

    constructor (ib: Gateway, file: FileRead, show: real -> string)
      ensures this.ib == ib && this.show == show && !connected && contracts == SelectedOrDefault(file) && Valid()
    {
      var cs := LoadSelectedContracts(file);
      this.ib := ib;
      this.show := show;
      connected := false;
      contracts := cs;
    }

    function PrimaryContract(): (r: Option<Contract>)
      reads this
      ensures r.Some? <==> |contracts| > 0
      ensures r.Some? ==> r.value == contracts[0]
    {
      if |contracts| > 0 then Some(contracts[0]) else None
    }

    /** Connected in the bot's own view and in the session's. */
    predicate IsConnected()
      reads this, ib
    {
      connected && ib.connected
    }

    /**
     * `connect`: None on success, else the error re-raised after `connected` is cleared.
     * A missing or zero argument takes its configured default.
     */
    method Connect(host: Option<string>, port: Option<int>, clientId: Option<int>) returns (err: Option<string>)
      modifies this, ib`connected, ib`session
      ensures var s := Session(OrDefault(host, "", Config.IbkrHost), OrDefault(port, 0, Config.IbkrPort),
                               OrDefault(clientId, 0, Config.IbkrClientId));
        && err == ib.connectError(s)
        && (err.None? ==> connected && ib.connected && ib.session == Some(s)
                          && contracts == Requalified(old(contracts), ib.qualify))
        && (err.Some? ==> !connected && contracts == old(contracts)
                          && ib.connected == old(ib.connected) && ib.session == old(ib.session))
      ensures old(Valid()) ==> Valid()
    {
      var s := Session(OrDefault(host, "", Config.IbkrHost), OrDefault(port, 0, Config.IbkrPort),
                       OrDefault(clientId, 0, Config.IbkrClientId));
      err := ib.ConnectAsync(s.host, s.port, s.clientId);
      if err.Some? {
        connected := false;
        return;
      }
      connected := true;
      var qualified: seq<Contract> := [];
      var i := 0;
      while i < |contracts|
        invariant 0 <= i <= |contracts|
        invariant qualified == QualifiedAll(contracts[..i], ib.qualify)
      {
        assert contracts[..i + 1][..i] == contracts[..i];
        match ib.qualify(contracts[i]) {
          case Qualified(q) => qualified := qualified + q;
          case QualifyRaised(_) =>
        }
        i := i + 1;
      }
      assert contracts[..i] == contracts;
      if qualified != [] {
        contracts := qualified;
      } else {
        match ib.qualify(SearchContract) {
          case Qualified(found) =>
            if found != [] {
              contracts := found;
            }
          case QualifyRaised(_) =>
        }
      }
    }

    method Disconnect()
      modifies this`connected, ib`connected, ib`session
      ensures !connected
      ensures old(connected) ==> !ib.connected && ib.session.None?
      ensures !old(connected) ==> ib.connected == old(ib.connected) && ib.session == old(ib.session)
    {
      if connected {
        ib.Disconnect();
        connected := false;
      }
    }

    /** `get_positions`: the ES positions while connected, else none. */
    method GetPositions() returns (ps: seq<Position>)
      ensures ps == (if IsConnected() then EsPositions(ib.portfolio, ib.positions) else [])
    {
      if !IsConnected() {
        return [];
      }
      var items := ib.portfolio;
      ps := [];
      var i := 0;
      while i < |items|
        invariant 0 <= i <= |items|
        invariant ps == Collect(items[..i], IsEsItem, ItemPosition)
      {
        var it := items[i];
        assert items[..i + 1] == items[..i] + [it];
        CollectSnoc(items[..i], it, IsEsItem, ItemPosition);
        if IsEsItem(it) {
          ps := ps + [ItemPosition(it)];
        }
        i := i + 1;
      }
      assert items[..i] == items;
      if ps == [] {
        var held := ib.positions;
        var j := 0;
        while j < |held|
          invariant 0 <= j <= |held|
          invariant ps == Collect(held[..j], IsEsHolding, HoldingPosition)
        {
          var p := held[j];
          assert held[..j + 1] == held[..j] + [p];
          CollectSnoc(held[..j], p, IsEsHolding, HoldingPosition);
          if IsEsHolding(p) {
            ps := ps + [HoldingPosition(p)];
          }
          j := j + 1;
        }
        assert held[..j] == held;
      }
    }

    /** `get_market_data`: the normalised snapshot, with the subscription cancelled again. */
    method GetMarketData(c: Contract) returns (md: Option<Snapshot>)
      modifies ib`subscriptions
      ensures md == (if IsConnected() then Quote(ib.quote, c) else None)
      ensures ib.subscriptions == old(ib.subscriptions)
    {
      if !IsConnected() {
        return None;
      }
      var t := ib.ReqMktData(c);
      if t.None? {
        return None;
      }
      md := Some(Normalise(t.value));
      ib.CancelMktData(c);
    }

    /** The body shared by the four order methods. */
    method PlaceTicket(kind: Kind, action: Action, quantity: int) returns (r: TradeResult)
      requires ib.FillsArrive()
      modifies this`contracts, ib`orders, ib`subscriptions
      ensures Step(r, Book(contracts, ib.orders))
           == OrderStep(ib, show, IsConnected(), Book(old(contracts), old(ib.orders)), kind, action, quantity)
      ensures ib.subscriptions == old(ib.subscriptions)
    {
      var w := OrderWording(kind, action);
      if !IsConnected() {
        return Failed(w.error + NotConnected);
      }
      if contracts == [] {
        return Failed(w.error + NoContracts);
      }
      var c := Primed(contracts[0]);
      contracts := contracts[0 := c];
      var ticket: OrderTicket;
      match kind {
        case AtMarket =>
          ticket := MarketOrder(action, quantity as real);
        case AtLimit(price, flip) =>
          var md: Option<Snapshot> := None;
          if price.None? {
            md := GetMarketData(c);
          }
          var lp := LimitPrice(action, price, md, flip);
          if lp.Err? {
            return Failed(w.error + lp.error);
          }
          ticket := LimitOrder(action, quantity as real, Some(lp.value));
      }
      var p := ib.PlaceOrder(c, ticket);
      match p {
        case PlaceRaised(e) =>
          r := Failed(w.error + e);
        case Placed(t) =>
          var tick := AwaitDone(t);
          r := DoneResult(t.statusAt(tick), t.orderId, w, show);
      }
    }

    /** `buy_contracts`: a market buy of the first contract. */
    method BuyContracts(quantity: int) returns (r: TradeResult)
      requires ib.FillsArrive()
      modifies this`contracts, ib`orders, ib`subscriptions
      ensures Step(r, Book(contracts, ib.orders))
           == OrderStep(ib, show, IsConnected(), Book(old(contracts), old(ib.orders)), AtMarket, Buy, quantity)
      ensures ib.subscriptions == old(ib.subscriptions)
    {
      r := PlaceTicket(AtMarket, Buy, quantity);
    }

    /** `sell_contracts`: a market sell of the first contract. */
    method SellContracts(quantity: int) returns (r: TradeResult)
      requires ib.FillsArrive()
      modifies this`contracts, ib`orders, ib`subscriptions
      ensures Step(r, Book(contracts, ib.orders))
           == OrderStep(ib, show, IsConnected(), Book(old(contracts), old(ib.orders)), AtMarket, Sell, quantity)
      ensures ib.subscriptions == old(ib.subscriptions)
    {
      r := PlaceTicket(AtMarket, Sell, quantity);
    }

    /** `buy_contracts_limit`: at the given price, else at the ask (the bid with `useBid`). */
    method BuyContractsLimit(quantity: int, price: Option<real>, useBid: bool) returns (r: TradeResult)
      requires ib.FillsArrive()
      modifies this`contracts, ib`orders, ib`subscriptions
      ensures Step(r, Book(contracts, ib.orders))
           == OrderStep(ib, show, IsConnected(), Book(old(contracts), old(ib.orders)), AtLimit(price, useBid), Buy, quantity)
      ensures ib.subscriptions == old(ib.subscriptions)
    {
      r := PlaceTicket(AtLimit(price, useBid), Buy, quantity);
    }

    /** `sell_contracts_limit`: at the given price, else at the bid (the ask with `useAsk`). */
    method SellContractsLimit(quantity: int, price: Option<real>, useAsk: bool) returns (r: TradeResult)
      requires ib.FillsArrive()
      modifies this`contracts, ib`orders, ib`subscriptions
      ensures Step(r, Book(contracts, ib.orders))
           == OrderStep(ib, show, IsConnected(), Book(old(contracts), old(ib.orders)), AtLimit(price, useAsk), Sell, quantity)
      ensures ib.subscriptions == old(ib.subscriptions)
    {
      r := PlaceTicket(AtLimit(price, useAsk), Sell, quantity);
    }

    /**
     * One position of the netting loop: sell q of a long, buy back |q| of a short, through the
     * order method of the loop's kind, and record the entry.
     */
    method NetOne(q: int, kind: Kind, labels: Labels, ghost c: Contract, ghost outcome: (Order, nat) -> TradeResult,
                  ghost place: Order -> seq<OrderRecord>, ghost n: nat) returns (entry: NettedEntry)
      requires ib.FillsArrive()
      requires outcome(NetOrder(q), n) == TicketResult(ib, show, c, kind, NetOrder(q), n)
      requires IsConnected() && Valid()
      requires Primed(contracts[0]) == c && |ib.orders| == n
      requires q != 0 && place == TicketsOn(ib.quote, c, kind)
      modifies this`contracts, ib`orders, ib`subscriptions
      ensures entry == NetEntry(outcome, labels, q, n)
      ensures ib.orders == old(ib.orders) + NetPlaced(place, q)
      ensures contracts == old(contracts)[0 := c]
      ensures entry.result.success ==> entry.result.filledQuantity.Some?
      ensures ib.subscriptions == old(ib.subscriptions)
    {
      ghost var before := Book(contracts, ib.orders);
      OrderStepOnFirst(ib, show, before, c, kind, q);
      TicketResultFill(ib, show, c, kind, NetOrder(q), n);
      var r := OrderCall(kind, Side(q), AbsInt(q));
      assert IsConnected();
      assert r == TicketResult(ib, show, c, kind, NetOrder(q), n);
      assert ib.orders == before.orders + TicketFor(ib.quote, c, kind, NetOrder(q));
      if q > 0 {
        entry := NettedEntry(labels.sell, q, r);
      } else {
        entry := NettedEntry(labels.buyToClose, -q, r);
      }
    }

    /** The order method of a kind and side: market or limit, buy or sell. */
    method OrderCall(kind: Kind, action: Action, quantity: int) returns (r: TradeResult)
      requires ib.FillsArrive()
      modifies this`contracts, ib`orders, ib`subscriptions
      ensures Step(r, Book(contracts, ib.orders))
           == OrderStep(ib, show, IsConnected(), Book(old(contracts), old(ib.orders)), kind, action, quantity)
      ensures ib.subscriptions == old(ib.subscriptions)
    {
      match kind {
        case AtMarket =>
          if action == Sell {
            r := SellContracts(quantity);
          } else {
            r := BuyContracts(quantity);
          }
        case AtLimit(price, flip) =>
          if action == Sell {
            r := SellContractsLimit(quantity, price, flip);
          } else {
            r := BuyContractsLimit(quantity, price, flip);
          }
      }
    }

    /**
     * The netting loop shared by `close_all_positions` and the alert handlers: one order call
     * per non-zero position, labelled, with the filled quantities of the successes totalled.
     * Every call trades the first contract, so the whole loop trades it with its exchange
     * filled in.
     */
    method NetPositions(ps: seq<Position>, kind: Kind, labels: Labels) returns (results: seq<NettedEntry>, total: int)
      requires ib.FillsArrive()
      requires IsConnected() && Valid()
      modifies this`contracts, ib`orders, ib`subscriptions
      ensures var c := Primed(old(contracts)[0]);
        && results == NetEntries(OrderResults(ib, show, c, kind), TicketsOn(ib.quote, c, kind), labels, Quantities(ps), |old(ib.orders)|)
        && ib.orders == old(ib.orders) + NetPlacements(TicketsOn(ib.quote, c, kind), Quantities(ps))
        && contracts == (if NetOrders(Quantities(ps)) != [] then old(contracts)[0 := c] else old(contracts))
      ensures total == SumOf(results, Filled)
      ensures ib.subscriptions == old(ib.subscriptions)
    {
      ghost var c := Primed(contracts[0]);
      ghost var o0 := ib.orders;
      var qs := Quantities(ps);
      results, total := [], 0;
      var i := 0;
      while i < |ps|
        invariant 0 <= i <= |ps|
        invariant IsConnected() && Valid() && Primed(contracts[0]) == c
        invariant contracts == (if NetOrders(qs[..i]) != [] then old(contracts)[0 := c] else old(contracts))
        invariant results == NetEntries(OrderResults(ib, show, c, kind), TicketsOn(ib.quote, c, kind), labels, qs[..i], |o0|)
        invariant ib.orders == o0 + NetPlacements(TicketsOn(ib.quote, c, kind), qs[..i])
        invariant total == SumOf(results, Filled)
        invariant ib.subscriptions == old(ib.subscriptions)
      {
        PrefixSnoc(qs, i);
        results, total := NetStep(qs[i], kind, labels, c, o0, old(contracts), qs[..i], results, total);
        i := i + 1;
      }
      assert qs[..i] == qs;
    }

    /** One pass of the netting loop at size q: an order call unless q is flat. */
    method NetStep(q: int, kind: Kind, labels: Labels, ghost c: Contract, ghost o0: seq<OrderRecord>,
                   ghost cs0: seq<Contract>, ghost done: seq<int>, results: seq<NettedEntry>, total: int)
      returns (results': seq<NettedEntry>, total': int)
      requires ib.FillsArrive()
      requires IsConnected() && Valid() && Primed(contracts[0]) == c
      requires |cs0| > 0 && contracts == (if NetOrders(done) != [] then cs0[0 := c] else cs0)
      requires results == NetEntries(OrderResults(ib, show, c, kind), TicketsOn(ib.quote, c, kind), labels, done, |o0|)
      requires ib.orders == o0 + NetPlacements(TicketsOn(ib.quote, c, kind), done)
      requires total == SumOf(results, Filled)
      modifies this`contracts, ib`orders, ib`subscriptions
      ensures IsConnected() && Valid() && Primed(contracts[0]) == c
      ensures results' == NetEntries(OrderResults(ib, show, c, kind), TicketsOn(ib.quote, c, kind), labels, done + [q], |o0|)
      ensures ib.orders == o0 + NetPlacements(TicketsOn(ib.quote, c, kind), done + [q])
      ensures total' == SumOf(results', Filled)
      ensures contracts == (if NetOrders(done + [q]) != [] then cs0[0 := c] else cs0)
      ensures ib.subscriptions == old(ib.subscriptions)
    {
      ghost var before := contracts;
      if q != 0 {
        results', total' := NetAppend(q, kind, labels, c, OrderResults(ib, show, c, kind), TicketsOn(ib.quote, c, kind), o0, done,
                                      results, total);
      } else {
        NetSnoc(OrderResults(ib, show, c, kind), TicketsOn(ib.quote, c, kind), labels, done, 0, |o0|);
        AppendEmpty(NetPlacements(TicketsOn(ib.quote, c, kind), done));
        results', total' := results, total;
      }
      PrimedAfterStep(cs0, c, done, q, before, contracts);
    }

    /** One pass of the netting loop at a non-zero size q: its order call, and its entry appended. */
    method NetAppend(q: int, kind: Kind, labels: Labels, ghost c: Contract, ghost outcome: (Order, nat) -> TradeResult,
                     ghost place: Order -> seq<OrderRecord>, ghost o0: seq<OrderRecord>, ghost done: seq<int>,
                     results: seq<NettedEntry>, total: int)
      returns (results': seq<NettedEntry>, total': int)
      requires ib.FillsArrive()
      requires IsConnected() && Valid() && Primed(contracts[0]) == c
      requires q != 0 && place == TicketsOn(ib.quote, c, kind)
      requires outcome(NetOrder(q), |ib.orders|) == TicketResult(ib, show, c, kind, NetOrder(q), |ib.orders|)
      requires results == NetEntries(outcome, place, labels, done, |o0|)
      requires ib.orders == o0 + NetPlacements(place, done)
      requires total == SumOf(results, Filled)
      modifies this`contracts, ib`orders, ib`subscriptions
      ensures results' == NetEntries(outcome, place, labels, done + [q], |o0|)
      ensures ib.orders == o0 + NetPlacements(place, done + [q])
      ensures total' == SumOf(results', Filled)
      ensures contracts == old(contracts)[0 := c] && Primed(contracts[0]) == c
      ensures ib.subscriptions == old(ib.subscriptions)
    {
      ghost var before := ib.orders;
      var entry := NetOne(q, kind, labels, c, outcome, place, |before|);
      NetAppendStep(outcome, place, labels, o0, done, q, results, total, before, entry, ib.orders);
      results' := results + [entry];
      total' := total + Filled(entry);
    }

    /** `close_all_positions`: net every ES position at market. */
    method CloseAllPositions() returns (s: CloseSummary<NettedEntry>)
      requires ib.FillsArrive()
      requires Valid()
      modifies this`contracts, ib`orders, ib`subscriptions
      ensures !IsConnected() ==>
        s == CloseSummary(CloseNotConnected, 0, [])
        && contracts == old(contracts) && ib.orders == old(ib.orders)
      ensures IsConnected() ==>
        var ps := EsPositions(ib.portfolio, ib.positions);
        var c := Primed(old(contracts)[0]);
        var es := NetEntries(OrderResults(ib, show, c, AtMarket), TicketsOn(ib.quote, c, AtMarket), CloseLabels, Quantities(ps),
                             |old(ib.orders)|);
        && ib.orders == old(ib.orders) + NetPlacements(TicketsOn(ib.quote, c, AtMarket), Quantities(ps))
        && contracts == (if NetOrders(Quantities(ps)) != [] then old(contracts)[0 := c] else old(contracts))
        && s == (if ps == [] then CloseSummary(NoPositions, 0, [])
                 else Summary(es, ClosedPrefix, ContractsSuffix))
      ensures ib.subscriptions == old(ib.subscriptions)
      ensures Valid()
    {
      if !IsConnected() {
        return CloseSummary(CloseNotConnected, 0, []);
      }
      var ps, results, total := CloseRun(AtMarket, CloseLabels);
      if ps == [] {
        return CloseSummary(NoPositions, 0, []);
      }
      s := CloseSummary(ClosedPrefix + IntToString(total) + ContractsSuffix, total, results);
    }

    /**
     * The ES positions, then the netting loop over them when there are any: the part shared
     * by `close_all_positions` and the closing alert handlers.
     */
    method CloseRun(kind: Kind, labels: Labels) returns (ps: seq<Position>, results: seq<NettedEntry>, total: int)
      requires ib.FillsArrive()
      requires IsConnected() && Valid()
      modifies this`contracts, ib`orders, ib`subscriptions
      ensures ps == EsPositions(ib.portfolio, ib.positions)
      ensures var c := Primed(old(contracts)[0]);
        && results == NetEntries(OrderResults(ib, show, c, kind), TicketsOn(ib.quote, c, kind), labels, Quantities(ps), |old(ib.orders)|)
        && ib.orders == old(ib.orders) + NetPlacements(TicketsOn(ib.quote, c, kind), Quantities(ps))
        && contracts == (if NetOrders(Quantities(ps)) != [] then old(contracts)[0 := c] else old(contracts))
      ensures total == SumOf(results, Filled)
      ensures ib.subscriptions == old(ib.subscriptions)
    {
      ps := GetPositions();
      if ps == [] {
        assert Quantities(ps) == [];
        return ps, [], 0;
      }
      results, total := NetPositions(ps, kind, labels);
    }

    /** `close_all_positions_force`: close every non-zero portfolio item, whatever its symbol. */
    method CloseAllPositionsForce() returns (s: CloseSummary<ForceEntry>)
      requires ib.FillsArrive()
      modifies ib`orders
      ensures !IsConnected() ==>
        s == CloseSummary(ForceNotConnected, 0, []) && ib.orders == old(ib.orders)
      ensures IsConnected() ==>
        var open := OpenItems(ib.portfolio);
        var f := Closing(ForceResults(ib), ForceTickets, open, old(ib.orders));
        var total := SumOf(f.entries, ClosedCount);
        && ib.orders == f.orders
        && s == (if open == [] then CloseSummary(NoPositions, 0, [])
                 else CloseSummary(ClosedPrefix + WholeText(total, AnyOf(f.entries, IsClosed)) + ContractsSuffix,
                                   total, f.entries))
    {
      if !IsConnected() {
        return CloseSummary(ForceNotConnected, 0, []);
      }
      var open := OpenPortfolio();
      if open == [] {
        return CloseSummary(NoPositions, 0, []);
      }
      var results, total, anyFilled := ForceAll(open);
      s := CloseSummary(ClosedPrefix + WholeText(total, anyFilled) + ContractsSuffix, total, results);
    }

    /** `[item for item in self.ib.portfolio() if item.position != 0]`. */
    method OpenPortfolio() returns (open: seq<PortfolioItem>)
      ensures open == OpenItems(ib.portfolio)
    {
      var items := ib.portfolio;
      open := [];
      var k := 0;
      while k < |items|
        invariant 0 <= k <= |items|
        invariant open == Collect(items[..k], IsOpenItem, ItemItself)
      {
        var it := items[k];
        assert items[..k + 1] == items[..k] + [it];
        CollectSnoc(items[..k], it, IsOpenItem, ItemItself);
        if IsOpenItem(it) {
          open := open + [it];
        }
        k := k + 1;
      }
      assert items[..k] == items;
    }

    /** The loop of `close_all_positions_force` over the non-zero items. */
    method ForceAll(open: seq<PortfolioItem>) returns (results: seq<ForceEntry>, total: int, anyFilled: bool)
      requires ib.FillsArrive()
      modifies ib`orders
      ensures Run(results, ib.orders) == Closing(ForceResults(ib), ForceTickets, open, old(ib.orders))
      ensures total == SumOf(results, ClosedCount)
      ensures anyFilled == AnyOf(results, IsClosed)
    {
      ghost var close := ForceResults(ib);
      results, total, anyFilled := [], 0, false;
      var i := 0;
      while i < |open|
        invariant 0 <= i <= |open|
        invariant Closing(close, ForceTickets, open[..i], old(ib.orders)) == Run(results, ib.orders)
        invariant total == SumOf(results, ClosedCount)
        invariant anyFilled == AnyOf(results, IsClosed)
      {
        var pos := open[i];
        ClosingSnoc(close, ForceTickets, open, i, old(ib.orders));
        var entry := ForceOne(pos, close);
        SumOfSnoc(results, entry, ClosedCount);
        AnyOfSnoc(results, entry, IsClosed);
        results := results + [entry];
        if entry.outcome.Closed? {
          total := total + entry.outcome.filled;
          anyFilled := true;
        }
        i := i + 1;
      }
      assert open[..i] == open;
    }

    /** One iteration of the forced close: the market order for one item and what came of it. */
    method ForceOne(pos: PortfolioItem, ghost close: (PortfolioItem, nat) -> seq<ForceEntry>) returns (entry: ForceEntry)
      requires ib.FillsArrive()
      requires close(pos, |ib.orders|) == [ForceEntryAt(ib, pos, |ib.orders|)]
      modifies ib`orders
      ensures [entry] == close(pos, |old(ib.orders)|)
      ensures ib.orders == old(ib.orders) + ForceTickets(pos)
    {
      ghost var n := |ib.orders|;
      var c := Primed(pos.contract);
      if pos.position > 0.0 {
        var p := ib.PlaceOrder(c, MarketOrder(Sell, Trunc(pos.position) as real));
        var outcome: CloseOutcome;
        match p {
          case PlaceRaised(e) =>
            outcome := NotClosed(e);
          case Placed(t) =>
            var tick := AwaitBounded(t);
            if t.isDone(tick) {
              var st := t.statusAt(tick);
              if st.status == "Filled" {
                outcome := Closed(st.filled, st.avgFillPrice);
              } else {
                outcome := NotClosed(st.status);
              }
            } else {
              outcome := NotClosed("Timeout");
            }
            assert outcome == BoundedClose(t);
        }
        entry := ForceEntry(SellLabel, pos.contract.symbol, pos.position, outcome);
      } else {
        var p := ib.PlaceOrder(c, MarketOrder(Buy, Trunc(Abs(pos.position)) as real));
        var outcome: CloseOutcome;
        match p {
          case PlaceRaised(e) =>
            outcome := NotClosed(e);
          case Placed(t) =>
            var tick := AwaitDone(t);
            var st := t.statusAt(tick);
            if st.status == "Filled" {
              outcome := Closed(st.filled, st.avgFillPrice);
            } else {
              outcome := NotClosed(st.status);
            }
        }
        entry := ForceEntry(BuyBackLabel, pos.contract.symbol, Abs(pos.position), outcome);
      }
    }
  }
}
