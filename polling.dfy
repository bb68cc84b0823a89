/**
 * Waiting for a placed order and reading its outcome. A wait polls `isDone()` once per tick
 * of 0.1 s: the unbounded wait stops at the first done tick, the bounded wait also stops
 * after 30 s (300 ticks). The order status is read at the tick where the wait stops.
 */
module Polling {
  import opened Wrappers
  import opened Broker
  import opened Models
  import opened Text

  /** 30 s of 0.1 s polls. */
  const TimeoutTicks: nat := 300

  /** No poll before tick k saw the trade done. */
  ghost predicate NotDoneBefore(t: Trade, k: nat)
  {
    forall i: nat | i < k :: !t.isDone(i)
  }

  /** Tick k is the first poll that sees the trade done. */
  ghost predicate FirstDone(t: Trade, k: nat)
  {
    t.isDone(k) && NotDoneBefore(t, k)
  }

  lemma {:induction false} FirstDoneExists(t: Trade, k: nat)
    requires t.isDone(k)
    ensures exists j: nat :: j <= k && FirstDone(t, j)
    decreases k
  {
    if NotDoneBefore(t, k) {
      assert FirstDone(t, k);
    } else {
      var i: nat :| i < k && t.isDone(i);
      FirstDoneExists(t, i);
    }
  }

  /** The tick at which an unbounded wait on a trade that settles stops. */
  ghost function SettleTick(t: Trade): (k: nat)
    requires Settles(t)
    ensures FirstDone(t, k)
    ensures forall j: nat | FirstDone(t, j) :: j == k
  {
    var k0: nat :| t.isDone(k0);
    FirstDoneExists(t, k0);
    var k: nat :| FirstDone(t, k);
    k
  }

  /** `while not trade.isDone(): await asyncio.sleep(0.1)`. */
  method AwaitDone(t: Trade) returns (tick: nat)
    requires Settles(t)
    ensures tick == SettleTick(t)
  {
    ghost var k := SettleTick(t);
    tick := 0;
    while !t.isDone(tick)
      invariant tick <= k
      invariant NotDoneBefore(t, tick)
      decreases k - tick
    {
      tick := tick + 1;
    }
  }

  /** The tick at which the bounded wait stops when it is at tick i. */
  function StopTick(t: Trade, i: nat): (k: nat)
    requires i <= TimeoutTicks
    ensures i <= k <= TimeoutTicks
    ensures t.isDone(k) || k == TimeoutTicks
    ensures forall j: nat | i <= j < k :: !t.isDone(j)
    decreases TimeoutTicks - i
  {
    if t.isDone(i) || i == TimeoutTicks then i else StopTick(t, i + 1)
  }

  /** `while not trade.isDone() and waited < timeout: await asyncio.sleep(0.1); waited += 0.1`. */
  method AwaitBounded(t: Trade) returns (tick: nat)
    ensures tick == StopTick(t, 0)
  {
    tick := 0;
    while !t.isDone(tick) && tick < TimeoutTicks
      invariant tick <= TimeoutTicks
      invariant StopTick(t, tick) == StopTick(t, 0)
      decreases TimeoutTicks - tick
    {
      tick := tick + 1;
    }
  }

  /**
   * The bounded wait agrees with the unbounded one whenever the trade is done within 30 s,
   * and is cut off at 300 ticks otherwise.
   */
  lemma {:induction false} BoundedWaitAgrees(t: Trade)
    ensures t.isDone(StopTick(t, 0)) <==> exists k: nat :: k <= TimeoutTicks && t.isDone(k)
    ensures t.isDone(StopTick(t, 0)) ==> Settles(t) && StopTick(t, 0) == SettleTick(t)
    ensures !t.isDone(StopTick(t, 0)) ==> StopTick(t, 0) == TimeoutTicks && NotDoneBefore(t, TimeoutTicks + 1)
  {
    var k := StopTick(t, 0);
    if t.isDone(k) {
      assert FirstDone(t, k);
      assert Settles(t);
    } else {
      assert k == TimeoutTicks;
      forall i: nat | i <= TimeoutTicks
        ensures !t.isDone(i)
      {
        if i < k {
        }
      }
    }
  }

  /** The message fragments of one order method: success text, not-filled prefix, exception prefix. */
  datatype Wording = Wording(filled: string, notFilled: string, error: string)

  /**
   * The TradeResult built from the status of a done trade: success exactly when the status
   * is 'Filled', then with the filled quantity and average price, both also written into the
   * message (the quantity as Python prints a float, the price as `show` prints it); the order
   * id always.
   */
  function DoneResult(st: OrderStatus, orderId: int, w: Wording, show: real -> string): (r: TradeResult)
    ensures r.success <==> st.status == "Filled"
    ensures r.orderId == Some(orderId)
    ensures r.success ==>
      r.message == w.filled + " " + WholeText(st.filled, true) + " contracts at $" + show(st.avgFillPrice)
      && r.filledQuantity == Some(st.filled as int) && r.averagePrice == Some(st.avgFillPrice)
    ensures !r.success ==> r.message == w.notFilled + st.status
                           && r.filledQuantity.None? && r.averagePrice.None?
  {
    if st.status == "Filled" then
      TradeResult(true, w.filled + " " + WholeText(st.filled, true) + " contracts at $" + show(st.avgFillPrice),
                  Some(orderId), Some(st.filled as int), Some(st.avgFillPrice))
    else
      TradeResult(false, w.notFilled + st.status, Some(orderId), None, None)
  }

  /** What an order method returns for a placement after waiting without bound. */
  ghost function SettledResult(p: Placement, w: Wording, show: real -> string): (r: TradeResult)
    requires p.Placed? ==> Settles(p.trade)
    ensures p.PlaceRaised? ==> r == Failed(w.error + p.error)
    ensures p.Placed? ==> r == DoneResult(p.trade.statusAt(SettleTick(p.trade)), p.trade.orderId, w, show)
  {
    match p
    case PlaceRaised(e) => Failed(w.error + e)
    case Placed(t) => DoneResult(t.statusAt(SettleTick(t)), t.orderId, w, show)
  }

  /** Every success an order method returns comes from a placed order and carries a filled quantity and a price. */
  lemma SuccessCarriesFill(p: Placement, w: Wording, show: real -> string)
    requires p.Placed? ==> Settles(p.trade)
    ensures SettledResult(p, w, show).success ==>
      p.Placed?
      && SettledResult(p, w, show).filledQuantity == Some(p.trade.statusAt(SettleTick(p.trade)).filled as int)
      && SettledResult(p, w, show).averagePrice == Some(p.trade.statusAt(SettleTick(p.trade)).avgFillPrice)
  {
  }

  /** The dictionary of the step-by-step order methods; a failure has an order id once an order was placed. */
  datatype DetailedResult =
    | DetailedFilled(filledQuantity: nat, averagePrice: real, orderId: int)
    | DetailedFailed(error: string, placedId: Option<int>)

  /** The outcome after the bounded wait: filled, another final status, or 'Timeout'. */
  function BoundedOutcome(t: Trade): DetailedResult
  {
    var k := StopTick(t, 0);
    if t.isDone(k) then
      var st := t.statusAt(k);
      if st.status == "Filled" then DetailedFilled(st.filled, st.avgFillPrice, t.orderId)
      else DetailedFailed(st.status, Some(t.orderId))
    else DetailedFailed("Timeout", Some(t.orderId))
  }

  /**
   * The outcome in terms of the trade alone: when the trade is first seen done within 30 s
   * the outcome is read from the status at that poll (filled exactly when it is 'Filled');
   * when no poll up to 30 s sees it done the outcome is 'Timeout'. The order id is always kept.
   */
  lemma {:induction false} BoundedOutcomeSpec(t: Trade)
    ensures NotDoneBefore(t, TimeoutTicks + 1) ==> BoundedOutcome(t) == DetailedFailed("Timeout", Some(t.orderId))
    ensures !NotDoneBefore(t, TimeoutTicks + 1) ==> Settles(t) && SettleTick(t) <= TimeoutTicks
    ensures Settles(t) && SettleTick(t) <= TimeoutTicks ==>
      var st := t.statusAt(SettleTick(t));
      BoundedOutcome(t) == (if st.status == "Filled" then DetailedFilled(st.filled, st.avgFillPrice, t.orderId)
                            else DetailedFailed(st.status, Some(t.orderId)))
  {
    BoundedWaitAgrees(t);
    var k := StopTick(t, 0);
    if !NotDoneBefore(t, TimeoutTicks + 1) {
      var i: nat :| i <= TimeoutTicks && t.isDone(i);
      assert t.isDone(k);
    }
    if Settles(t) && SettleTick(t) <= TimeoutTicks {
      assert !NotDoneBefore(t, TimeoutTicks + 1);
    }
  }

  /** What closing one position came to: its fill, or the status or error that stopped it. */
  datatype CloseOutcome = Closed(filled: nat, price: real) | NotClosed(error: string)

  /** The outcome after the 30 s wait of a long position's order. */
  function BoundedClose(t: Trade): CloseOutcome
  {
    match BoundedOutcome(t)
    case DetailedFilled(f, p, _) => Closed(f, p)
    case DetailedFailed(e, _) => NotClosed(e)
  }

  /** The outcome after the unbounded wait of a short position's order. */
  ghost function SettledClose(t: Trade): CloseOutcome
    requires Settles(t)
  {
    var st := t.statusAt(SettleTick(t));
    if st.status == "Filled" then Closed(st.filled, st.avgFillPrice) else NotClosed(st.status)
  }

  /** The texts of a buy of one instrument: what is bought, and the name of its order. */
  datatype BuyWording = BuyWording(units: string, order: string)

  /**
   * The result of a single-instrument buy once its order is placed and has settled: success
   * exactly when the status is 'Filled', then with the fill, also written into
   * 'Successfully bought N <units> at $P'; `show` is how Python prints a float price.
   */
  ghost function BoughtResult(p: Placement, w: BuyWording, show: real -> string): (r: TradeResult)
    requires p.Placed? ==> Settles(p.trade)
    ensures r.success <==> p.Placed? && p.trade.statusAt(SettleTick(p.trade)).status == "Filled"
    ensures r.success ==>
      var st := p.trade.statusAt(SettleTick(p.trade));
      r.filledQuantity == Some(st.filled as int) && r.averagePrice == Some(st.avgFillPrice)
      && r.orderId == Some(p.trade.orderId)
      && r.message == "Successfully bought " + WholeText(st.filled, true) + " " + w.units + " at $" + show(st.avgFillPrice)
    ensures !r.success ==> r.filledQuantity.None? && r.averagePrice.None?
    ensures p.PlaceRaised? ==> r == Failed("Error placing " + w.order + ": " + p.error)
    ensures p.Placed? && !r.success ==>
      r.orderId == Some(p.trade.orderId)
      && r.message == w.order + " not filled: " + p.trade.statusAt(SettleTick(p.trade)).status
  {
    match p
    case PlaceRaised(e) => Failed("Error placing " + w.order + ": " + e)
    case Placed(t) =>
      var st := t.statusAt(SettleTick(t));
      if st.status == "Filled" then
        TradeResult(true, "Successfully bought " + WholeText(st.filled, true) + " " + w.units + " at $" + show(st.avgFillPrice),
                    Some(t.orderId), Some(st.filled), Some(st.avgFillPrice))
      else TradeResult(false, w.order + " not filled: " + st.status, Some(t.orderId), None, None)
  }

  /** Waiting for a buy's order without bound and reading its result. */
  method AwaitBought(p: Placement, w: BuyWording, show: real -> string) returns (r: TradeResult)
    requires p.Placed? ==> Settles(p.trade)
    ensures r == BoughtResult(p, w, show)
  {
    match p {
      case PlaceRaised(e) =>
        r := Failed("Error placing " + w.order + ": " + e);
      case Placed(t) =>
        var tick := AwaitDone(t);
        var st := t.statusAt(tick);
        if st.status == "Filled" {
          r := TradeResult(true, "Successfully bought " + WholeText(st.filled, true) + " " + w.units + " at $" + show(st.avgFillPrice),
                           Some(t.orderId), Some(st.filled), Some(st.avgFillPrice));
        } else {
          r := TradeResult(false, w.order + " not filled: " + st.status, Some(t.orderId), None, None);
        }
    }
  }

  /** The outcome of a close after waiting without bound (the method form of `SettledClose`). */
  method AwaitClose(t: Trade) returns (o: CloseOutcome)
    requires Settles(t)
    ensures o == SettledClose(t)
  {
    var tick := AwaitDone(t);
    var st := t.statusAt(tick);
    o := if st.status == "Filled" then Closed(st.filled, st.avgFillPrice) else NotClosed(st.status);
  }
}
