/**
 * Position netting: every non-zero position is closed by one offsetting order (sell q of a
 * long q, buy |q| of a short q), and a closing run reports the sum of what was filled.
 */
module Netting {
  import opened Wrappers
  import opened Broker
  import opened Seqs

  function Abs(x: real): (r: real)
    ensures r >= 0.0 && (r == x || r == -x)
  {
    if x < 0.0 then -x else x
  }

  function AbsInt(x: int): (r: nat)
    ensures r == x || r == -x
  {
    if x < 0 then -x else x
  }

  /** Python's `int()` on a float: truncation toward zero. */
  function Trunc(x: real): (r: int)
    ensures x >= 0.0 ==> 0 <= r && r as real <= x < r as real + 1.0
    ensures x < 0.0 ==> r <= 0 && r as real - 1.0 < x <= r as real
  {
    if x >= 0.0 then x.Floor else -((-x).Floor)
  }

  /** `int(abs(x)) == abs(int(x))`: the order size of a short is the size of its truncated position. */
  lemma TruncAbs(x: real)
    ensures Trunc(Abs(x)) == AbsInt(Trunc(x))
  {
  }

  /** An order to be placed: a side and a size. */
  datatype Order = Order(action: Action, quantity: real)

  /** The change in position an order makes once filled. */
  function Signed(o: Order): real
  {
    if o.action == Buy then o.quantity else -o.quantity
  }

  /** The order that flattens a position of size q, none when it is already flat. */
  function Offset(q: real): (r: Option<Order>)
    ensures r.None? <==> q == 0.0
    ensures r.Some? ==> r.value.quantity > 0.0 && q + Signed(r.value) == 0.0
    ensures r.Some? ==> (r.value.action == Sell <==> q > 0.0)
    ensures r.Some? ==> r.value.quantity == Abs(q)
  {
    if q > 0.0 then Some(Order(Sell, q))
    else if q < 0.0 then Some(Order(Buy, -q))
    else None
  }

  /** The non-zero entries of a list of position sizes, in order. */
  function NonZero(qs: seq<real>): (r: seq<real>)
    ensures |r| <= |qs|
    ensures forall i | 0 <= i < |r| :: r[i] != 0.0
  {
    if qs == [] then []
    else if qs[|qs| - 1] == 0.0 then NonZero(qs[..|qs| - 1])
    else NonZero(qs[..|qs| - 1]) + [qs[|qs| - 1]]
  }

  /**
   * NonZero drops exactly the zero sizes: each non-zero size is kept as often as it occurs,
   * and a size is in the result just when it is a non-zero size of the list.
   */
  lemma {:induction false} NonZeroSpec(qs: seq<real>)
    ensures multiset(NonZero(qs)) == multiset(qs)[0.0 := 0]
    ensures forall x :: x in NonZero(qs) <==> x in qs && x != 0.0
  {
    if qs != [] {
      var init, q := qs[..|qs| - 1], qs[|qs| - 1];
      NonZeroSpec(init);
      assert qs == init + [q];
      assert multiset(qs) == multiset(init) + multiset{q};
    }
    forall x
      ensures x in NonZero(qs) <==> x in qs && x != 0.0
    {
      assert x in NonZero(qs) <==> x in multiset(NonZero(qs));
      assert x in qs <==> x in multiset(qs);
    }
  }

  /** The offsetting orders of a list of positions, in position order. */
  function OffsetOrders(qs: seq<real>): (r: seq<Order>)
    ensures |r| == |NonZero(qs)|
    ensures forall i | 0 <= i < |r| :: Offset(NonZero(qs)[i]) == Some(r[i])
  {
    if qs == [] then []
    else
      var q := qs[|qs| - 1];
      match Offset(q)
      case None => OffsetOrders(qs[..|qs| - 1])
      case Some(o) => OffsetOrders(qs[..|qs| - 1]) + [o]
  }

  /** Integer position sizes as the floats the netting works on. */
  function Reals(qs: seq<int>): (r: seq<real>)
    ensures |r| == |qs|
    ensures forall i | 0 <= i < |qs| :: r[i] == qs[i] as real
  {
    seq(|qs|, i requires 0 <= i < |qs| => qs[i] as real)
  }

  lemma RealsPrefix(qs: seq<int>, n: nat)
    requires n <= |qs|
    ensures Reals(qs[..n]) == Reals(qs)[..n]
  {
  }

  function Sum(qs: seq<real>): real
  {
    if qs == [] then 0.0 else Sum(qs[..|qs| - 1]) + qs[|qs| - 1]
  }

  function SignedSum(os: seq<Order>): real
  {
    if os == [] then 0.0 else SignedSum(os[..|os| - 1]) + Signed(os[|os| - 1])
  }

  /** Once every offsetting order is filled in full, the net position is zero. */
  lemma {:induction false} OffsetOrdersFlatten(qs: seq<real>)
    ensures Sum(qs) + SignedSum(OffsetOrders(qs)) == 0.0
  {
    if qs != [] {
      var init := qs[..|qs| - 1];
      OffsetOrdersFlatten(init);
      var os := OffsetOrders(qs);
      match Offset(qs[|qs| - 1])
      case None =>
      case Some(o) =>
        assert os[..|os| - 1] == OffsetOrders(init);
    }
  }

  /** A list of flat positions issues no order. */
  lemma {:induction false} FlatIssuesNothing(qs: seq<real>)
    requires forall i | 0 <= i < |qs| :: qs[i] == 0.0
    ensures OffsetOrders(qs) == []
  {
    if qs != [] {
      FlatIssuesNothing(qs[..|qs| - 1]);
    }
  }

  /** `sum(f(e) for e in es)`, folded from the left. */
  function SumOf<E>(es: seq<E>, f: E -> int): int
  {
    if es == [] then 0 else SumOf(es[..|es| - 1], f) + f(es[|es| - 1])
  }

  lemma SumOfSnoc<E>(es: seq<E>, e: E, f: E -> int)
    ensures SumOf(es + [e], f) == SumOf(es, f) + f(e)
  {
    assert (es + [e])[..|es|] == es;
  }

  /** A sum of terms that are all zero is zero. */
  lemma {:induction false} SumOfZero<E>(es: seq<E>, f: E -> int)
    requires forall i | 0 <= i < |es| :: f(es[i]) == 0
    ensures SumOf(es, f) == 0
  {
    if es != [] {
      SumOfZero(es[..|es| - 1], f);
    }
  }

  /** The side that closes a position of signed size q: sell a long, buy back a short. */
  function Side(q: int): Action
  {
    if q > 0 then Sell else Buy
  }

  /** The order a closing loop makes for a non-zero position q: |q| contracts on the closing side. */
  function NetOrder(q: int): Order
  {
    Order(Side(q), AbsInt(q) as real)
  }

  /** The order of a closing loop is the netting's offsetting order of that position. */
  lemma NetOrderIsOffset(q: int)
    requires q != 0
    ensures Offset(q as real) == Some(NetOrder(q))
  {
  }

  /** The dictionary a closing run returns. */
  datatype CloseSummary<E> = CloseSummary(message: string, closedPositions: int, results: seq<E>)

  /** What a closing loop has produced so far: its result entries and the session's order log. */
  datatype Run<E> = Run(entries: seq<E>, orders: seq<OrderRecord>)

  /**
   * A closing loop over xs, starting from the order log `orders`: each element adds the
   * entries `close` gives it, told how many orders were placed before it, and the orders
   * `place` gives it. An element that fails adds its error entry; one that is skipped adds
   * nothing.
   */
  function Closing<T, E>(close: (T, nat) -> seq<E>, place: T -> seq<OrderRecord>, xs: seq<T>,
                         orders: seq<OrderRecord>): Run<E>
    decreases |xs|
  {
    if xs == [] then Run([], orders)
    else
      var prev := Closing(close, place, xs[..|xs| - 1], orders);
      var x := xs[|xs| - 1];
      Run(prev.entries + close(x, |prev.orders|), prev.orders + place(x))
  }

  lemma ClosingSnoc<T, E>(close: (T, nat) -> seq<E>, place: T -> seq<OrderRecord>, xs: seq<T>, i: nat,
                          orders: seq<OrderRecord>)
    requires i < |xs|
    ensures var prev := Closing(close, place, xs[..i], orders);
      Closing(close, place, xs[..i + 1], orders)
        == Run(prev.entries + close(xs[i], |prev.orders|), prev.orders + place(xs[i]))
  {
    assert xs[..i + 1][..i] == xs[..i];
  }

  /** The orders of xs, concatenated in order. */
  function PlacedBy<T>(place: T -> seq<OrderRecord>, xs: seq<T>): seq<OrderRecord>
  {
    if xs == [] then [] else PlacedBy(place, xs[..|xs| - 1]) + place(xs[|xs| - 1])
  }

  /** A closing loop keeps the orders logged before it and appends those of its elements, in order. */
  lemma {:induction false} ClosingOrders<T, E>(close: (T, nat) -> seq<E>, place: T -> seq<OrderRecord>, xs: seq<T>,
                                               orders: seq<OrderRecord>)
    ensures Closing(close, place, xs, orders).orders == orders + PlacedBy(place, xs)
    decreases |xs|
  {
    if xs != [] {
      var init := xs[..|xs| - 1];
      ClosingOrders(close, place, init, orders);
      AppendAssoc(orders, PlacedBy(place, init), place(xs[|xs| - 1]));
    }
  }

  /** How many elements of xs satisfy keep. */
  function Count<T>(xs: seq<T>, keep: T -> bool): (r: nat)
    ensures r <= |xs|
  {
    if xs == [] then 0 else Count(xs[..|xs| - 1], keep) + (if keep(xs[|xs| - 1]) then 1 else 0)
  }

  /**
   * When an element yields one entry if it is kept and none otherwise, whatever was placed
   * before it, a run has one entry per kept element.
   */
  lemma {:induction false} ClosingCount<T, E>(close: (T, nat) -> seq<E>, place: T -> seq<OrderRecord>, xs: seq<T>,
                                              orders: seq<OrderRecord>, keep: T -> bool)
    requires forall x, n: nat :: |close(x, n)| == (if keep(x) then 1 else 0)
    ensures |Closing(close, place, xs, orders).entries| == Count(xs, keep)
    decreases |xs|
  {
    if xs != [] {
      var init := xs[..|xs| - 1];
      ClosingCount(close, place, init, orders, keep);
      var prev := Closing(close, place, init, orders);
      assert |close(xs[|xs| - 1], |prev.orders|)| == (if keep(xs[|xs| - 1]) then 1 else 0);
    }
  }

  /**
   * When every element yields exactly one entry and places exactly one order, entry i is
   * what close gives xs[i] after |orders| + i orders, and the i-th new order is xs[i]'s.
   */
  lemma {:induction false} ClosingOneEach<T, E>(close: (T, nat) -> seq<E>, place: T -> seq<OrderRecord>, xs: seq<T>,
                                                orders: seq<OrderRecord>)
    requires forall i, n: nat | 0 <= i < |xs| :: |close(xs[i], n)| == 1
    requires forall i | 0 <= i < |xs| :: |place(xs[i])| == 1
    ensures var r := Closing(close, place, xs, orders);
      && |r.entries| == |xs|
      && |r.orders| == |orders| + |xs|
      && r.orders[..|orders|] == orders
      && forall i | 0 <= i < |xs| ::
           r.entries[i] == close(xs[i], |orders| + i)[0] && r.orders[|orders| + i] == place(xs[i])[0]
    decreases |xs|
  {
    if xs != [] {
      var k := |xs| - 1;
      var init := xs[..k];
      assert forall i | 0 <= i < k :: init[i] == xs[i];
      ClosingOneEach(close, place, init, orders);
      var prev := Closing(close, place, init, orders);
      var r := Closing(close, place, xs, orders);
      assert |close(xs[k], |prev.orders|)| == 1;
      assert |place(xs[k])| == 1;
      assert r.entries == prev.entries + close(xs[k], |prev.orders|);
      assert r.orders == prev.orders + place(xs[k]);
      forall i | 0 <= i < |xs|
        ensures r.entries[i] == close(xs[i], |orders| + i)[0] && r.orders[|orders| + i] == place(xs[i])[0]
      {
        if i < k {
          assert r.entries[i] == prev.entries[i];
          assert r.orders[|orders| + i] == prev.orders[|orders| + i];
        }
      }
    }
  }

  /**
   * When every element yields one entry that does not depend on the orders before it and
   * places nothing, the run keeps the order log and has element i's entry at i.
   */
  lemma {:induction false} ClosingPlacesNone<T, E>(close: (T, nat) -> seq<E>, place: T -> seq<OrderRecord>, xs: seq<T>,
                                                   orders: seq<OrderRecord>, entry: T -> E)
    requires forall i, n: nat | 0 <= i < |xs| :: close(xs[i], n) == [entry(xs[i])]
    requires forall i | 0 <= i < |xs| :: place(xs[i]) == []
    ensures var r := Closing(close, place, xs, orders);
      r.orders == orders && |r.entries| == |xs| && forall i | 0 <= i < |xs| :: r.entries[i] == entry(xs[i])
    decreases |xs|
  {
    if xs != [] {
      var k := |xs| - 1;
      var init := xs[..k];
      assert forall i | 0 <= i < k :: init[i] == xs[i];
      ClosingPlacesNone(close, place, init, orders, entry);
      var prev := Closing(close, place, init, orders);
      var r := Closing(close, place, xs, orders);
      assert close(xs[k], |prev.orders|) == [entry(xs[k])];
      assert place(xs[k]) == [];
      assert r.entries == prev.entries + [entry(xs[k])];
      assert r.orders == prev.orders + [];
      forall i | 0 <= i < |xs|
        ensures r.entries[i] == entry(xs[i])
      {
        if i < k {
          assert r.entries[i] == prev.entries[i];
        }
      }
    }
  }

  /** Whether some entry of es satisfies p, folded from the left. */
  predicate AnyOf<E>(es: seq<E>, p: E -> bool)
  {
    es != [] && (AnyOf(es[..|es| - 1], p) || p(es[|es| - 1]))
  }

  lemma AnyOfSnoc<E>(es: seq<E>, e: E, p: E -> bool)
    ensures AnyOf(es + [e], p) == (AnyOf(es, p) || p(e))
  {
    assert (es + [e])[..|es|] == es;
  }

  lemma {:induction false} AnyOfSpec<E>(es: seq<E>, p: E -> bool)
    ensures AnyOf(es, p) <==> exists i :: 0 <= i < |es| && p(es[i])
  {
    if es != [] {
      var init := es[..|es| - 1];
      AnyOfSpec(init, p);
      if exists i :: 0 <= i < |es| && p(es[i]) {
        var i :| 0 <= i < |es| && p(es[i]);
        if i < |init| {
          assert init[i] == es[i];
        }
      }
      if AnyOf(init, p) {
        var i :| 0 <= i < |init| && p(init[i]);
        assert es[i] == init[i];
      }
    }
  }

  /** Adding the entries of one pass of a closing loop (at most one) to its results, total and float flag. */
  method Tally<E>(results: seq<E>, total: int, anyFilled: bool, es: seq<E>, fill: E -> int, closed: E -> bool)
    returns (results': seq<E>, total': int, anyFilled': bool)
    requires |es| <= 1
    requires total == SumOf(results, fill) && anyFilled == AnyOf(results, closed)
    ensures results' == results + es
    ensures total' == SumOf(results', fill) && anyFilled' == AnyOf(results', closed)
  {
    if es == [] {
      assert results + es == results;
      return results, total, anyFilled;
    }
    var e := es[0];
    assert es == [e];
    SumOfSnoc(results, e, fill);
    AnyOfSnoc(results, e, closed);
    results' := results + [e];
    total' := total + fill(e);
    anyFilled' := anyFilled || closed(e);
  }
}
