/**
 * The paper-trading session held by the candlestick chart component. Each
 * handler is one atomic transition of the component's state fields.
 */
module ChartSession {
  import opened Wrappers
  import opened Ledger
  import opened Triggers
  import opened Candles

  const InitialBalance: real := 1000.0

  class Session {
    var data: seq<Candle>
    var latestPrice: Option<real>
    var balance: real
    /** The order size chosen in the header; it is not validated. */
    var quantity: real
    var orders: seq<Order>
    var profitLoss: real

    constructor ()
      ensures data == [] && latestPrice == None && orders == []
      ensures balance == InitialBalance && quantity == 1.0 && profitLoss == 0.0
    {
      data := [];
      latestPrice := None;
      balance := InitialBalance;
      quantity := 1.0;
      orders := [];
      profitLoss := 0.0;
    }

    method SetQuantity(q: real)
      modifies this`quantity
      ensures quantity == q
    {
      quantity := q;
    }

    /**
     * Opens an order of `side` at the latest price with the current quantity
     * and no protective levels; a buy debits and a sell credits its value.
     * Without a price nothing happens. `id` stands for the random id.
     */
    method PlaceOrder(side: Side, id: OrderId)
      modifies this`balance, this`orders
      ensures latestPrice.None? ==> balance == old(balance) && orders == old(orders)
      ensures latestPrice.Some? ==>
        && balance == old(balance) + OpenTransfer(side, latestPrice.value, quantity)
        && orders == old(orders) + [Order(id, side, quantity, latestPrice.value, None, None)]
      ensures UniqueIds(old(orders)) && Find(old(orders), id).None? ==> UniqueIds(orders)
    {
      if latestPrice.None? {
        return;
      }
      var p := latestPrice.value;
      var order := Order(id, side, quantity, p, None, None);
      if side == Buy {
        balance := balance - p * quantity;
      } else {
        balance := balance + p * quantity;
      }
      orders := orders + [order];
    }

    /**
     * The body of closeOrder when its lookup sees the ledger `view` of the
     * render it was created in, while the balance credit and the removal apply
     * to the live state. Without a price, or when `view` has no order with `id`,
     * nothing happens; otherwise the first such order is credited at the latest
     * price and every live order with `id` is removed.
     */
    method CloseWithLookup(view: seq<Order>, id: OrderId)
      modifies this`balance, this`orders
      ensures latestPrice.None? || Find(view, id).None? ==>
        balance == old(balance) && orders == old(orders)
      ensures latestPrice.Some? && Find(view, id).Some? ==>
        && balance == old(balance) + CloseCredit(Find(view, id).value, latestPrice.value)
        && orders == RemoveIds(old(orders), {id})
    {
      if latestPrice.None? {
        return;
      }
      var toClose := Find(view, id);
      if toClose.None? {
        return;
      }
      var o := toClose.value;
      var p := latestPrice.value;
      var profit := 0.0;
      if o.side == Buy {
        profit := (p - o.price) * o.quantity;
      } else {
        profit := (o.price - p) * o.quantity;
      }
      balance := balance + o.price * o.quantity + profit;
      orders := RemoveIds(orders, {id});
    }

    /** Manual close from the order table: the lookup sees the current ledger. */
    method CloseOrder(id: OrderId)
      modifies this`balance, this`orders
      ensures latestPrice.None? || Find(old(orders), id).None? ==>
        balance == old(balance) && orders == old(orders)
      ensures latestPrice.Some? && Find(old(orders), id).Some? ==>
        && balance == old(balance) + CloseCredit(Find(old(orders), id).value, latestPrice.value)
        && orders == RemoveIds(old(orders), {id})
        && |orders| < |old(orders)|
    {
      CloseWithLookup(orders, id);
      if Find(old(orders), id).Some? {
        RemoveIdsShrinks(old(orders), Find(old(orders), id).value, {id});
      }
    }

    /** Sets the stop-loss of every order with `id`; nothing else changes. */
    method UpdateOrderStopLoss(id: OrderId, value: real)
      modifies this`orders
      ensures orders == UpdateLevel(old(orders), id, StopLossLevel, value)
    {
      orders := UpdateLevel(orders, id, StopLossLevel, value);
    }

    /** Sets the take-profit of every order with `id`; nothing else changes. */
    method UpdateOrderTakeProfit(id: OrderId, value: real)
      modifies this`orders
      ensures orders == UpdateLevel(old(orders), id, TakeProfitLevel, value)
    {
      orders := UpdateLevel(orders, id, TakeProfitLevel, value);
    }

    /** Applies an edit requested by the order table. */
    method ApplyLevelUpdate(u: LevelUpdate)
      modifies this`orders
      ensures orders == UpdateLevel(old(orders), u.id, u.level, u.value)
    {
      if u.level == StopLossLevel {
        UpdateOrderStopLoss(u.id, u.value);
      } else {
        UpdateOrderTakeProfit(u.id, u.value);
      }
    }

    /**
     * The trigger pass's callback for one `order` of the `snapshot`: each
     * condition that holds calls closeOrder with the snapshot as its lookup.
     */
    method VisitOrder(snapshot: seq<Order>, order: Order, ghost fired: set<OrderId>)
      requires latestPrice.Some? && order in snapshot
      requires orders == RemoveIds(snapshot, fired)
      modifies this`balance, this`orders
      ensures balance == old(balance) + OrderPassCredit(snapshot, order, latestPrice.value)
      ensures orders == RemoveIds(snapshot, fired + if Fires(order, latestPrice.value) then {order.id} else {})
    {
      var p := latestPrice.value;
      if !Fires(order, p) {
        assert fired + {} == fired;
      }
      if StopLossHit(order, p) {
        CloseWithLookup(snapshot, order.id);
        RemoveIdsTwice(snapshot, fired, {order.id});
      }
      if TakeProfitHit(order, p) {
        CloseWithLookup(snapshot, order.id);
        if StopLossHit(order, p) {
          RemoveIdsTwice(snapshot, fired + {order.id}, {order.id});
          assert fired + {order.id} + {order.id} == fired + {order.id};
        } else {
          RemoveIdsTwice(snapshot, fired, {order.id});
        }
      }
    }

    /**
     * The stop-loss / take-profit pass over a snapshot of the ledger. Nothing
     * happens without a price or orders; otherwise the balance gains
     * `PassCredit` and every order whose id fired is removed.
     */
    method CheckTriggers()
      modifies this`balance, this`orders
      ensures latestPrice.None? || old(orders) == [] ==>
        balance == old(balance) && orders == old(orders)
      ensures latestPrice.Some? ==>
        && balance == old(balance) + PassCredit(old(orders), old(orders), latestPrice.value)
        && orders == RemoveIds(old(orders), FiredIds(old(orders), latestPrice.value))
    {
      if latestPrice.None? || |orders| == 0 {
        return;
      }
      var p := latestPrice.value;
      var snapshot := orders;
      RemoveAbsentIds(snapshot, {});
      PassStart(snapshot, p);
      var i := 0;
      ghost var fired: set<OrderId> := {};
      while i < |snapshot|
        invariant 0 <= i <= |snapshot|
        invariant balance == old(balance) + PassCredit(snapshot, snapshot[..i], p)
        invariant fired == FiredIds(snapshot[..i], p) && orders == RemoveIds(snapshot, fired)
      {
        PassPrefixStep(snapshot, i, p);
        VisitOrder(snapshot, snapshot[i], fired);
        fired := fired + if Fires(snapshot[i], p) then {snapshot[i].id} else {};
        i := i + 1;
      }
      assert snapshot[..i] == snapshot;
    }

    /**
     * The P/L effect: with a price and at least one order, `profitLoss`
     * becomes the aggregate P/L; otherwise it keeps its previous value,
     * so an emptied ledger leaves the last aggregate on display.
     */
    method RecomputeProfitLoss()
      modifies this`profitLoss
      ensures latestPrice.Some? && orders != [] ==> profitLoss == SumPnL(orders, latestPrice.value)
      ensures latestPrice.None? || orders == [] ==> profitLoss == old(profitLoss)
    {
      if latestPrice.None? || |orders| == 0 {
        return;
      }
      profitLoss := TotalProfitLoss(orders, latestPrice.value);
    }

    /** A live kline: merged into the candle list, its close becomes the latest price. */
    method IngestKline(c: Candle)
      modifies this`data, this`latestPrice
      ensures data == MergeKline(old(data), c)
      ensures latestPrice == Some(c.close)
    {
      data := MergeKline(data, c);
      latestPrice := Some(c.close);
    }

    /**
     * A completed historical load replaces the candle list. The last candle's
     * close becomes the latest price; an empty load has no last candle, the
     * read of it throws after the list was replaced and the latest price stays.
     */
    method LoadHistory(history: seq<Candle>)
      modifies this`data, this`latestPrice
      ensures data == history
      ensures |history| > 0 ==> latestPrice == Some(history[|history| - 1].close)
      ensures |history| == 0 ==> latestPrice == old(latestPrice)
    {
      data := history;
      if |history| > 0 {
        latestPrice := Some(history[|history| - 1].close);
      }
    }
  }
}
