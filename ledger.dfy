/**
 * The open-order ledger of the paper-trading session: the `Order` record,
 * the per-order profit, the balance transfers made on opening and closing,
 * and the list operations the session applies to its `orders` state
 * (find, filter by id, set a protective level, aggregate P/L).
 */
module Ledger {
  import opened Wrappers

  /** Order ids are opaque strings (random base-36 text in the application). */
  type OrderId = string

  datatype Side = Buy | Sell

  /** An open position; `price` is the entry price. */
  datatype Order = Order(
    id: OrderId,
    side: Side,
    quantity: real,
    price: real,
    stopLoss: Option<real>,
    takeProfit: Option<real>)

  /** Which protective level an edit addresses. */
  datatype Level = StopLossLevel | TakeProfitLevel

  /** The edit the order table asks the session to make. */
  datatype LevelUpdate = LevelUpdate(id: OrderId, level: Level, value: real)

  predicate UniqueIds(orders: seq<Order>) {
    forall i, j :: 0 <= i < j < |orders| ==> orders[i].id != orders[j].id
  }

  /** Signed unrealised profit of `o` at price `p`. */
  function Profit(o: Order, p: real): real {
    match o.side
    case Buy => (p - o.price) * o.quantity
    case Sell => (o.price - p) * o.quantity
  }

  /** Balance change when an order of `side` is opened at `p` for `q`: a buy debits, a sell credits. */
  function OpenTransfer(side: Side, p: real, q: real): real {
    match side
    case Buy => -(p * q)
    case Sell => p * q
  }

  /** What closing `o` at `p` credits to the balance: the entry value plus the profit. */
  function CloseCredit(o: Order, p: real): real {
    o.price * o.quantity + Profit(o, p)
  }

  /** Closing a buy refunds its current market value; closing a sell pays twice the entry value less the current value. */
  lemma CloseCreditValue(o: Order, p: real)
    ensures o.side == Buy ==> CloseCredit(o, p) == p * o.quantity
    ensures o.side == Sell ==> CloseCredit(o, p) == (2.0 * o.price - p) * o.quantity
  {
  }

  /**
   * Opening an order at `p` and closing it at the same price: a buy leaves the
   * balance where it was, a sell leaves it raised by twice the position value.
   */
  lemma RoundTripAtSamePrice(id: OrderId, side: Side, p: real, q: real)
    ensures var o := Order(id, side, q, p, None, None);
      OpenTransfer(side, p, q) + CloseCredit(o, p) == if side == Buy then 0.0 else 2.0 * p * q
  {
  }

  /** Index of the first order with `id`, as `Array.prototype.find` scans. */
  function FindIndex(orders: seq<Order>, id: OrderId): (r: Option<nat>)
    ensures r.Some? ==> r.value < |orders| && orders[r.value].id == id
    ensures r.Some? ==> forall j :: 0 <= j < r.value ==> orders[j].id != id
    ensures r.None? ==> forall o :: o in orders ==> o.id != id
  {
    if orders == [] then None
    else if orders[0].id == id then Some(0)
    else match FindIndex(orders[1..], id)
      case None => None
      case Some(k) => Some(k + 1)
  }

  /** The first order with `id`, or None when there is none. */
  function Find(orders: seq<Order>, id: OrderId): (r: Option<Order>)
    ensures r.Some? ==> r.value in orders && r.value.id == id
    ensures r.Some? ==>
      exists k :: 0 <= k < |orders| && orders[k] == r.value && forall j :: 0 <= j < k ==> orders[j].id != id
    ensures r.None? <==> forall o :: o in orders ==> o.id != id
  {
    match FindIndex(orders, id)
    case None => None
    case Some(k) => Some(orders[k])
  }

  /** With unique ids, looking up the id of a listed order finds that very order. */
  lemma FindListed(orders: seq<Order>, o: Order)
    requires UniqueIds(orders) && o in orders
    ensures Find(orders, o.id) == Some(o)
  {
    var i :| 0 <= i < |orders| && orders[i] == o;
    var k := FindIndex(orders, o.id).value;
    assert orders[k].id == orders[i].id;
  }

  /** `orders` without every order whose id is in `ids`; the rest keep their order. */
  function RemoveIds(orders: seq<Order>, ids: set<OrderId>): (r: seq<Order>)
    ensures |r| <= |orders|
    ensures forall o :: o in r <==> o in orders && o.id !in ids
  {
    if orders == [] then []
    else if orders[0].id in ids then RemoveIds(orders[1..], ids)
    else [orders[0]] + RemoveIds(orders[1..], ids)
  }

  /** Filtering distributes over concatenation, so relative order is kept. */
  lemma {:induction false} RemoveIdsAppend(a: seq<Order>, b: seq<Order>, ids: set<OrderId>)
    ensures RemoveIds(a + b, ids) == RemoveIds(a, ids) + RemoveIds(b, ids)
  {
    if a == [] {
      assert a + b == b;
    } else {
      assert (a + b)[0] == a[0];
      assert (a + b)[1..] == a[1..] + b;
      RemoveIdsAppend(a[1..], b, ids);
    }
  }

  /** Removing one set of ids and then another is removing their union. */
  lemma {:induction false} RemoveIdsTwice(s: seq<Order>, a: set<OrderId>, b: set<OrderId>)
    ensures RemoveIds(RemoveIds(s, a), b) == RemoveIds(s, a + b)
  {
    if s != [] {
      RemoveIdsTwice(s[1..], a, b);
      if s[0].id !in a {
        assert RemoveIds(s, a) == [s[0]] + RemoveIds(s[1..], a);
        assert RemoveIds(s, a)[0] == s[0];
        assert RemoveIds(s, a)[1..] == RemoveIds(s[1..], a);
      }
    }
  }

  /** Removing an id some order carries shortens the ledger. */
  lemma {:induction false} RemoveIdsShrinks(s: seq<Order>, o: Order, ids: set<OrderId>)
    requires o in s && o.id in ids
    ensures |RemoveIds(s, ids)| < |s|
  {
    if s[0] != o {
      RemoveIdsShrinks(s[1..], o, ids);
    }
  }

  /** Removing ids no order carries changes nothing. */
  lemma {:induction false} RemoveAbsentIds(s: seq<Order>, ids: set<OrderId>)
    requires forall o :: o in s ==> o.id !in ids
    ensures RemoveIds(s, ids) == s
  {
    if s != [] {
      assert s[0] in s;
      RemoveAbsentIds(s[1..], ids);
      assert s == [s[0]] + s[1..];
    }
  }

  /** Every order stays unique after filtering. */
  lemma {:induction false} RemoveIdsKeepsUnique(s: seq<Order>, ids: set<OrderId>)
    requires UniqueIds(s)
    ensures UniqueIds(RemoveIds(s, ids))
  {
    if s != [] {
      RemoveIdsKeepsUnique(s[1..], ids);
      if s[0].id !in ids {
        var rest := RemoveIds(s[1..], ids);
        forall o | o in rest ensures o.id != s[0].id {
          var k :| 0 <= k < |s[1..]| && s[1..][k] == o;
          assert s[k + 1] == o;
        }
      }
    }
  }

  /** `o` with the addressed level set to `v`. */
  function SetLevel(o: Order, level: Level, v: real): Order {
    match level
    case StopLossLevel => o.(stopLoss := Some(v))
    case TakeProfitLevel => o.(takeProfit := Some(v))
  }

  /**
   * The ledger after setting `level` to `v` on every order with `id`: same
   * length and order, every order keeps its id, side, quantity, entry price and
   * the other level, and only the addressed level of matching orders changes.
   */
  function UpdateLevel(orders: seq<Order>, id: OrderId, level: Level, v: real): (r: seq<Order>)
    ensures |r| == |orders|
    ensures forall k :: 0 <= k < |orders| ==>
      && r[k].id == orders[k].id && r[k].side == orders[k].side
      && r[k].quantity == orders[k].quantity && r[k].price == orders[k].price
    ensures forall k :: 0 <= k < |orders| ==>
      && (level == StopLossLevel ==> r[k].takeProfit == orders[k].takeProfit)
      && (level == TakeProfitLevel ==> r[k].stopLoss == orders[k].stopLoss)
    ensures forall k :: 0 <= k < |orders| ==>
      && (level == StopLossLevel ==>
            r[k].stopLoss == if orders[k].id == id then Some(v) else orders[k].stopLoss)
      && (level == TakeProfitLevel ==>
            r[k].takeProfit == if orders[k].id == id then Some(v) else orders[k].takeProfit)
  {
    seq(|orders|, k requires 0 <= k < |orders| =>
      if orders[k].id == id then SetLevel(orders[k], level, v) else orders[k])
  }

  /** An edit addressed to an id no order carries leaves the ledger as it was. */
  lemma UpdateUnknownId(orders: seq<Order>, id: OrderId, level: Level, v: real)
    requires Find(orders, id).None?
    ensures UpdateLevel(orders, id, level, v) == orders
  {
    var r := UpdateLevel(orders, id, level, v);
    forall k | 0 <= k < |orders| ensures r[k] == orders[k] {
      assert orders[k] in orders;
    }
  }

  /** A later edit of the same level of the same id overrides an earlier one. */
  lemma UpdateLastWins(orders: seq<Order>, id: OrderId, level: Level, v: real, w: real)
    ensures UpdateLevel(UpdateLevel(orders, id, level, v), id, level, w) == UpdateLevel(orders, id, level, w)
  {
    var a := UpdateLevel(UpdateLevel(orders, id, level, v), id, level, w);
    var b := UpdateLevel(orders, id, level, w);
    assert |a| == |b|;
    forall k | 0 <= k < |a| ensures a[k] == b[k] { }
  }

  /** Ids, and hence their uniqueness, are untouched by a level edit. */
  lemma UpdateKeepsUnique(orders: seq<Order>, id: OrderId, level: Level, v: real)
    requires UniqueIds(orders)
    ensures UniqueIds(UpdateLevel(orders, id, level, v))
  {
  }

  /** Aggregate unrealised P/L of `orders` at `p`, summed front to back. */
  function SumPnL(orders: seq<Order>, p: real): real {
    if orders == [] then 0.0
    else SumPnL(orders[..|orders| - 1], p) + Profit(orders[|orders| - 1], p)
  }

  lemma {:induction false} SumPnLAppend(a: seq<Order>, b: seq<Order>, p: real)
    ensures SumPnL(a + b, p) == SumPnL(a, p) + SumPnL(b, p)
  {
    if b == [] {
      assert a + b == a;
    } else {
      var b' := b[..|b| - 1];
      assert (a + b)[..|a + b| - 1] == a + b';
      assert (a + b)[|a + b| - 1] == b[|b| - 1];
      SumPnLAppend(a, b', p);
    }
  }

  /** Ledgers whose orders have pairwise equal profits have equal aggregates. */
  lemma {:induction false} SumPnLPointwise(a: seq<Order>, b: seq<Order>, p: real)
    requires |a| == |b|
    requires forall k :: 0 <= k < |a| ==> Profit(a[k], p) == Profit(b[k], p)
    ensures SumPnL(a, p) == SumPnL(b, p)
  {
    if a != [] {
      var n := |a| - 1;
      SumPnLPointwise(a[..n], b[..n], p);
    }
  }

  /** Protective levels do not enter the P/L: a level edit leaves the aggregate unchanged. */
  lemma SumPnLIgnoresLevels(orders: seq<Order>, id: OrderId, level: Level, v: real, p: real)
    ensures SumPnL(UpdateLevel(orders, id, level, v), p) == SumPnL(orders, p)
  {
    SumPnLPointwise(UpdateLevel(orders, id, level, v), orders, p);
  }

  /** Adding an order adds its own profit to the aggregate. */
  lemma SumPnLPlaced(orders: seq<Order>, o: Order, p: real)
    ensures SumPnL(orders + [o], p) == SumPnL(orders, p) + Profit(o, p)
  {
    assert (orders + [o])[..|orders|] == orders;
  }

  /** The P/L effect's accumulation loop. */
  method TotalProfitLoss(orders: seq<Order>, p: real) returns (total: real)
    ensures total == SumPnL(orders, p)
  {
    total := 0.0;
    var i := 0;
    while i < |orders|
      invariant 0 <= i <= |orders|
      invariant total == SumPnL(orders[..i], p)
    {
      var o := orders[i];
      if o.side == Buy {
        total := total + (p - o.price) * o.quantity;
      } else {
        total := total + (o.price - p) * o.quantity;
      }
      assert orders[..i + 1][..i] == orders[..i];
      i := i + 1;
    }
    assert orders[..|orders|] == orders;
  }
}
