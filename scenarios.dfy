/**
 * Sequences of session transitions as the chart runs them, with what the
 * contracts of the handlers let a caller conclude about the outcome. After
 * every change of the latest price or the ledger the component's effects run:
 * the P/L recomputation, over that render's price and ledger, and the trigger
 * pass. A pass that closes orders causes one more render, whose pass finds
 * nothing to do (`Triggers.SecondPassInert`).
 */
module Scenarios {
  import opened Wrappers
  import opened Ledger
  import opened Triggers
  import opened Candles
  import opened ChartSession
  import opened OrderTable

  /** What the handlers do to a ledger of one order. */
  lemma SingleOrderLedger(o: Order, level: Level, v: real)
    ensures Find([o], o.id) == Some(o)
    ensures RemoveIds([o], {o.id}) == []
    ensures UpdateLevel([o], o.id, level, v) == [SetLevel(o, level, v)]
    ensures UpdateLevel([], o.id, level, v) == []
  {
  }

  /** The trigger pass over a ledger of one order. */
  lemma SingleOrderPass(o: Order, p: real)
    ensures PassCredit([o], [o], p) == (Closes(o, p) as real) * CloseCredit(o, p)
    ensures RemoveIds([o], FiredIds([o], p)) == if Fires(o, p) then [] else [o]
  {
    assert [o][..0] == [];
    OrderPassCreditUnique([o], o, p);
    if Fires(o, p) {
      assert o.id in FiredIds([o], p);
    } else {
      QuietPass([o], p);
    }
  }

  /**
   * The effects of a render whose ledger holds the one order `o`: the P/L
   * becomes that order's profit and the pass credits it once per condition
   * that holds, removing it when one does.
   */
  method SettleSingle(s: Session, o: Order)
    requires s.latestPrice.Some? && s.orders == [o]
    modifies s
    ensures s.data == old(s.data) && s.latestPrice == old(s.latestPrice) && s.quantity == old(s.quantity)
    ensures s.profitLoss == Profit(o, s.latestPrice.value)
    ensures !Fires(o, s.latestPrice.value) ==> s.balance == old(s.balance) && s.orders == [o]
    ensures Closes(o, s.latestPrice.value) == 1 ==>
      s.balance == old(s.balance) + CloseCredit(o, s.latestPrice.value) && s.orders == []
    ensures Closes(o, s.latestPrice.value) == 2 ==>
      s.balance == old(s.balance) + 2.0 * CloseCredit(o, s.latestPrice.value) && s.orders == []
  {
    assert [o][..0] == [];
    s.RecomputeProfitLoss();
    SingleOrderPass(o, s.latestPrice.value);
    s.CheckTriggers();
  }

  /** A tick at a price where neither of the one order's conditions holds, and the render after it. */
  method TickKeeps(s: Session, o: Order, c: Candle)
    requires s.orders == [o] && !Fires(o, c.close)
    modifies s
    ensures s.latestPrice == Some(c.close) && s.quantity == old(s.quantity)
    ensures s.balance == old(s.balance) && s.orders == [o]
  {
    s.IngestKline(c);
    SettleSingle(s, o);
  }

  /** A manual close of the one order of the ledger. */
  method CloseSingle(s: Session, o: Order)
    requires s.latestPrice.Some? && s.orders == [o]
    modifies s
    ensures s.data == old(s.data) && s.latestPrice == old(s.latestPrice) && s.quantity == old(s.quantity)
    ensures s.profitLoss == old(s.profitLoss)
    ensures s.balance == old(s.balance) + CloseCredit(o, s.latestPrice.value) && s.orders == []
  {
    SingleOrderLedger(o, StopLossLevel, 0.0);
    s.CloseOrder(o.id);
  }

  /** A level edit of the one order of the ledger, or of an empty ledger. */
  method EditSingle(s: Session, o: Order, u: LevelUpdate)
    requires u.id == o.id && (s.orders == [o] || s.orders == [])
    modifies s
    ensures s.data == old(s.data) && s.latestPrice == old(s.latestPrice) && s.quantity == old(s.quantity)
    ensures s.profitLoss == old(s.profitLoss) && s.balance == old(s.balance)
    ensures old(s.orders) == [o] ==> s.orders == [SetLevel(o, u.level, u.value)]
    ensures old(s.orders) == [] ==> s.orders == []
  {
    SingleOrderLedger(o, u.level, u.value);
    s.ApplyLevelUpdate(u);
  }

  /** The effects of a render whose ledger is empty: both return at their guards. */
  method SettleEmpty(s: Session)
    requires s.orders == []
    modifies s
    ensures s.data == old(s.data) && s.latestPrice == old(s.latestPrice) && s.quantity == old(s.quantity)
    ensures s.profitLoss == old(s.profitLoss) && s.balance == old(s.balance) && s.orders == []
  {
    s.RecomputeProfitLoss();
    s.CheckTriggers();
  }

  /**
   * From the initial balance of 1000: buying 2 at 50 leaves 900; once the
   * price is 60 the aggregate P/L is 20; closing brings the balance to 1020;
   * and the aggregate stays at 20 after the ledger empties.
   */
  method BuyRiseClose(id: OrderId) returns (afterBuy: real, pnl: real, afterClose: real, pnlAfterClose: real)
    ensures afterBuy == 900.0 && pnl == 20.0 && afterClose == 1020.0 && pnlAfterClose == 20.0
  {
    var s := new Session();
    s.LoadHistory([Candle(0, 50.0, 50.0, 50.0, 50.0)]);
    s.SetQuantity(2.0);
    s.PlaceOrder(Buy, id);
    var o := Order(id, Buy, 2.0, 50.0, None, None);
    SettleSingle(s, o);
    assert s.orders == [o] && s.balance == 900.0;
    afterBuy := s.balance;
    s.IngestKline(Candle(0, 50.0, 60.0, 50.0, 60.0));
    SettleSingle(s, o);
    assert s.orders == [o] && s.balance == 900.0 && s.profitLoss == 20.0;
    pnl := s.profitLoss;
    assert CloseCredit(o, 60.0) == 120.0;
    CloseSingle(s, o);
    assert s.orders == [] && s.balance == 1020.0;
    afterClose := s.balance;
    SettleEmpty(s);
    pnlAfterClose := s.profitLoss;
  }

  /** Selling and closing at an unchanged price raises the balance by twice the position value. */
  method SellRoundTrip(p: real, q: real, id: OrderId) returns (gain: real, remaining: seq<Order>)
    ensures gain == 2.0 * p * q && remaining == []
  {
    var s := new Session();
    s.LoadHistory([Candle(0, p, p, p, p)]);
    s.SetQuantity(q);
    s.PlaceOrder(Sell, id);
    var o := Order(id, Sell, q, p, None, None);
    SettleSingle(s, o);
    assert s.orders == [o] && s.balance == InitialBalance + p * q;
    assert CloseCredit(o, p) == p * q;
    CloseSingle(s, o);
    assert s.orders == [] && s.balance == InitialBalance + p * q + p * q;
    SettleEmpty(s);
    gain := s.balance - InitialBalance;
    remaining := s.orders;
  }

  /**
   * A buy whose stop-loss is then set at the entry price is closed by the
   * pass that follows that edit, once, at no gain; setting its take-profit
   * afterwards finds no order. The two levels never meet on one order, so
   * the double credit of `Triggers.BothConditionsCreditTwice` does not arise.
   */
  method LevelsAtEntry(p: real, q: real, id: OrderId) returns (gain: real, remaining: seq<Order>)
    ensures gain == 0.0 && remaining == []
  {
    var s := new Session();
    s.LoadHistory([Candle(0, p, p, p, p)]);
    s.SetQuantity(q);
    s.PlaceOrder(Buy, id);
    var o := Order(id, Buy, q, p, None, None);
    SettleSingle(s, o);
    assert s.orders == [o] && s.balance == InitialBalance - p * q;
    EditSingle(s, o, LevelUpdate(id, StopLossLevel, p));
    var armed := Order(id, Buy, q, p, Some(p), None);
    assert Closes(armed, p) == 1 && CloseCredit(armed, p) == p * q;
    SettleSingle(s, armed);
    assert s.orders == [] && s.balance == InitialBalance - p * q + p * q;
    SettleEmpty(s);
    EditSingle(s, o, LevelUpdate(id, TakeProfitLevel, p));
    SettleEmpty(s);
    gain := s.balance - InitialBalance;
    remaining := s.orders;
  }

  /**
   * Typing 95 into the stop-loss input of a row and pressing Set requests one
   * stop-loss update of 95 for that row's order and closes the form.
   */
  method StopLossEntry(id: OrderId, parse: string -> Option<real>) returns (call: Option<LevelUpdate>, formOpen: bool)
    requires parse("95") == Some(95.0)
    ensures call == Some(LevelUpdate(id, StopLossLevel, 95.0)) && !formOpen
  {
    var form := new OrderForm();
    form.Edit(id);
    form.TypeStopLoss("95");
    call := form.SetOrderStopLoss(id, parse);
    formOpen := form.selectedOrderId.Some?;
  }

  /**
   * Editing a row's stop-loss through the form arms the level, and the pass
   * after the edit leaves the order in place, as do the passes after ticks
   * falling to 98 and 96; the pass after a tick through the stop closes it, and the pass of the render that follows changes
   * nothing.
   */
  method StopLossThroughForm(id: OrderId, parse: string -> Option<real>)
    returns (armed: seq<Order>, afterTrigger: seq<Order>, formOpen: bool, balanceChange: real)
    requires parse("95") == Some(95.0)
    ensures armed == [Order(id, Buy, 1.0, 100.0, Some(95.0), None)]
    ensures afterTrigger == [] && !formOpen
    ensures balanceChange == -6.0
  {
    var s := new Session();
    s.LoadHistory([Candle(0, 100.0, 100.0, 100.0, 100.0)]);
    s.PlaceOrder(Buy, id);
    var placed := Order(id, Buy, 1.0, 100.0, None, None);
    SettleSingle(s, placed);
    assert s.orders == [placed] && s.balance == 900.0;
    var call;
    call, formOpen := StopLossEntry(id, parse);
    EditSingle(s, placed, call.value);
    var o := Order(id, Buy, 1.0, 100.0, Some(95.0), None);
    SettleSingle(s, o);
    assert s.orders == [o] && s.balance == 900.0;
    armed := s.orders;
    TickKeeps(s, o, Candle(60000, 100.0, 100.0, 98.0, 98.0));
    assert s.orders == [o] && s.balance == 900.0;
    TickKeeps(s, o, Candle(120000, 98.0, 98.0, 96.0, 96.0));
    assert s.orders == [o] && s.balance == 900.0;
    s.IngestKline(Candle(180000, 96.0, 96.0, 94.0, 94.0));
    assert Closes(o, 94.0) == 1 && CloseCredit(o, 94.0) == 94.0;
    SettleSingle(s, o);
    assert s.orders == [] && s.balance == 994.0;
    afterTrigger := s.orders;
    SettleEmpty(s);
    balanceChange := s.balance - InitialBalance;
  }
}
