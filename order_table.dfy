/**
 * The order table: the per-row P/L and the text of its cells, and the small
 * form with which a row's stop-loss or take-profit is edited.
 */
module OrderTable {
  import opened Wrappers
  import opened Ledger
  import opened Triggers

  /** A row's P/L; a latest price that is missing or 0 is falsy and shows no P/L. */
  function RowProfit(latest: Option<real>, o: Order): real {
    if latest.Some? && latest.value != 0.0 then
      if o.side == Buy then (latest.value - o.price) * o.quantity else (o.price - latest.value) * o.quantity
    else 0.0
  }

  /**
   * Rows agree with the session's per-order profit at every non-zero price,
   * and show 0 when there is no price or it is 0.
   */
  lemma RowProfitMatchesLedger(latest: Option<real>, orders: seq<Order>)
    ensures latest.Some? && latest.value != 0.0 ==>
      forall k :: 0 <= k < |orders| ==> RowProfit(latest, orders[k]) == Profit(orders[k], latest.value)
    ensures latest.None? || latest == Some(0.0) ==>
      forall k :: 0 <= k < |orders| ==> RowProfit(latest, orders[k]) == 0.0
  {
  }

  /**
   * At a latest price of 0 the header's aggregate counts the loss of a buy
   * while its row shows none.
   */
  lemma ZeroPriceRowDisagrees(o: Order)
    requires o.side == Buy && o.price == 10.0 && o.quantity == 1.0
    ensures SumPnL([o], 0.0) == -10.0 && RowProfit(Some(0.0), o) == 0.0
  {
    assert [o][..0] == [];
  }

  datatype Sign = Plus | Minus

  /** The P/L cell: the magnitude followed by "+" or "−". */
  datatype ProfitText = ProfitText(magnitude: real, sign: Sign)

  /** The cell shows "+" exactly when the profit is not negative, and the signed magnitude is the profit. */
  function ProfitCell(profit: real): (r: ProfitText)
    ensures r.magnitude >= 0.0
    ensures r.sign == Plus <==> profit >= 0.0
    ensures (if r.sign == Plus then r.magnitude else -r.magnitude) == profit
  {
    if profit >= 0.0 then ProfitText(profit, Plus) else ProfitText(-profit, Minus)
  }

  /** A stop-loss or take-profit cell: a dash, or the amount. */
  datatype LevelText = Dash | Amount(value: real)

  /** A level that is unset or 0 is falsy and shows a dash; any other level shows its value. */
  function LevelCell(level: Option<real>): (r: LevelText)
    ensures r.Dash? <==> level.None? || level == Some(0.0)
    ensures r.Amount? ==> level == Some(r.value)
  {
    if level.Some? && level.value != 0.0 then Amount(level.value) else Dash
  }

  /**
   * A level of 0 is shown as a dash yet is set: a sell's stop at 0, or a buy's
   * take-profit at 0, fires at every non-negative price.
   */
  lemma ZeroLevelHiddenButArmed(o: Order, p: real)
    requires p >= 0.0
    ensures o.side == Sell && o.stopLoss == Some(0.0) ==>
      LevelCell(o.stopLoss) == Dash && StopLossHit(o, p)
    ensures o.side == Buy && o.takeProfit == Some(0.0) ==>
      LevelCell(o.takeProfit) == Dash && TakeProfitHit(o, p)
  {
  }

  /** The table's edit form. */
  class OrderForm {
    var selectedOrderId: Option<OrderId>
    var stopLossPrice: string
    var takeProfitPrice: string

    constructor ()
      ensures selectedOrderId == None && stopLossPrice == "" && takeProfitPrice == ""
    {
      selectedOrderId := None;
      stopLossPrice := "";
      takeProfitPrice := "";
    }

    /** Whether the row of `o` shows its input fields instead of its levels. */
    predicate ShowsInputs(o: Order)
      reads this
    {
      selectedOrderId == Some(o.id)
    }

    /** The Edit button of a row: its inputs, and only those of rows with its id, appear. */
    method Edit(id: OrderId)
      modifies this`selectedOrderId
      ensures selectedOrderId == Some(id)
      ensures forall o: Order :: ShowsInputs(o) <==> o.id == id
    {
      selectedOrderId := Some(id);
    }

    method TypeStopLoss(text: string)
      modifies this`stopLossPrice
      ensures stopLossPrice == text
    {
      stopLossPrice := text;
    }

    method TypeTakeProfit(text: string)
      modifies this`takeProfitPrice
      ensures takeProfitPrice == text
    {
      takeProfitPrice := text;
    }

    /**
     * The Set button of the stop-loss input. Empty text, or text `parse`
     * rejects, does nothing; otherwise exactly one update is requested for
     * `id` with the parsed value, the input is cleared and the form closes.
     * The take-profit input is never touched.
     */
    method SetOrderStopLoss(id: OrderId, parse: string -> Option<real>) returns (call: Option<LevelUpdate>)
      modifies this`stopLossPrice, this`selectedOrderId
      ensures old(stopLossPrice) == "" || parse(old(stopLossPrice)).None? ==>
        call == None && stopLossPrice == old(stopLossPrice) && selectedOrderId == old(selectedOrderId)
      ensures old(stopLossPrice) != "" && parse(old(stopLossPrice)).Some? ==>
        && call == Some(LevelUpdate(id, StopLossLevel, parse(old(stopLossPrice)).value))
        && stopLossPrice == "" && selectedOrderId == None
      ensures takeProfitPrice == old(takeProfitPrice)
    {
      call := None;
      if stopLossPrice == "" {
        return;
      }
      var value := parse(stopLossPrice);
      if value.None? {
        return;
      }
      call := Some(LevelUpdate(id, StopLossLevel, value.value));
      stopLossPrice := "";
      selectedOrderId := None;
    }

    /** The Set button of the take-profit input, the mirror image of `SetOrderStopLoss`. */
    method SetOrderTakeProfit(id: OrderId, parse: string -> Option<real>) returns (call: Option<LevelUpdate>)
      modifies this`takeProfitPrice, this`selectedOrderId
      ensures old(takeProfitPrice) == "" || parse(old(takeProfitPrice)).None? ==>
        call == None && takeProfitPrice == old(takeProfitPrice) && selectedOrderId == old(selectedOrderId)
      ensures old(takeProfitPrice) != "" && parse(old(takeProfitPrice)).Some? ==>
        && call == Some(LevelUpdate(id, TakeProfitLevel, parse(old(takeProfitPrice)).value))
        && takeProfitPrice == "" && selectedOrderId == None
      ensures stopLossPrice == old(stopLossPrice)
    {
      call := None;
      if takeProfitPrice == "" {
        return;
      }
      var value := parse(takeProfitPrice);
      if value.None? {
        return;
      }
      call := Some(LevelUpdate(id, TakeProfitLevel, value.value));
      takeProfitPrice := "";
      selectedOrderId := None;
    }
  }
}
