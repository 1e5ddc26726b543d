# Paper-trading candlestick chart: Dafny model

This project models the core of a browser candlestick chart with a paper-trading
session. The chart keeps the BTCUSDT candles of the selected timeframe and the
latest price. A user opens buy or sell orders at the latest price against a
starting balance of 1000. Each order can carry a stop-loss and a take-profit
level. Every change of price or ledger re-runs two passes: a trigger pass that
closes orders whose levels are hit, and an aggregate profit/loss computation.
The draw pass maps candles to device coordinates and builds the overlay lines
and time labels.

Modules:

- `Wrappers`: the `Option` type that stands for the source's `T | null`.
- `Ledger`: the `Order` record and the per-order profit. It also holds the
  transfers made on open and close, and the list operations on the ledger:
  find by id, filter out ids, set a level, and the P/L sum (with the
  accumulation loop as a method).
- `Triggers`: the stop-loss/take-profit conditions. It also gives the total
  credit and the removed ids of one trigger pass, as functions of the snapshot
  of the ledger that the pass visits.
- `Candles`: the candle record and the merge of a live kline into the candle list.
- `ChartSession`: class `Session`, the component's state fields. Each handler
  is one atomic transition.
- `ChartGeometry`: the arithmetic of the draw pass and of the panel resize.
- `OrderTable`: the order table's row P/L and cell texts, and class
  `OrderForm`, the form that edits the levels.
- `Scenarios`: short runs of the session handlers and what their contracts
  let a caller conclude.

Prices and money are `real`. A division by an empty price range is `None`; in
the application it gives NaN or an infinity.

Behaviours the model keeps as the code has them:

- A live kline is not bucketed by time. If its exchange-supplied open time
  equals that of the last candle, it replaces that candle wholesale. Otherwise
  it is appended, even when it is older. No high/low merging happens.
- Opening a sell credits its value. Closing it credits the entry value plus
  the profit again. A sell opened and closed at one price therefore raises the
  balance by twice its value.
- In the trigger pass, the stop-loss and take-profit checks are two
  independent `if`s. Both call `closeOrder`, whose lookup sees the ledger of
  the render the pass runs in. A pass over a ledger holding an order that
  meets both conditions credits it twice and removes it once. Both conditions
  can hold at once only when the levels are crossed. The handlers do not
  produce such a ledger when, as in the application, a pass follows every
  change of price or ledger. An order a pass left in place has no crossed
  levels. After a single level edit, the next pass at the same price can
  close the order on at most one condition.
- The aggregate P/L is left at its last value when the ledger becomes empty.
- The order quantity is not validated.
- The vertical mapping has no guard for an empty price range.
- The table treats a latest price of 0, and a level of 0, as missing. The
  session's passes treat them as set.
- When a historical load returns no candles, the candle list is replaced by
  the empty list. Reading the last close then throws inside the load's
  `try`, so the latest price stays as it was.

## Model

| member | source | states |
|---|---|---|
| `ChartSession.Session.constructor` | src/app/components/WebGLCandlestickChart.tsx:23-29 | The session starts with no candles, no price, no orders, balance 1000, quantity 1 and P/L 0. |
| `ChartSession.Session.SetQuantity` | src/app/components/WebGLCandlestickChart.tsx:27 | The header sets the order quantity, unvalidated. |
| `ChartSession.Session.PlaceOrder` | src/app/components/WebGLCandlestickChart.tsx:584-605 | Without a price nothing changes. Otherwise exactly one order (latest price, current quantity, no levels) is appended, and the balance moves by the open transfer: a buy debits, a sell credits. A fresh id keeps ids unique. |
| `ChartSession.Session.CloseWithLookup` | src/app/components/WebGLCandlestickChart.tsx:225-249 | Without a price, or when the lookup view has no order with the id, nothing changes. Otherwise the balance gains the first matching order's entry value plus its profit, and every live order with that id is removed. |
| `ChartSession.Session.CloseOrder` | src/app/components/WebGLCandlestickChart.tsx:225-249 | A manual close is a no-op without a price or for an unknown id. Otherwise it credits the found order's close value and removes all orders with the id, so the ledger shrinks. |
| `ChartSession.Session.UpdateOrderStopLoss` | src/app/components/WebGLCandlestickChart.tsx:710-716 | The ledger becomes the level edit of its old value: only the stop-loss of orders with the id changes. |
| `ChartSession.Session.UpdateOrderTakeProfit` | src/app/components/WebGLCandlestickChart.tsx:719-725 | Only the take-profit of orders with the id changes. |
| `ChartSession.Session.ApplyLevelUpdate` | src/app/components/WebGLCandlestickChart.tsx:785-792 | An edit requested by the table reaches the matching update handler. |
| `ChartSession.Session.VisitOrder` | src/app/components/WebGLCandlestickChart.tsx:255-279 | Visiting one order of the snapshot credits one close per condition that holds. It removes the order's id when either holds. |
| `ChartSession.Session.CheckTriggers` | src/app/components/WebGLCandlestickChart.tsx:252-280 | The pass is a no-op without a price or orders. Otherwise the balance gains the pass credit of the snapshot, and exactly the ids of orders whose condition held are removed. |
| `ChartSession.Session.RecomputeProfitLoss` | src/app/components/WebGLCandlestickChart.tsx:357-370 | With a price and orders, the P/L becomes the sum of the signed per-order profits. Otherwise it keeps its previous value, including after the ledger empties. |
| `ChartSession.Session.IngestKline` | src/app/components/WebGLCandlestickChart.tsx:331-342 | The candles become the merge of the kline, and the latest price becomes its close. |
| `ChartSession.Session.LoadHistory` | src/app/components/WebGLCandlestickChart.tsx:301-302 | The candles are replaced by the load. The latest price becomes the last close, or stays as it was for an empty load. |
| `Ledger.Profit` | src/app/components/WebGLCandlestickChart.tsx:233-237 | A buy's profit is (price − entry)·quantity and a sell's is (entry − price)·quantity. |
| `Ledger.OpenTransfer` | src/app/components/WebGLCandlestickChart.tsx:598-602 | Opening a buy debits price·quantity; opening a sell credits it. |
| `Ledger.CloseCredit` | src/app/components/WebGLCandlestickChart.tsx:240-243 | A close credits the entry value plus the profit. |
| `Ledger.CloseCreditValue` | src/app/components/WebGLCandlestickChart.tsx:231-243 | Closing a buy credits its current market value. Closing a sell credits twice its entry value less its current value. |
| `Ledger.RoundTripAtSamePrice` | src/app/components/WebGLCandlestickChart.tsx:597-602 | Opening and then closing at one price: a buy restores the balance exactly, and a sell raises it by 2·price·quantity. |
| `Ledger.FindIndex` | src/app/components/WebGLCandlestickChart.tsx:228 | Returns the index of the first order with the id; None exactly when no order has it. |
| `Ledger.Find` | src/app/components/WebGLCandlestickChart.tsx:228 | Returns the first listed order with the id (no earlier order has it), or None exactly when no order has it. |
| `Ledger.FindListed` | src/app/components/WebGLCandlestickChart.tsx:228 | With unique ids, looking up a listed order's id finds that order. |
| `Ledger.RemoveIds` | src/app/components/WebGLCandlestickChart.tsx:246-248 | An order stays exactly when it was listed and its id is not removed; the ledger never grows. |
| `Ledger.RemoveIdsAppend` | src/app/components/WebGLCandlestickChart.tsx:246-248 | Filtering distributes over concatenation, so the remaining orders keep their relative order. |
| `Ledger.RemoveIdsTwice` | src/app/components/WebGLCandlestickChart.tsx:246-248 | Two successive removals equal one removal of the union of their ids. |
| `Ledger.RemoveIdsShrinks` | src/app/components/WebGLCandlestickChart.tsx:246-248 | Removing an id that some order carries shortens the ledger. |
| `Ledger.RemoveAbsentIds` | src/app/components/WebGLCandlestickChart.tsx:246-248 | Removing ids that no order carries changes nothing. |
| `Ledger.RemoveIdsKeepsUnique` | src/app/components/WebGLCandlestickChart.tsx:246-248 | Removal keeps ids unique. |
| `Ledger.UpdateLevel` | src/app/components/WebGLCandlestickChart.tsx:710-725 | Keeps length, order, ids, sides, quantities, prices and the other level. The named level becomes the value exactly on orders with the id. |
| `Ledger.UpdateUnknownId` | src/app/components/WebGLCandlestickChart.tsx:710-716 | An edit for an unknown id leaves the ledger unchanged. |
| `Ledger.UpdateLastWins` | src/app/components/WebGLCandlestickChart.tsx:710-716 | A later edit of the same level and id overrides an earlier one. |
| `Ledger.UpdateKeepsUnique` | src/app/components/WebGLCandlestickChart.tsx:710-716 | A level edit keeps ids unique. |
| `Ledger.SumPnLAppend` | src/app/components/WebGLCandlestickChart.tsx:360-367 | The aggregate P/L of a concatenation is the sum of the parts' aggregates. |
| `Ledger.SumPnLPointwise` | src/app/components/WebGLCandlestickChart.tsx:360-367 | Ledgers with pairwise equal profits have equal aggregates. |
| `Ledger.SumPnLIgnoresLevels` | src/app/components/WebGLCandlestickChart.tsx:360-367 | A stop-loss or take-profit edit does not change the aggregate P/L. |
| `Ledger.SumPnLPlaced` | src/app/components/WebGLCandlestickChart.tsx:360-367 | Appending an order adds exactly its own profit to the aggregate. |
| `Ledger.TotalProfitLoss` | src/app/components/WebGLCandlestickChart.tsx:360-367 | The accumulation loop returns the sum of the signed per-order profits at the price. |
| `Triggers.StopLossHit` | src/app/components/WebGLCandlestickChart.tsx:257-266 | A set stop-loss holds for a buy at or below the level and for a sell at or above it. An unset one never holds. |
| `Triggers.TakeProfitHit` | src/app/components/WebGLCandlestickChart.tsx:269-278 | A set take-profit holds for a buy at or above the level and for a sell at or below it. An unset one never holds. |
| `Triggers.PassCredit` | src/app/components/WebGLCandlestickChart.tsx:254-279 | The balance credited once a prefix of the snapshot has been visited, summing each visited order's closes. |
| `Triggers.FiredIds` | src/app/components/WebGLCandlestickChart.tsx:254-279 | The ids that the visited orders' closes remove: those of orders with a condition that holds. |
| `Triggers.SurvivorNeverMeetsBoth` | src/app/components/WebGLCandlestickChart.tsx:254-280 | An order that a pass at some price left in place meets both conditions at no price. |
| `Triggers.EditedSurvivorClosesOnce` | src/app/components/WebGLCandlestickChart.tsx:710-725 | Setting one level of an order the last pass left in place lets the next pass at that price close it at most once. |
| `Triggers.QuietPass` | src/app/components/WebGLCandlestickChart.tsx:254-279 | A pass in which no order meets a condition credits nothing and removes nothing. |
| `Triggers.OrderPassCreditUnique` | src/app/components/WebGLCandlestickChart.tsx:255-279 | With unique ids, a visited order is credited its close value once for each condition that holds (0, 1 or 2 times). |
| `Triggers.BothConditionsCreditTwice` | src/app/components/WebGLCandlestickChart.tsx:255-279 | An order meeting both conditions is credited twice by one pass and removed once. |
| `Triggers.BothConditionsIffCrossedLevels` | src/app/components/WebGLCandlestickChart.tsx:257-273 | Both conditions hold at a price exactly when the price lies between crossed levels (for a buy, take-profit ≤ price ≤ stop-loss; for a sell, the reverse). |
| `Triggers.PassRemovesExactlyFired` | src/app/components/WebGLCandlestickChart.tsx:255-279 | With unique ids, an order survives the pass exactly when neither its stop-loss nor its take-profit condition holds. |
| `Triggers.SecondPassInert` | src/app/components/WebGLCandlestickChart.tsx:252-280 | A second pass at the same price fires nothing and credits nothing. |
| `Candles.MergeKline` | src/app/components/WebGLCandlestickChart.tsx:331-340 | The kline becomes the last candle and all earlier candles are unchanged. The length is the same when the kline's open time equals the last candle's, and one more otherwise. |
| `Candles.MergeIdempotent` | src/app/components/WebGLCandlestickChart.tsx:331-340 | Delivering the same kline twice is the same as delivering it once. |
| `Candles.MergeKeepsOrderIff` | src/app/components/WebGLCandlestickChart.tsx:335-339 | On increasing open times, the merge keeps them increasing exactly when the kline is not older than the last candle. |
| `Candles.FeedScenario` | src/app/components/WebGLCandlestickChart.tsx:331-342 | Klines opening at 0, 0 and 300000 with closes 10, 12 and 15 leave two candles, closing at 12 and 15. |
| `ChartGeometry.Prices` | src/app/components/WebGLCandlestickChart.tsx:383 | Holds exactly the highs and lows of the candles, two per candle. |
| `ChartGeometry.MinPrice` | src/app/components/WebGLCandlestickChart.tsx:383-384 | The lowest of the candles' highs and lows. |
| `ChartGeometry.MaxPrice` | src/app/components/WebGLCandlestickChart.tsx:383-385 | The highest of the candles' highs and lows. |
| `ChartGeometry.Minimum` | src/app/components/WebGLCandlestickChart.tsx:384 | Returns an element of the list that no element is below. |
| `ChartGeometry.Maximum` | src/app/components/WebGLCandlestickChart.tsx:385 | Returns an element of the list that no element exceeds. |
| `ChartGeometry.PriceRangeEnclosesCandles` | src/app/components/WebGLCandlestickChart.tsx:383-385 | The range is attained by some high or low and encloses every high and low. |
| `ChartGeometry.Fraction` | src/app/components/WebGLCandlestickChart.tsx:430 | Returns a finite result exactly for a non-empty range. That result is the price's position in the range (inverse mapping). |
| `ChartGeometry.ToNdc` | src/app/components/WebGLCandlestickChart.tsx:393-396 | Returns a finite result exactly for a non-empty range, and the inverse mapping recovers the price. |
| `ChartGeometry.NdcEndpoints` | src/app/components/WebGLCandlestickChart.tsx:393-396 | The lowest price maps to -1 and the highest to +1. |
| `ChartGeometry.NdcMonotone` | src/app/components/WebGLCandlestickChart.tsx:393-396 | The mapping preserves the order of prices. |
| `ChartGeometry.NdcInViewport` | src/app/components/WebGLCandlestickChart.tsx:393-396 | A price inside the range maps inside [-1, 1]. |
| `ChartGeometry.CandleX` | src/app/components/WebGLCandlestickChart.tsx:392 | Candle i of n sits at (i/n)·2 − 1 plus half the gap. |
| `ChartGeometry.CandleWidth` | src/app/components/WebGLCandlestickChart.tsx:388 | The body width 2/n − 0.01 is positive exactly when there are fewer than 200 candles. |
| `ChartGeometry.BodyEdges` | src/app/components/WebGLCandlestickChart.tsx:387-416 | A body is centred half a gap into its slot. Its edges are (2i∓1)/n − 1 (+gap on the left), so with fewer than 100 candles the first body starts left of the viewport. |
| `ChartGeometry.NeighbourBodiesGap` | src/app/components/WebGLCandlestickChart.tsx:387-392 | Neighbouring bodies are exactly the gap 0.01 apart. |
| `ChartGeometry.CandlesFrom` | src/app/components/WebGLCandlestickChart.tsx:391-417 | Two primitives are drawn per remaining candle. |
| `ChartGeometry.CandlePrimitives` | src/app/components/WebGLCandlestickChart.tsx:391-417 | A frame has two primitives per candle. |
| `ChartGeometry.CandleColour` | src/app/components/WebGLCandlestickChart.tsx:399-403 | Bullish exactly when the candle opened below its close; wick and body share it. |
| `ChartGeometry.Wick` | src/app/components/WebGLCandlestickChart.tsx:405-406 | A vertical line at the candle's x from its high to its low. |
| `ChartGeometry.Body` | src/app/components/WebGLCandlestickChart.tsx:408-416 | A rectangle one candle width wide centred on the candle's x, from its open to its close. |
| `ChartGeometry.CandleLayerLayout` | src/app/components/WebGLCandlestickChart.tsx:391-417 | For each candle, a vertical wick line at its x is followed by a body rectangle one candle width wide, both in one colour. The colour is bullish exactly when open < close. |
| `ChartGeometry.WickInViewport` | src/app/components/WebGLCandlestickChart.tsx:383-406 | Over a non-empty range every wick has finite ends inside [-1, 1], with the high end on top. |
| `ChartGeometry.FlatRangeHasNoHeights` | src/app/components/WebGLCandlestickChart.tsx:393-396 | When every high and low is one price, no candle has a finite vertical coordinate. |
| `ChartGeometry.StripVertices` | src/app/components/WebGLCandlestickChart.tsx:698 | The four strip vertices are exactly the rectangle's corners, and the two triangles share a diagonal. |
| `ChartGeometry.BodyStrip` | src/app/components/WebGLCandlestickChart.tsx:408-416 | Over a non-empty range a body's strip vertices include the four corners at x ± width/2 and the heights of the open and the close. |
| `ChartGeometry.CanvasY` | src/app/components/WebGLCandlestickChart.tsx:430-435 | The canvas y of a price is finite exactly for a non-empty range. |
| `ChartGeometry.CanvasYRecoversPrice` | src/app/components/WebGLCandlestickChart.tsx:430-435 | For a non-empty range and a non-zero height, reading the canvas y back through the range (top edge = highest price, bottom edge = lowest) recovers the price, so every price has its own y. |
| `ChartGeometry.CanvasYEndpoints` | src/app/components/WebGLCandlestickChart.tsx:430-435 | The lowest price lies on the canvas bottom and the highest on its top. |
| `ChartGeometry.GridLevels` | src/app/components/WebGLCandlestickChart.tsx:426-430 | The six grid prices min + i·(max − min)/5 with their canvas heights. |
| `ChartGeometry.GridLevelsSpan` | src/app/components/WebGLCandlestickChart.tsx:426-441 | Six grid lines run from the lowest to the highest price in equal steps and are equally spaced from bottom to top. Over an empty range none has a finite position. |
| `ChartGeometry.Overlay` | src/app/components/WebGLCandlestickChart.tsx:425-544 | The overlay annotations of a frame: grid lines, the latest-price line, the set levels and the entry lines. |
| `ChartGeometry.LevelLines` | src/app/components/WebGLCandlestickChart.tsx:475-521 | Per order, in ledger order, a stop-loss line and then a take-profit line at the level's canvas height, for each level that is set (0 included). |
| `ChartGeometry.LevelLinesCount` | src/app/components/WebGLCandlestickChart.tsx:475-521 | The level lines number exactly the set levels of the ledger. |
| `ChartGeometry.EntryLines` | src/app/components/WebGLCandlestickChart.tsx:524-544 | One line per order at its entry price's canvas height, coloured by its side. |
| `ChartGeometry.EntryLinesCount` | src/app/components/WebGLCandlestickChart.tsx:524-544 | There is exactly one entry line per order. |
| `ChartGeometry.EntryLinesAt` | src/app/components/WebGLCandlestickChart.tsx:524-544 | The k-th entry line belongs to the k-th order: its side's colour, at its entry price's canvas height. |
| `ChartGeometry.LevelLinesSlice` | src/app/components/WebGLCandlestickChart.tsx:475-521 | The level lines of the k-th order form one block of the overlay, starting after as many lines as the earlier orders have set levels. |
| `ChartGeometry.LevelLinesAt` | src/app/components/WebGLCandlestickChart.tsx:475-521 | The level lines of the k-th order follow those of the orders before it: its stop-loss line at its stop-loss's canvas height, then its take-profit line at its take-profit's height, each present when that level is set. |
| `ChartGeometry.OverlayCount` | src/app/components/WebGLCandlestickChart.tsx:425-544 | The overlay has 6 grid lines, 1 latest-price line when there is a price, 1 line per set level (0 included) and 1 entry line per order. |
| `ChartGeometry.TimeLabels` | src/app/components/WebGLCandlestickChart.tsx:463-465 | The open times of the candles whose index is a multiple of 10. |
| `ChartGeometry.TimeLabelsEveryTenth` | src/app/components/WebGLCandlestickChart.tsx:463-465 | There are ⌈n/10⌉ labels, and label j is the open time of candle 10·j. |
| `ChartGeometry.LabelX` | src/app/components/WebGLCandlestickChart.tsx:468 | Label j of count sits at (j/count)·width. |
| `ChartGeometry.LabelsSpreadEvenly` | src/app/components/WebGLCandlestickChart.tsx:467-468 | For any labels at all, the first sits at x = 0; neighbouring labels are equally spaced over the width, and every label after the first stays inside it. |
| `ChartGeometry.TimeLabelSpacing` | src/app/components/WebGLCandlestickChart.tsx:463-468 | A frame's labels, ⌈n/10⌉ of them, are spaced width/⌈n/10⌉ apart and stay inside the width. |
| `ChartGeometry.ClampPanelHeight` | src/app/components/WebGLCandlestickChart.tsx:131-135 | The dragged panel height follows the pointer within [100, 80% of the window] and never goes below 100. A drag past the cap gives exactly 80% of the window, and a drag to 100 or below gives exactly 100. In a window too small for the cap it is 100. |
| `ChartGeometry.ChartHeight` | src/app/components/WebGLCandlestickChart.tsx:166 | The chart canvases are the window height less the panel and the 60-pixel header. |
| `ChartGeometry.ChartHeightAfterDrag` | src/app/components/WebGLCandlestickChart.tsx:166 | After any drag in a window of at least 125 px, the chart height is between 20% of the window less 60 and the window less 160. |
| `OrderTable.RowProfit` | src/app/components/OrderManagement.tsx:220-224 | A row's P/L is the signed profit at a truthy latest price, and 0 when there is no price or it is 0. |
| `OrderTable.RowProfitMatchesLedger` | src/app/components/OrderManagement.tsx:220-224 | At a non-zero price a row's P/L is the order's signed profit. With no price, or a price of 0, it is 0. |
| `OrderTable.ZeroPriceRowDisagrees` | src/app/components/OrderManagement.tsx:220-224 | At price 0 the aggregate counts a buy's loss while its row shows 0. |
| `OrderTable.ProfitCell` | src/app/components/OrderManagement.tsx:431-436 | The cell shows "+" exactly when the profit is not negative, and the signed magnitude equals the profit. |
| `OrderTable.LevelCell` | src/app/components/OrderManagement.tsx:322-324 | The cell shows a dash exactly when the level is unset or 0, and otherwise the level itself. |
| `OrderTable.ZeroLevelHiddenButArmed` | src/app/components/OrderManagement.tsx:400-402 | A level of 0 shows a dash, yet a sell's stop-loss or a buy's take-profit at 0 fires at every non-negative price. |
| `OrderTable.OrderForm.constructor` | src/app/components/OrderManagement.tsx:30-32 | The form starts with no selected row and empty inputs. |
| `OrderTable.OrderForm.Edit` | src/app/components/OrderManagement.tsx:327 | Edit selects the row. Exactly the rows with that id then show their inputs. |
| `OrderTable.OrderForm.TypeStopLoss` | src/app/components/OrderManagement.tsx:283 | Typing sets the stop-loss input text. |
| `OrderTable.OrderForm.TypeTakeProfit` | src/app/components/OrderManagement.tsx:361 | Typing sets the take-profit input text. |
| `OrderTable.OrderForm.SetOrderStopLoss` | src/app/components/OrderManagement.tsx:52-61 | Empty or unparsable text makes no update and changes nothing. Otherwise it makes exactly one stop-loss update with the parsed value for the id, clears the input and deselects. The take-profit input is untouched. |
| `OrderTable.OrderForm.SetOrderTakeProfit` | src/app/components/OrderManagement.tsx:64-73 | The mirror image of the stop-loss form, for the take-profit. |
| `Scenarios.BuyRiseClose` | src/app/components/WebGLCandlestickChart.tsx:357-370 | Buying 2 at 50 leaves 900, a rise to 60 gives P/L 20, and closing leaves 1020. The P/L stays 20 after the ledger empties. |
| `Scenarios.SellRoundTrip` | src/app/components/WebGLCandlestickChart.tsx:598-602 | A sell opened and closed at one price raises the balance by 2·price·quantity and empties the ledger. |
| `Scenarios.SettleSingle` | src/app/components/WebGLCandlestickChart.tsx:251-280 | After a change to a ledger of one order, the P/L becomes that order's profit. The pass keeps it without credit when no condition holds, and otherwise removes it with one close credit per condition that holds. |
| `Scenarios.TickKeeps` | src/app/components/WebGLCandlestickChart.tsx:251-280 | A tick at a price where neither condition of the one order holds, and the render after it, leave the order listed and the balance unchanged. |
| `Scenarios.LevelsAtEntry` | src/app/components/WebGLCandlestickChart.tsx:710-725 | A buy whose stop-loss is then set at the entry price is closed once by the pass after that edit, with no gain. The later take-profit edit finds no order, so no double credit arises. |
| `Scenarios.StopLossEntry` | src/app/components/OrderManagement.tsx:52-61 | Typing 95 and pressing Set requests one stop-loss update of 95 for the row and closes the form. |
| `Scenarios.StopLossThroughForm` | src/app/components/OrderManagement.tsx:52-61 | A valid stop-loss entry arms the level and closes the form, and the pass after it keeps the order. Ticks at 98 and 96 keep it listed with the balance unchanged; a tick at 94 closes the buy at 100 with stop 95, and the next pass changes nothing, for a net −6. |

## Left out

- WebGL context set-up, shader compilation and linking, and buffer and draw calls are not modelled; they are GPU APIs. Only the coordinates and colours they receive are.
- Canvas 2D text, stroke styles, dashes, fonts, `toFixed`, `toLocaleTimeString` and text offsets are presentation. They depend on the browser and the locale.
- The historical fetch, the WebSocket subscription and their teardown are network I/O. Only the state updates they make are modelled (`LoadHistory`, `IngestKline`).
- The timeframe field and its selection are left out, because their only effect is to start a new fetch and subscription.
- React effect scheduling is not part of the session class: each handler is one atomic transition, and the trigger pass and the P/L recomputation are methods of their own. The scenarios run them after every change of price or ledger, with the P/L recomputation first, so that, as in the source, it sees the render's ledger before the pass's removals. Redraws are not modelled.
- The `console.log` notices of the trigger pass are output only and are left out.
- The mouse-down, mouse-move and mouse-up listeners and the `isResizing`/`startY` state are event plumbing. Only the clamp of the new height and the chart height are modelled.
- The random order id is a parameter of `PlaceOrder`. Uniqueness of ids is a hypothesis of the lemmas that need it, not a requirement of the handler.
- `parseFloat` is an abstract parse (a function parameter returning `Option<real>`). NaN quantities from the header cannot arise among reals.
- Floating-point rounding is not modelled (prices and money are reals). Non-finite results appear only where the range is divided by, as None.
- The early return of the draw pass when the GL context, overlay or program is missing is not modelled. Its empty-candle-list guard is a precondition of the geometry functions.
- src/app/components/ChartHeader.tsx and src/app/page.tsx are not part of this model.
