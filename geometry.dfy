/**
 * The coordinate and layout arithmetic of the chart's draw pass: the price
 * range, the price-to-device mapping, candle slots, the primitives drawn per
 * candle, the overlay's horizontal lines and time labels, and the height of
 * the order panel and the chart. A division by an empty price range gives a
 * non-finite number in the application; the model returns None for it.
 */
module ChartGeometry {
  import opened Wrappers
  import opened Candles
  import opened Ledger

  /** Horizontal gap between neighbouring candle bodies, in device units. */
  const Gap: real := 0.01
  /** The price grid divides the range into this many steps (six lines). */
  const GridDivisions: nat := 5
  /** A time label is drawn for every candle whose index is a multiple of this. */
  const LabelStride: nat := 10
  const HeaderHeight: real := 60.0
  const MinPanelHeight: real := 100.0
  const MaxPanelFraction: real := 0.8

  /** Every candle's high and low, in candle order. */
  function Prices(data: seq<Candle>): (r: seq<real>)
    ensures |r| == 2 * |data|
    ensures forall k :: 0 <= k < |data| ==> data[k].high in r && data[k].low in r
    ensures forall q :: q in r ==> exists k :: 0 <= k < |data| && (q == data[k].high || q == data[k].low)
  {
    if data == [] then []
    else
      var rest := Prices(data[1..]);
      assert forall k :: 1 <= k < |data| ==> data[k] == data[1..][k - 1];
      [data[0].high, data[0].low] + rest
  }

  function Minimum(s: seq<real>): (r: real)
    requires |s| > 0
    ensures r in s && forall q :: q in s ==> r <= q
  {
    if |s| == 1 then s[0]
    else
      var m := Minimum(s[1..]);
      assert s == [s[0]] + s[1..];
      if s[0] <= m then s[0] else m
  }

  function Maximum(s: seq<real>): (r: real)
    requires |s| > 0
    ensures r in s && forall q :: q in s ==> q <= r
  {
    if |s| == 1 then s[0]
    else
      var m := Maximum(s[1..]);
      assert s == [s[0]] + s[1..];
      if s[0] >= m then s[0] else m
  }

  /** Lowest high or low of the visible candles. */
  function MinPrice(data: seq<Candle>): real
    requires |data| > 0
  {
    Minimum(Prices(data))
  }

  /** Highest high or low of the visible candles. */
  function MaxPrice(data: seq<Candle>): real
    requires |data| > 0
  {
    Maximum(Prices(data))
  }

  /** The range is attained and encloses every candle's high and low. */
  lemma PriceRangeEnclosesCandles(data: seq<Candle>)
    requires |data| > 0
    ensures MinPrice(data) <= MaxPrice(data)
    ensures forall k :: 0 <= k < |data| ==>
      && MinPrice(data) <= data[k].low <= MaxPrice(data)
      && MinPrice(data) <= data[k].high <= MaxPrice(data)
    ensures exists k :: 0 <= k < |data| && (MinPrice(data) == data[k].high || MinPrice(data) == data[k].low)
    ensures exists k :: 0 <= k < |data| && (MaxPrice(data) == data[k].high || MaxPrice(data) == data[k].low)
  {
    assert data[0].high in Prices(data);
  }

  /** Where `p` lies in [lo, hi] as a fraction of the range; None when the range is empty. */
  function Fraction(p: real, lo: real, hi: real): (r: Option<real>)
    ensures r.Some? <==> lo != hi
    ensures r.Some? ==> lo + r.value * (hi - lo) == p
  {
    if lo == hi then None else Some((p - lo) / (hi - lo))
  }

  /** Device y of price `p`: the range [lo, hi] spans [-1, 1]. */
  function ToNdc(p: real, lo: real, hi: real): (r: Option<real>)
    ensures r.Some? <==> lo != hi
    ensures r.Some? ==> lo + (r.value + 1.0) / 2.0 * (hi - lo) == p
  {
    match Fraction(p, lo, hi)
    case None => None
    case Some(f) => Some(f * 2.0 - 1.0)
  }

  lemma NdcEndpoints(lo: real, hi: real)
    requires lo != hi
    ensures ToNdc(lo, lo, hi) == Some(-1.0) && ToNdc(hi, lo, hi) == Some(1.0)
  {
    assert (hi - lo) / (hi - lo) == 1.0;
  }

  /** The mapping keeps the order of prices. */
  lemma NdcMonotone(p: real, q: real, lo: real, hi: real)
    requires lo < hi && p <= q
    ensures ToNdc(p, lo, hi).value <= ToNdc(q, lo, hi).value
  {
    var d := hi - lo;
    var a, b := (p - lo) / d, (q - lo) / d;
    assert a * d == p - lo && b * d == q - lo;
    if a > b {
      assert (a - b) * d == a * d - b * d;
      assert (a - b) * d > 0.0;
    }
  }

  /** Prices inside the range land inside the viewport. */
  lemma NdcInViewport(p: real, lo: real, hi: real)
    requires lo < hi && lo <= p <= hi
    ensures -1.0 <= ToNdc(p, lo, hi).value <= 1.0
  {
    NdcEndpoints(lo, hi);
    NdcMonotone(lo, p, lo, hi);
    NdcMonotone(p, hi, lo, hi);
  }

  /** Device x of candle `i` of `n`: the left end of its slot moved right by half a gap. */
  function CandleX(i: nat, n: nat): real
    requires n > 0
  {
    (i as real / n as real) * 2.0 - 1.0 + Gap / 2.0
  }

  /**
   * Width of every body: a slot less the gap. It is positive only while there
   * are fewer than 200 candles; from 200 on, bodies have no width or are
   * drawn inside out.
   */
  function CandleWidth(n: nat): (r: real)
    requires n > 0
    ensures r > 0.0 <==> n < 200
  {
    var N := n as real;
    var w := 2.0 / N - Gap;
    assert (2.0 / N) * N == 2.0;
    assert w > 0.0 <==> 2.0 / N > Gap;
    w
  }

  /**
   * A body is centred on its candle's x, so it spans from half a slot left of
   * the slot's start (plus the gap) to the slot's middle; the first body thus
   * begins left of the viewport edge whenever there are fewer than 100 candles.
   */
  lemma BodyEdges(i: nat, n: nat)
    requires n > 0
    ensures CandleX(i, n) - CandleWidth(n) / 2.0 == (2 * i - 1) as real / n as real - 1.0 + Gap
    ensures CandleX(i, n) + CandleWidth(n) / 2.0 == (2 * i + 1) as real / n as real - 1.0
    ensures i == 0 && n < 100 ==> CandleX(i, n) - CandleWidth(n) / 2.0 < -1.0
  {
    var N := n as real;
    var u := 1.0 / N;
    assert u * N == 1.0;
    SlotFraction(i, N, u);
    SlotFraction(2 * i - 1, N, u);
    SlotFraction(2 * i + 1, N, u);
    SlotFraction(2, N, u);
    assert CandleWidth(n) == 2.0 * u - Gap;
    if i == 0 && n < 100 {
      assert u * N == 1.0 && N < 100.0;
      assert u > Gap;
    }
  }

  lemma SlotFraction(a: int, N: real, u: real)
    requires N > 0.0 && u * N == 1.0
    ensures a as real / N == a as real * u
  {
    assert (a as real * u) * N == a as real;
  }

  /** Neighbouring bodies are exactly one gap apart. */
  lemma NeighbourBodiesGap(i: nat, n: nat)
    requires n > 0
    ensures (CandleX(i + 1, n) - CandleWidth(n) / 2.0) - (CandleX(i, n) + CandleWidth(n) / 2.0) == Gap
  {
    BodyEdges(i, n);
    BodyEdges(i + 1, n);
    assert 2 * (i + 1) - 1 == 2 * i + 1;
  }

  /** Teal #26a69a for a rising candle, red #ef5350 otherwise. */
  datatype Colour = Bullish | Bearish

  /** A primitive of the candle layer; y coordinates are None when non-finite. */
  datatype Primitive =
    | Line(x1: real, y1: Option<real>, x2: real, y2: Option<real>, colour: Colour)
    | Rect(x1: real, y1: Option<real>, x2: real, y2: Option<real>, colour: Colour)

  function CandleColour(c: Candle): Colour {
    if c.open < c.close then Bullish else Bearish
  }

  /** The wick of candle `i`: a vertical line from its high to its low. */
  function Wick(data: seq<Candle>, i: nat, lo: real, hi: real): Primitive
    requires i < |data|
  {
    var x := CandleX(i, |data|);
    Line(x, ToNdc(data[i].high, lo, hi), x, ToNdc(data[i].low, lo, hi), CandleColour(data[i]))
  }

  /** The body of candle `i`: a rectangle from its open to its close, one candle width wide. */
  function Body(data: seq<Candle>, i: nat, lo: real, hi: real): Primitive
    requires i < |data|
  {
    var x := CandleX(i, |data|);
    var w := CandleWidth(|data|);
    Rect(x - w / 2.0, ToNdc(data[i].open, lo, hi), x + w / 2.0, ToNdc(data[i].close, lo, hi),
         CandleColour(data[i]))
  }

  /** Wick then body for each candle from `i` on. */
  function CandlesFrom(data: seq<Candle>, i: nat, lo: real, hi: real): (r: seq<Primitive>)
    requires i <= |data|
    ensures |r| == 2 * (|data| - i)
    decreases |data| - i
  {
    if i == |data| then []
    else [Wick(data, i, lo, hi), Body(data, i, lo, hi)] + CandlesFrom(data, i + 1, lo, hi)
  }

  /** The candle layer of one frame. */
  function CandlePrimitives(data: seq<Candle>): (r: seq<Primitive>)
    requires |data| > 0
    ensures |r| == 2 * |data|
  {
    CandlesFrom(data, 0, MinPrice(data), MaxPrice(data))
  }

  lemma {:induction false} CandlesFromAt(data: seq<Candle>, i: nat, k: nat, lo: real, hi: real)
    requires i <= k < |data|
    ensures CandlesFrom(data, i, lo, hi)[2 * (k - i)] == Wick(data, k, lo, hi)
    ensures CandlesFrom(data, i, lo, hi)[2 * (k - i) + 1] == Body(data, k, lo, hi)
    decreases k - i
  {
    if i < k {
      CandlesFromAt(data, i + 1, k, lo, hi);
      var rest := CandlesFrom(data, i + 1, lo, hi);
      assert CandlesFrom(data, i, lo, hi)[2 * (k - i)] == rest[2 * (k - (i + 1))];
      assert CandlesFrom(data, i, lo, hi)[2 * (k - i) + 1] == rest[2 * (k - (i + 1)) + 1];
    }
  }

  /**
   * One frame draws exactly a wick and a body per candle, in candle order,
   * both in the candle's colour, which is bullish exactly when it opened
   * below its close.
   */
  lemma CandleLayerLayout(data: seq<Candle>, k: nat)
    requires 0 <= k < |data|
    ensures CandlePrimitives(data)[2 * k] == Wick(data, k, MinPrice(data), MaxPrice(data))
    ensures CandlePrimitives(data)[2 * k + 1] == Body(data, k, MinPrice(data), MaxPrice(data))
    ensures CandlePrimitives(data)[2 * k].Line? && CandlePrimitives(data)[2 * k + 1].Rect?
    ensures CandlePrimitives(data)[2 * k].colour == CandlePrimitives(data)[2 * k + 1].colour
    ensures CandlePrimitives(data)[2 * k].colour == Bullish <==> data[k].open < data[k].close
    ensures CandlePrimitives(data)[2 * k].x1 == CandlePrimitives(data)[2 * k].x2 == CandleX(k, |data|)
    ensures CandlePrimitives(data)[2 * k + 1].x2 - CandlePrimitives(data)[2 * k + 1].x1 == CandleWidth(|data|)
  {
    CandlesFromAt(data, 0, k, MinPrice(data), MaxPrice(data));
  }

  /**
   * When the candles do not all share one price, every wick has finite ends
   * inside the viewport, its top no lower than its bottom when high >= low.
   */
  lemma WickInViewport(data: seq<Candle>, k: nat)
    requires 0 <= k < |data| && MinPrice(data) != MaxPrice(data)
    ensures var w := CandlePrimitives(data)[2 * k];
      && w.y1.Some? && w.y2.Some?
      && -1.0 <= w.y1.value <= 1.0 && -1.0 <= w.y2.value <= 1.0
      && (data[k].low <= data[k].high ==> w.y2.value <= w.y1.value)
  {
    CandleLayerLayout(data, k);
    PriceRangeEnclosesCandles(data);
    var lo, hi := MinPrice(data), MaxPrice(data);
    NdcInViewport(data[k].high, lo, hi);
    NdcInViewport(data[k].low, lo, hi);
    if data[k].low <= data[k].high {
      NdcMonotone(data[k].low, data[k].high, lo, hi);
    }
  }

  /** When every high and low is one price, no candle has a finite vertical coordinate. */
  lemma FlatRangeHasNoHeights(data: seq<Candle>, k: nat)
    requires 0 <= k < |data| && MinPrice(data) == MaxPrice(data)
    ensures CandlePrimitives(data)[2 * k].y1.None? && CandlePrimitives(data)[2 * k].y2.None?
    ensures CandlePrimitives(data)[2 * k + 1].y1.None? && CandlePrimitives(data)[2 * k + 1].y2.None?
  {
    CandleLayerLayout(data, k);
  }

  /**
   * The vertices a rectangle is drawn with as a four-vertex triangle strip:
   * each is a corner, every corner is present, and the shared middle edge
   * of the two triangles is a diagonal, so together they cover the box.
   */
  function StripVertices<T(==)>(x1: T, y1: T, x2: T, y2: T): (r: seq<(T, T)>)
    ensures |r| == 4
    ensures forall v :: v in r ==> (v.0 == x1 || v.0 == x2) && (v.1 == y1 || v.1 == y2)
    ensures (x1, y1) in r && (x2, y1) in r && (x1, y2) in r && (x2, y2) in r
    ensures x1 != x2 && y1 != y2 ==> r[1].0 != r[2].0 && r[1].1 != r[2].1
  {
    [(x1, y1), (x2, y1), (x1, y2), (x2, y2)]
  }

  /**
   * The body of candle `k` is drawn as the strip of its rectangle: over a
   * non-empty range its four vertices are the points half a candle width
   * either side of the candle's x, at the heights of its open and its close.
   */
  lemma BodyStrip(data: seq<Candle>, k: nat)
    requires 0 <= k < |data| && MinPrice(data) != MaxPrice(data)
    ensures var b := CandlePrimitives(data)[2 * k + 1];
      && b.y1.Some? && b.y2.Some?
      && var v := StripVertices(b.x1, b.y1.value, b.x2, b.y2.value);
      && var x, w := CandleX(k, |data|), CandleWidth(|data|);
      && var yo, yc := ToNdc(data[k].open, MinPrice(data), MaxPrice(data)).value,
                       ToNdc(data[k].close, MinPrice(data), MaxPrice(data)).value;
      && (x - w / 2.0, yo) in v && (x + w / 2.0, yo) in v
      && (x - w / 2.0, yc) in v && (x + w / 2.0, yc) in v
  {
    CandleLayerLayout(data, k);
    BodyCorners(data, k, MinPrice(data), MaxPrice(data));
  }

  lemma BodyCorners(data: seq<Candle>, k: nat, lo: real, hi: real)
    requires 0 <= k < |data| && lo != hi
    ensures var b := Body(data, k, lo, hi);
      && b.y1.Some? && b.y2.Some?
      && var v := StripVertices(b.x1, b.y1.value, b.x2, b.y2.value);
      && var x, w := CandleX(k, |data|), CandleWidth(|data|);
      && var yo, yc := ToNdc(data[k].open, lo, hi).value, ToNdc(data[k].close, lo, hi).value;
      && (x - w / 2.0, yo) in v && (x + w / 2.0, yo) in v
      && (x - w / 2.0, yc) in v && (x + w / 2.0, yc) in v
  {
  }

  /** Canvas y (pixels from the top) of the horizontal line at price `p`. */
  function CanvasY(p: real, lo: real, hi: real, height: real): (r: Option<real>)
    ensures r.Some? <==> lo != hi
  {
    match Fraction(p, lo, hi)
    case None => None
    case Some(f) => Some(height - f * height)
  }

  /**
   * Reading a canvas y back through the range, the top edge being `hi` and
   * the bottom edge `lo`, recovers the price.
   */
  lemma CanvasYRecoversPrice(p: real, lo: real, hi: real, height: real)
    requires lo != hi && height != 0.0
    ensures CanvasY(p, lo, hi, height).Some?
    ensures lo + (height - CanvasY(p, lo, hi, height).value) / height * (hi - lo) == p
  {
    var f := Fraction(p, lo, hi).value;
    assert (height - (height - f * height)) / height == f;
  }

  /** The lowest price sits on the bottom edge, the highest on the top edge. */
  lemma CanvasYEndpoints(lo: real, hi: real, height: real)
    requires lo != hi
    ensures CanvasY(lo, lo, hi, height) == Some(height) && CanvasY(hi, lo, hi, height) == Some(0.0)
  {
    assert (hi - lo) / (hi - lo) == 1.0;
  }

  function GridPrice(lo: real, hi: real, i: nat): real {
    lo + ((hi - lo) / GridDivisions as real) * i as real
  }

  /** The price grid: price and canvas y of each of its lines, bottom to top. */
  function GridLevels(lo: real, hi: real, height: real): seq<(real, Option<real>)> {
    seq(GridDivisions + 1, i requires 0 <= i => (GridPrice(lo, hi, i), CanvasY(GridPrice(lo, hi, i), lo, hi, height)))
  }

  /** Grid line `i` sits at fraction i/5 of the price range. */
  lemma GridFraction(lo: real, hi: real, i: nat)
    requires lo != hi
    ensures Fraction(GridPrice(lo, hi, i), lo, hi) == Some(i as real / 5.0)
  {
    var d := hi - lo;
    var x := i as real / 5.0;
    assert GridPrice(lo, hi, i) - lo == x * d;
    var q := (x * d) / d;
    assert q * d == x * d;
    assert (q - x) * d == q * d - x * d;
  }

  /**
   * Six grid lines from the lowest to the highest price in equal price steps;
   * over a non-empty range they are equally spaced from the bottom edge to
   * the top edge, over an empty one none has a finite position.
   */
  lemma GridLevelsSpan(lo: real, hi: real, height: real, i: nat)
    requires i <= GridDivisions
    ensures var g := GridLevels(lo, hi, height);
      && |g| == 6
      && g[0].0 == lo && g[5].0 == hi
      && (i < GridDivisions ==> g[i + 1].0 - g[i].0 == (hi - lo) / 5.0)
      && (lo != hi ==> g[i].1.Some? && g[i].1.value == height - (i as real / 5.0) * height)
      && (lo == hi ==> g[i].1.None?)
  {
    var g := GridLevels(lo, hi, height);
    assert g[0].0 == lo;
    assert g[5].0 == lo + ((hi - lo) / 5.0) * 5.0;
    if i < GridDivisions {
      assert g[i + 1].0 - g[i].0 == ((hi - lo) / 5.0) * ((i + 1) as real - i as real);
    }
    assert g[i].1 == CanvasY(GridPrice(lo, hi, i), lo, hi, height);
    if lo != hi {
      GridFraction(lo, hi, i);
    }
  }

  /** A horizontal line of the annotation layer. */
  datatype Annotation =
    | GridLine(price: real, y: Option<real>)
    | PriceLine(y: Option<real>)
    | StopLossLine(y: Option<real>)
    | TakeProfitLine(y: Option<real>)
    | EntryLine(side: Side, y: Option<real>)

  /** Dashed stop-loss and take-profit lines of every order whose level is set (a level of 0 included). */
  function LevelLines(orders: seq<Order>, lo: real, hi: real, height: real): seq<Annotation> {
    if orders == [] then []
    else OrderLevelLines(orders[0], lo, hi, height) + LevelLines(orders[1..], lo, hi, height)
  }

  /** The level lines of one order: its stop-loss line, then its take-profit line, each when set. */
  function OrderLevelLines(o: Order, lo: real, hi: real, height: real): seq<Annotation> {
    var sl := match o.stopLoss case None => [] case Some(v) => [StopLossLine(CanvasY(v, lo, hi, height))];
    var tp := match o.takeProfit case None => [] case Some(v) => [TakeProfitLine(CanvasY(v, lo, hi, height))];
    sl + tp
  }

  /** One entry line per order, at its entry price, coloured by side. */
  function EntryLines(orders: seq<Order>, lo: real, hi: real, height: real): seq<Annotation> {
    if orders == [] then []
    else
      var line := EntryLine(orders[0].side, CanvasY(orders[0].price, lo, hi, height));
      [line] + EntryLines(orders[1..], lo, hi, height)
  }

  /** The annotation lines of one frame, in drawing order. */
  function Overlay(data: seq<Candle>, orders: seq<Order>, latest: Option<real>, height: real): seq<Annotation>
    requires |data| > 0
  {
    var lo, hi := MinPrice(data), MaxPrice(data);
    seq(|GridLevels(lo, hi, height)|, i requires 0 <= i < |GridLevels(lo, hi, height)| =>
      GridLine(GridLevels(lo, hi, height)[i].0, GridLevels(lo, hi, height)[i].1))
    + (match latest case None => [] case Some(p) => [PriceLine(CanvasY(p, lo, hi, height))])
    + LevelLines(orders, lo, hi, height)
    + EntryLines(orders, lo, hi, height)
  }

  /** Number of protective levels set across the ledger. */
  function SetLevels(orders: seq<Order>): nat {
    if orders == [] then 0
    else
      var here := (if orders[0].stopLoss.Some? then 1 else 0) + (if orders[0].takeProfit.Some? then 1 else 0);
      here + SetLevels(orders[1..])
  }

  lemma {:induction false} LevelLinesCount(orders: seq<Order>, lo: real, hi: real, height: real)
    ensures |LevelLines(orders, lo, hi, height)| == SetLevels(orders)
  {
    if orders != [] {
      LevelLinesCount(orders[1..], lo, hi, height);
    }
  }

  lemma {:induction false} EntryLinesCount(orders: seq<Order>, lo: real, hi: real, height: real)
    ensures |EntryLines(orders, lo, hi, height)| == |orders|
  {
    if orders != [] {
      EntryLinesCount(orders[1..], lo, hi, height);
    }
  }

  /** The `k`-th entry line is the `k`-th order's: its side, at its entry price's canvas height. */
  lemma {:induction false} EntryLinesAt(orders: seq<Order>, lo: real, hi: real, height: real, k: nat)
    requires k < |orders|
    ensures |EntryLines(orders, lo, hi, height)| == |orders|
    ensures EntryLines(orders, lo, hi, height)[k] == EntryLine(orders[k].side, CanvasY(orders[k].price, lo, hi, height))
  {
    EntryLinesCount(orders, lo, hi, height);
    if k > 0 {
      EntryLinesAt(orders[1..], lo, hi, height, k - 1);
    }
  }

  /** The level lines of the `k`-th order sit right after those of the orders before it. */
  lemma {:induction false} LevelLinesSlice(orders: seq<Order>, lo: real, hi: real, height: real, k: nat)
    requires k < |orders|
    ensures
      var at, mine := SetLevels(orders[..k]), OrderLevelLines(orders[k], lo, hi, height);
      && at + |mine| <= |LevelLines(orders, lo, hi, height)|
      && LevelLines(orders, lo, hi, height)[at..at + |mine|] == mine
  {
    var head, rest := OrderLevelLines(orders[0], lo, hi, height), LevelLines(orders[1..], lo, hi, height);
    LevelLinesCount(orders[1..], lo, hi, height);
    if k == 0 {
      assert orders[..0] == [];
    } else {
      var mine := OrderLevelLines(orders[k], lo, hi, height);
      var at := SetLevels(orders[1..][..k - 1]);
      LevelLinesSlice(orders[1..], lo, hi, height, k - 1);
      assert orders[..k][0] == orders[0] && orders[..k][1..] == orders[1..][..k - 1];
      assert SetLevels(orders[..k]) == |head| + at;
      AfterPrefix(head, rest, at, at + |mine|);
    }
  }

  lemma AfterPrefix<T>(a: seq<T>, b: seq<T>, i: nat, j: nat)
    requires i <= j <= |b|
    ensures (a + b)[|a| + i..|a| + j] == b[i..j]
  {
  }

  /**
   * The level lines of the `k`-th order come right after those of the orders
   * before it: its stop-loss line first, then its take-profit line, each at
   * its own level's canvas height.
   */
  lemma LevelLinesAt(orders: seq<Order>, lo: real, hi: real, height: real, k: nat)
    requires k < |orders|
    ensures
      var lines, at := LevelLines(orders, lo, hi, height), SetLevels(orders[..k]);
      && (orders[k].stopLoss.Some? ==>
            at < |lines| && lines[at] == StopLossLine(CanvasY(orders[k].stopLoss.value, lo, hi, height)))
      && (orders[k].takeProfit.Some? ==>
            var t := at + (if orders[k].stopLoss.Some? then 1 else 0);
            t < |lines| && lines[t] == TakeProfitLine(CanvasY(orders[k].takeProfit.value, lo, hi, height)))
  {
    LevelLinesSlice(orders, lo, hi, height, k);
    var lines, at := LevelLines(orders, lo, hi, height), SetLevels(orders[..k]);
    var mine := OrderLevelLines(orders[k], lo, hi, height);
    if orders[k].stopLoss.Some? {
      assert lines[at] == lines[at..at + |mine|][0];
    }
    if orders[k].takeProfit.Some? {
      assert lines[at + |mine| - 1] == lines[at..at + |mine|][|mine| - 1];
    }
  }

  /**
   * A frame's overlay has six grid lines, one line for the latest price when
   * there is one, a line per protective level set and an entry line per order.
   */
  lemma OverlayCount(data: seq<Candle>, orders: seq<Order>, latest: Option<real>, height: real)
    requires |data| > 0
    ensures |Overlay(data, orders, latest, height)| ==
      6 + (if latest.Some? then 1 else 0) + SetLevels(orders) + |orders|
  {
    LevelLinesCount(orders, MinPrice(data), MaxPrice(data), height);
    EntryLinesCount(orders, MinPrice(data), MaxPrice(data), height);
  }

  /** Open times of the candles whose index is a multiple of ten, from index `i` on. */
  function LabelsFrom(data: seq<Candle>, i: nat): seq<int>
    requires i <= |data|
    decreases |data| - i
  {
    if i == |data| then []
    else (if i % LabelStride == 0 then [data[i].x] else []) + LabelsFrom(data, i + 1)
  }

  /** The open times the time axis labels. */
  function TimeLabels(data: seq<Candle>): seq<int> {
    LabelsFrom(data, 0)
  }

  lemma {:induction false} LabelsFromLayout(data: seq<Candle>, i: nat)
    requires i <= |data|
    ensures |LabelsFrom(data, i)| == (|data| + 9) / 10 - (i + 9) / 10
    ensures forall j :: 0 <= j < |LabelsFrom(data, i)| ==>
      10 * ((i + 9) / 10 + j) < |data| && LabelsFrom(data, i)[j] == data[10 * ((i + 9) / 10 + j)].x
    decreases |data| - i
  {
    if i < |data| {
      LabelsFromLayout(data, i + 1);
      var rest := LabelsFrom(data, i + 1);
      if i % 10 == 0 {
        assert (i + 9) / 10 == i / 10 && (i + 10) / 10 == i / 10 + 1;
        var r := LabelsFrom(data, i);
        forall j | 0 <= j < |r|
          ensures 10 * ((i + 9) / 10 + j) < |data| && r[j] == data[10 * ((i + 9) / 10 + j)].x
        {
          if j > 0 {
            assert r[j] == rest[j - 1];
          }
        }
      } else {
        assert (i + 9) / 10 == (i + 10) / 10;
      }
    }
  }

  /** There is a label for every tenth candle, starting with the first. */
  lemma TimeLabelsEveryTenth(data: seq<Candle>)
    ensures |TimeLabels(data)| == (|data| + 9) / 10
    ensures forall j :: 0 <= j < |TimeLabels(data)| ==> TimeLabels(data)[j] == data[10 * j].x
  {
    LabelsFromLayout(data, 0);
  }

  /** Canvas x of label `j` of `count`: labels are spread evenly over the width. */
  function LabelX(j: nat, count: nat, width: real): real
    requires count > 0
  {
    (j as real / count as real) * width
  }

  lemma LabelsSpreadEvenly(j: nat, count: nat, width: real)
    requires count > 0 && width > 0.0
    ensures LabelX(0, count, width) == 0.0
    ensures j + 1 < count ==> LabelX(j + 1, count, width) - LabelX(j, count, width) == width / count as real
    ensures j + 1 < count ==> LabelX(j + 1, count, width) < width
  {
    var c := count as real;
    assert (j + 1) as real / c - j as real / c == 1.0 / c;
    if j + 1 < count {
      assert (j + 1) as real / c < 1.0;
    }
  }

  /**
   * The time labels of a frame sit at equal spacing, the width over the
   * number of labels, which is the number of every-tenth candles.
   */
  lemma TimeLabelSpacing(data: seq<Candle>, j: nat, width: real)
    requires j + 1 < |TimeLabels(data)| && width > 0.0
    ensures var n := |TimeLabels(data)|;
      && n == (|data| + 9) / 10
      && LabelX(j + 1, n, width) - LabelX(j, n, width) == width / (((|data| + 9) / 10) as real)
      && LabelX(j + 1, n, width) < width
  {
    TimeLabelsEveryTenth(data);
    LabelsSpreadEvenly(j, |TimeLabels(data)|, width);
  }

  /**
   * The order panel's height after the pointer moves from `startY` to
   * `clientY` while resizing: it follows the pointer, no lower than 100
   * pixels and, where the window allows it, no more than 80% of the window.
   */
  function ClampPanelHeight(panel: real, startY: real, clientY: real, innerHeight: real): (r: real)
    ensures r >= MinPanelHeight
    ensures innerHeight * MaxPanelFraction >= MinPanelHeight ==> r <= innerHeight * MaxPanelFraction
    ensures MinPanelHeight <= panel + (startY - clientY) <= innerHeight * MaxPanelFraction ==>
      r == panel + (startY - clientY)
    ensures innerHeight * MaxPanelFraction < MinPanelHeight ==> r == MinPanelHeight
    ensures (innerHeight * MaxPanelFraction >= MinPanelHeight &&
             panel + (startY - clientY) >= innerHeight * MaxPanelFraction) ==>
      r == innerHeight * MaxPanelFraction
    ensures panel + (startY - clientY) <= MinPanelHeight ==> r == MinPanelHeight
  {
    var wanted := panel + (startY - clientY);
    var capped := if innerHeight * MaxPanelFraction <= wanted then innerHeight * MaxPanelFraction else wanted;
    if MinPanelHeight >= capped then MinPanelHeight else capped
  }

  /** Height of both chart canvases: the window less the order panel and the 60-pixel header. */
  function ChartHeight(innerHeight: real, panel: real): real {
    innerHeight - panel - HeaderHeight
  }

  /** After any drag in a window at least 125 pixels tall the chart keeps its bounds. */
  lemma ChartHeightAfterDrag(panel: real, startY: real, clientY: real, innerHeight: real)
    requires innerHeight >= 125.0
    ensures var h := ChartHeight(innerHeight, ClampPanelHeight(panel, startY, clientY, innerHeight));
      innerHeight * 0.2 - HeaderHeight <= h <= innerHeight - MinPanelHeight - HeaderHeight
  {
  }
}
