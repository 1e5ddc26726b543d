/**
 * Candles and the live kline merge. The exchange stamps every kline with the
 * open time of its candle; a kline with the same open time as the last stored
 * candle replaces it wholesale, any other kline is appended.
 */
module Candles {

  /** `x` is the open time in milliseconds; prices are open, high, low, close. */
  datatype Candle = Candle(x: int, open: real, high: real, low: real, close: real)

  predicate StrictlyIncreasing(data: seq<Candle>) {
    forall i, j :: 0 <= i < j < |data| ==> data[i].x < data[j].x
  }

  predicate SameOpenTimeAsLast(data: seq<Candle>, c: Candle) {
    |data| > 0 && data[|data| - 1].x == c.x
  }

  /**
   * The candle list after a live kline `c`: `c` is the last candle, every candle
   * before it is the stored one at the same position, and the length grows by
   * one unless `c` shares the last candle's open time.
   */
  function MergeKline(data: seq<Candle>, c: Candle): (r: seq<Candle>)
    ensures |r| == if SameOpenTimeAsLast(data, c) then |data| else |data| + 1
    ensures r[|r| - 1] == c
    ensures forall k :: 0 <= k < |r| - 1 ==> r[k] == data[k]
  {
    if SameOpenTimeAsLast(data, c) then data[..|data| - 1] + [c] else data + [c]
  }

  /** Delivering the same kline twice is the same as delivering it once. */
  lemma MergeIdempotent(data: seq<Candle>, c: Candle)
    ensures MergeKline(MergeKline(data, c), c) == MergeKline(data, c)
  {
    var once := MergeKline(data, c);
    assert SameOpenTimeAsLast(once, c);
    assert once[..|once| - 1] + [c] == once;
  }

  /**
   * On a strictly increasing, non-empty list, the merge keeps open times
   * strictly increasing exactly when the kline is not older than the last
   * candle; an older kline is appended out of order.
   */
  lemma MergeKeepsOrderIff(data: seq<Candle>, c: Candle)
    requires StrictlyIncreasing(data) && |data| > 0
    ensures StrictlyIncreasing(MergeKline(data, c)) <==> c.x >= data[|data| - 1].x
  {
    var r := MergeKline(data, c);
    var n := |data|;
    if c.x < data[n - 1].x {
      assert r[n - 1] == data[n - 1] && r[n] == c;
    }
  }

  /**
   * The live feed: klines with open times 0, 0 and 300000 and closes 10, 12 and
   * 15 leave two candles, the first closing at 12 and the second at 15.
   */
  lemma FeedScenario(k1: Candle, k2: Candle, k3: Candle)
    requires k1.x == 0 && k2.x == 0 && k3.x == 300000
    requires k1.close == 10.0 && k2.close == 12.0 && k3.close == 15.0
    ensures var d := MergeKline(MergeKline(MergeKline([], k1), k2), k3);
      |d| == 2 && d[0].close == 12.0 && d[1].close == 15.0
  {
    assert MergeKline([], k1) == [k1];
    assert MergeKline([k1], k2) == [k2];
  }
}
