/**
  Candles as the store keeps them: `[time, open, high, low, close, volume]`.
  Only the integer open time drives behaviour; the five price and volume
  fields are carried along unchanged.
*/
module Candles {

  /** A price or volume value, kept as the number it denotes. */
  type Price = real

  /** One raw row of a REST response, cell by cell, as numbers. */
  type Row = seq<real>

  datatype Candle = Candle(time: int, open: Price, high: Price, low: Price, close: Price, volume: Price)

  /** Python's `int(x)` on a number: truncation toward zero. */
  function IntOf(x: real): (n: int)
    ensures x >= 0.0 ==> n as real <= x < n as real + 1.0
    ensures x < 0.0 ==> n as real - 1.0 < x <= n as real
  {
    if x >= 0.0 then x.Floor else -((-x).Floor)
  }

  /** Every row has at least `n` cells, so indexing cell `n - 1` cannot fail. */
  predicate AllLong(rows: seq<Row>, n: nat)
  {
    forall i :: 0 <= i < |rows| ==> |rows[i]| >= n
  }

  /** Open times strictly increase along the sequence (no duplicate keys). */
  predicate StrictlyAscending(s: seq<Candle>)
  {
    forall i, j :: 0 <= i < j < |s| ==> s[i].time < s[j].time
  }

  /** Open times never decrease along the sequence. */
  predicate SortedByTime(s: seq<Candle>)
  {
    forall i, j :: 0 <= i < j < |s| ==> s[i].time <= s[j].time
  }
}
