/**
  The Kraken fallback path: symbol and interval mapping to Kraken's names,
  and the pure tail of the OHLC fetch that turns a decoded reply into
  candles (pick the row list, reshape each row, sort by time, keep the
  newest `limit`) or into an HTTP error.
*/
module Kraken {
  import opened Wrappers
  import opened PyBuiltins
  import opened Candles

  /** The error an HTTP handler raises: a status and a detail message. */
  datatype HttpError = HttpError(status: int, detail: string)

  /** One value of the reply's `result` object: the OHLC row list, or anything else (such as `last`). */
  datatype ResultValue = OhlcRows(rows: seq<Row>) | NotAList

  /** A decoded reply: the `error` list (empty when absent) and the `result` entries in order. */
  datatype OhlcReply = OhlcReply(error: seq<string>, result: seq<(string, ResultValue)>)

  const UNKNOWN_PAIR: string := "Unknown asset pair"

  /** What the generic exception handler of the fetch raises. */
  const INTERNAL_ERROR: HttpError := HttpError(500, "Internal Data Fetch Error")

  // ---------------------------------------------------------------------
  // Symbol mapping

  /**
    BTCUSDT becomes XBTUSDT: the base is XBT for a BTC prefix and otherwise
    the first three characters (the ETH and SOL branches give exactly
    those); the quote is USDT for a USDT suffix and USD otherwise.
  */
  function MapSymbolToKraken(symbol: string): (pair: string)
    ensures EndsWith(pair, "USDT") <==> EndsWith(symbol, "USDT")
    ensures EndsWith(pair, "USD") || EndsWith(pair, "USDT")
    ensures |symbol| >= 3 ==>
              pair == (if StartsWith(symbol, "BTC") then "XBT" else symbol[..3])
                      + (if EndsWith(symbol, "USDT") then "USDT" else "USD")
    ensures |symbol| < 3 ==> pair == symbol + "USD"
  {
    var base :=
      if StartsWith(symbol, "BTC") then "XBT"
      else if StartsWith(symbol, "ETH") then "ETH"
      else if StartsWith(symbol, "SOL") then "SOL"
      else symbol[..Min(3, |symbol|)];
    var quote :=
      if EndsWith(symbol, "USDT") then "USDT"
      else if EndsWith(symbol, "USD") then "USD"
      else "USD";
    QuoteEnds(base, quote);
    base + quote
  }

  /** A pair ends with its quote, and with "USDT" exactly when that is the quote. */
  lemma QuoteEnds(base: string, quote: string)
    requires quote == "USD" || quote == "USDT"
    ensures EndsWith(base + quote, quote)
    ensures EndsWith(base + quote, "USDT") <==> quote == "USDT"
  {
    var pair := base + quote;
    assert pair[|pair| - |quote|..] == quote;
    assert quote == "USD" ==> pair[|pair| - 1] == 'D';
  }

  /** Mapping an already mapped pair changes nothing (for symbols of at least three characters). */
  lemma MapSymbolIdempotent(symbol: string)
    requires |symbol| >= 3
    ensures MapSymbolToKraken(MapSymbolToKraken(symbol)) == MapSymbolToKraken(symbol)
  {
    var pair := MapSymbolToKraken(symbol);
    var base := if StartsWith(symbol, "BTC") then "XBT" else symbol[..3];
    var quote := if EndsWith(symbol, "USDT") then "USDT" else "USD";
    assert pair[..3] == base;
    assert !StartsWith(pair, "BTC");
    assert EndsWith(pair, "USDT") <==> quote == "USDT";
    assert pair == pair[..3] + quote;
  }

  // ---------------------------------------------------------------------
  // Interval mapping

  /** Kraken's interval parameter, in minutes, for each supported interval name. */
  const KRAKEN_MINUTES: map<string, int> :=
    map["1m" := 1, "5m" := 5, "15m" := 15, "1h" := 60, "4h" := 240, "1d" := 1440]

  predicate AllDigits(s: string)
  {
    forall i :: 0 <= i < |s| ==> '0' <= s[i] <= '9'
  }

  function DigitsValue(s: string): nat
    requires AllDigits(s)
  {
    if s == [] then 0 else DigitsValue(s[..|s| - 1]) * 10 + (s[|s| - 1] as int - '0' as int)
  }

  /**
    The length in minutes of an interval written as a count and a unit
    (m, h, d or w), as the exchange names them; None for anything else.
  */
  function DurationMinutes(interval: string): Option<nat>
  {
    if |interval| < 2 || !AllDigits(interval[..|interval| - 1]) then None
    else
      var n := DigitsValue(interval[..|interval| - 1]);
      var unit := interval[|interval| - 1];
      if unit == 'm' then Some(n)
      else if unit == 'h' then Some(n * 60)
      else if unit == 'd' then Some(n * 1440)
      else if unit == 'w' then Some(n * 10080)
      else None
  }

  lemma TableMatchesDurations()
    ensures forall iv :: iv in KRAKEN_MINUTES ==> DurationMinutes(iv) == Some(KRAKEN_MINUTES[iv])
  {
    assert DurationMinutes("1m") == Some(1) by { OneDigit("1m"); }
    assert DurationMinutes("5m") == Some(5) by { OneDigit("5m"); }
    assert DurationMinutes("15m") == Some(15) by {
      assert "15m"[..2] == "15" && "15"[..1] == "1";
      OneDigit("15");
    }
    assert DurationMinutes("1h") == Some(60) by { OneDigit("1h"); }
    assert DurationMinutes("4h") == Some(240) by { OneDigit("4h"); }
    assert DurationMinutes("1d") == Some(1440) by { OneDigit("1d"); }
  }

  /** The count of a two-character interval is its single leading digit. */
  lemma OneDigit(s: string)
    requires |s| == 2 && '0' <= s[0] <= '9'
    ensures AllDigits(s[..1]) && DigitsValue(s[..1]) == s[0] as int - '0' as int
  {
    assert s[..1][..0] == [];
  }

  /**
    Kraken's minutes for an interval: for every name in the table it is the
    same length of time the name denotes; any other name falls back to 1.
  */
  function MapIntervalToKraken(interval: string): (minutes: int)
    ensures minutes > 0
    ensures minutes in {1, 5, 15, 60, 240, 1440}
    ensures interval in KRAKEN_MINUTES ==> DurationMinutes(interval) == Some(minutes)
    ensures interval !in KRAKEN_MINUTES ==> minutes == 1
  {
    TableMatchesDurations();
    if interval in KRAKEN_MINUTES then KRAKEN_MINUTES[interval] else 1
  }

  // ---------------------------------------------------------------------
  // Reply handling

  /**
    The error decision for a non-empty `error` list: 404 when its first
    message names an unknown asset pair, 502 otherwise; no error for an
    empty list.
  */
  function ClassifyKrakenError(errors: seq<string>): (e: Option<HttpError>)
    ensures e.None? <==> errors == []
    ensures e.Some? ==> (e.value.status == 404 <==> Contains(errors[0], UNKNOWN_PAIR))
    ensures e.Some? ==> e.value.status in {404, 502}
  {
    if errors == [] then None
    else if Contains(errors[0], UNKNOWN_PAIR) then Some(HttpError(404, "Symbol not found on Kraken"))
    else Some(HttpError(502, "Kraken Error: " + errors[0]))
  }

  /** Entry `i` is the first entry of `result` that holds a list. */
  predicate FirstListAt(result: seq<(string, ResultValue)>, i: int)
  {
    0 <= i < |result| && result[i].1.OhlcRows? &&
    forall j :: 0 <= j < i ==> !result[j].1.OhlcRows?
  }

  /** The rows of the first list-valued entry of `result`, or none when no entry is a list. */
  function FirstOhlcList(result: seq<(string, ResultValue)>): (rows: seq<Row>)
    ensures (forall i :: 0 <= i < |result| ==> !result[i].1.OhlcRows?) ==> rows == []
    ensures (exists i :: 0 <= i < |result| && result[i].1.OhlcRows?) ==>
              exists i :: FirstListAt(result, i) && rows == result[i].1.rows
  {
    if result == [] then []
    else if result[0].1.OhlcRows? then
      assert FirstListAt(result, 0);
      result[0].1.rows
    else
      var rows := FirstOhlcList(result[1..]);
      assert forall i :: 0 <= i < |result| - 1 ==> result[1..][i] == result[i + 1];
      assert forall i :: FirstListAt(result[1..], i) ==> FirstListAt(result, i + 1);
      rows
  }

  /** A Kraken OHLC row `[time, open, high, low, close, vwap, volume, count]` as a candle. */
  function KrakenCandle(row: Row): Candle
    requires |row| >= 7
  {
    Candle(IntOf(row[0]) * 1000, row[1], row[2], row[3], row[4], row[6])
  }

  function KrakenCandles(rows: seq<Row>): seq<Candle>
    requires AllLong(rows, 7)
  {
    seq(|rows|, i requires 0 <= i < |rows| => KrakenCandle(rows[i]))
  }

  /**
    The reshaping loop: one candle per row, time in milliseconds, and the
    columns open, high, low, close and volume, skipping vwap. A row with
    fewer than seven cells raises, and then nothing is returned.
  */
  method FormatKrakenRows(rows: seq<Row>) returns (formatted: Option<seq<Candle>>)
    ensures formatted.None? <==> exists i :: 0 <= i < |rows| && |rows[i]| < 7
    ensures formatted.Some? ==> |formatted.value| == |rows|
    ensures formatted.Some? ==> forall i :: 0 <= i < |rows| ==>
              && formatted.value[i].time == IntOf(rows[i][0]) * 1000
              && formatted.value[i].open == rows[i][1]
              && formatted.value[i].high == rows[i][2]
              && formatted.value[i].low == rows[i][3]
              && formatted.value[i].close == rows[i][4]
              && formatted.value[i].volume == rows[i][6]
  {
    var out: seq<Candle> := [];
    var i := 0;
    while i < |rows|
      invariant 0 <= i <= |rows|
      invariant |out| == i
      invariant forall j :: 0 <= j < i ==> |rows[j]| >= 7 && out[j] == KrakenCandle(rows[j])
    {
      if |rows[i]| < 7 {
        return None;
      }
      out := out + [KrakenCandle(rows[i])];
      i := i + 1;
    }
    return Some(out);
  }

  // ---------------------------------------------------------------------
  // Sorting by time

  /** Inserts `c` after every candle whose time is not later than its own. */
  function InsertByTime(c: Candle, s: seq<Candle>): (r: seq<Candle>)
    ensures |r| == |s| + 1
    ensures multiset(r) == multiset(s) + multiset{c}
    ensures forall x :: x in r <==> x == c || x in s
  {
    if s == [] then [c]
    else if c.time < s[0].time then [c] + s
    else
      assert s == [s[0]] + s[1..];
      [s[0]] + InsertByTime(c, s[1..])
  }

  lemma {:induction false} InsertKeepsSorted(c: Candle, s: seq<Candle>)
    requires SortedByTime(s)
    ensures SortedByTime(InsertByTime(c, s))
  {
    if s != [] && c.time >= s[0].time {
      var rest := InsertByTime(c, s[1..]);
      assert SortedByTime(s[1..]);
      InsertKeepsSorted(c, s[1..]);
      assert forall x :: x in s[1..] ==> s[0].time <= x.time;
      ConsSorted(s[0], rest);
    }
  }

  /** A candle no later than any in a sorted sequence can go in front. */
  lemma ConsSorted(h: Candle, rest: seq<Candle>)
    requires SortedByTime(rest)
    requires forall x :: x in rest ==> h.time <= x.time
    ensures SortedByTime([h] + rest)
  {
    var r := [h] + rest;
    assert forall i :: 1 <= i < |r| ==> r[i] == rest[i - 1];
  }

  /** `sorted(candles, key=time)`: ordered by time, with the same candles. */
  function SortByTime(s: seq<Candle>): (r: seq<Candle>)
    ensures |r| == |s|
    ensures SortedByTime(r)
    ensures multiset(r) == multiset(s)
  {
    if s == [] then []
    else
      assert s == s[..|s| - 1] + [s[|s| - 1]];
      InsertKeepsSorted(s[|s| - 1], SortByTime(s[..|s| - 1]));
      InsertByTime(s[|s| - 1], SortByTime(s[..|s| - 1]))
  }

  lemma SortedSuffix(s: seq<Candle>, r: seq<Candle>)
    requires SortedByTime(s) && IsSuffix(r, s)
    ensures SortedByTime(r)
  {
    var k := |s| - |r|;
    assert forall i :: 0 <= i < |r| ==> r[i] == s[k + i];
  }

  // ---------------------------------------------------------------------
  // The fetch

  /**
    The intended outcome of the OHLC fetch for a decoded reply: a non-empty
    error list gives 404 or 502 by its first message; otherwise the rows of
    the first list in `result` are reshaped (500 if a row is too short),
    sorted by time, and the newest `limit` kept (`[-limit:]`).
  */
  method FetchKrakenCandles(reply: OhlcReply, limit: int := 300) returns (r: Result<seq<Candle>, HttpError>)
    ensures reply.error != [] ==>
              r.Failure? && r.error.status == (if Contains(reply.error[0], UNKNOWN_PAIR) then 404 else 502)
    ensures r.Success? <==> reply.error == [] && AllLong(FirstOhlcList(reply.result), 7)
    ensures reply.error == [] && !AllLong(FirstOhlcList(reply.result), 7) ==> r == Failure(INTERNAL_ERROR)
    ensures r.Success? ==> SortedByTime(r.value)
    ensures r.Success? ==> IsSuffix(r.value, SortByTime(KrakenCandles(FirstOhlcList(reply.result))))
    ensures r.Success? && limit > 0 ==> |r.value| == Min(limit, |FirstOhlcList(reply.result)|)
    ensures r.Success? && limit == 0 ==> |r.value| == |FirstOhlcList(reply.result)|
    ensures r.Success? && limit < 0 ==> |r.value| == Max(0, |FirstOhlcList(reply.result)| + limit)
  {
    var failure := ClassifyKrakenError(reply.error);
    if failure.Some? {
      return Failure(failure.value);
    }
    var rows := FirstOhlcList(reply.result);
    var formatted := FormatKrakenRows(rows);
    if formatted.None? {
      return Failure(INTERNAL_ERROR);
    }
    assert formatted.value == KrakenCandles(rows);
    var sorted := SortByTime(formatted.value);
    var newest := PyTail(sorted, limit);
    SortedSuffix(sorted, newest);
    return Success(newest);
  }

  /**
    The fetch as the handler is written: the 404 or 502 raised for an
    error list is raised inside the same `try` whose generic handler turns
    every exception into a 500, so every failure reads as a 500.
  */
  method FetchKrakenCandlesAsWritten(reply: OhlcReply, limit: int := 300) returns (r: Result<seq<Candle>, HttpError>)
    ensures r.Failure? ==> r.error == INTERNAL_ERROR
    ensures reply.error != [] ==> r == Failure(INTERNAL_ERROR)
    ensures r.Success? <==> reply.error == [] && AllLong(FirstOhlcList(reply.result), 7)
    ensures r.Success? ==> SortedByTime(r.value)
    ensures r.Success? ==> IsSuffix(r.value, SortByTime(KrakenCandles(FirstOhlcList(reply.result))))
    ensures r.Success? && limit > 0 ==> |r.value| == Min(limit, |FirstOhlcList(reply.result)|)
    ensures r.Success? && limit == 0 ==> |r.value| == |FirstOhlcList(reply.result)|
    ensures r.Success? && limit < 0 ==> |r.value| == Max(0, |FirstOhlcList(reply.result)| + limit)
  {
    r := FetchKrakenCandles(reply, limit);
    if r.Failure? {
      r := Failure(INTERNAL_ERROR);
    }
  }

  /**
    An unknown-pair reply from Kraken: the handler as written answers 500
    where the error classification intends 404.
  */
  method UnknownPairStatus() returns (asWritten: int, intended: int)
    ensures asWritten == 500
    ensures intended == 404
  {
    var reply := OhlcReply(["EQuery:Unknown asset pair"], []);
    assert reply.error[0][7..7 + |UNKNOWN_PAIR|] == UNKNOWN_PAIR;
    assert OccursAt(reply.error[0], UNKNOWN_PAIR, 7);
    var written := FetchKrakenCandlesAsWritten(reply);
    var meant := FetchKrakenCandles(reply);
    asWritten := written.error.status;
    intended := meant.error.status;
  }
}
