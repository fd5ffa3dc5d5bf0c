/**
  The market data service: a store of bounded candle buffers, one per
  tracked (symbol, interval) pair, fed by one-shot REST backfill and by the
  multiplexed kline stream, and read through a copied snapshot. Each
  locked block of the original service is one atomic method here.
*/
module MarketData {
  import opened Wrappers
  import opened PyBuiltins
  import opened Candles
  import opened Series

  /** How many candles each buffer keeps. */
  const HISTORY_LIMIT: nat := 300

  /** The tracked trading pairs. */
  const SYMBOLS: seq<string> := ["BTCUSDT", "ETHUSDT", "SOLUSDT", "BNBUSDT", "XRPUSDT"]

  /** The tracked candle intervals. */
  const INTERVALS: seq<string> := ["1m", "15m", "1h"]

  /** A store key: (symbol, interval). */
  type Key = (string, string)

  /** The `k` object of a kline event, with its prices already numbers. */
  datatype Kline = Kline(symbol: string, interval: string, openTime: int,
                         open: Price, high: Price, low: Price, close: Price, volume: Price)

  /** The `data` object of a combined-stream message: event type `e` and kline `k`, either possibly absent. */
  datatype StreamData = StreamData(event: Option<string>, kline: Option<Kline>)

  /** A combined-stream message; `data` may be absent. */
  datatype StreamPayload = StreamPayload(data: Option<StreamData>)

  /** What handling one stream message did. */
  datatype StreamOutcome =
    | Ignored        // no `data`, or an event other than a kline
    | Applied        // the candle went through the upsert rule
    | MissingKline   // a kline event without `k`: the lookup raises

  /** The candle a kline event carries, in the store's field order. */
  function KlineCandle(k: Kline): (c: Candle)
    ensures c.time == k.openTime
    ensures [c.open, c.high, c.low, c.close, c.volume] == [k.open, k.high, k.low, k.close, k.volume]
  {
    Candle(k.openTime, k.open, k.high, k.low, k.close, k.volume)
  }

  /** A Binance REST kline row `[t, o, h, l, c, v, ...]` as a candle. */
  function BinanceCandle(row: Row): Candle
    requires |row| >= 6
  {
    Candle(IntOf(row[0]), row[1], row[2], row[3], row[4], row[5])
  }

  function BinanceCandles(rows: seq<Row>): seq<Candle>
    requires AllLong(rows, 6)
  {
    seq(|rows|, i requires 0 <= i < |rows| => BinanceCandle(rows[i]))
  }

  /** One stream channel name: `<lower symbol>@kline_<interval>`. */
  function StreamName(symbol: string, interval: string): (name: string)
    ensures |name| == |symbol| + 7 + |interval|
    ensures StartsWith(name, Lower(symbol))
    ensures name[|symbol|..|symbol| + 7] == "@kline_"
    ensures EndsWith(name, interval)
  {
    Lower(symbol) + "@kline_" + interval
  }

  /** The combined-stream URL: the base, a slash, and the channel names joined by slashes. */
  function StreamUrl(base: string, streams: seq<string>): (url: string)
    ensures StartsWith(url, base + "/")
  {
    base + "/" + Join(streams, '/')
  }

  /**
    Symbol `i`, interval `j` has its channel at row-major position
    `i * |intervals| + j` of `streams`.
  */
  predicate ChannelAt(streams: seq<string>, symbols: seq<string>, intervals: seq<string>, i: nat, j: nat)
    requires i < |symbols| && j < |intervals|
  {
    i * |intervals| + j < |streams| && streams[i * |intervals| + j] == StreamName(symbols[i], intervals[j])
  }

  /** The channels of one symbol, one per interval, in interval order. */
  function SymbolChannels(symbol: string, intervals: seq<string>): seq<string>
  {
    seq(|intervals|, j requires 0 <= j < |intervals| => StreamName(symbol, intervals[j]))
  }

  /** All channels: each symbol's channels in turn, in symbol order. */
  function Channels(symbols: seq<string>, intervals: seq<string>): seq<string>
  {
    if symbols == [] then []
    else Channels(symbols[..|symbols| - 1], intervals) + SymbolChannels(symbols[|symbols| - 1], intervals)
  }

  lemma MulMonotone(a: nat, b: nat, m: nat)
    requires a <= b
    ensures a * m <= b * m
  {
    assert b * m == a * m + (b - a) * m;
  }

  /**
    The channel list is laid out row by row: symbol `i`, interval `j` sits
    at position `i * |intervals| + j`.
  */
  lemma {:induction false} ChannelsAt(symbols: seq<string>, intervals: seq<string>, i: nat, j: nat)
    requires i < |symbols| && j < |intervals|
    ensures |Channels(symbols, intervals)| == |symbols| * |intervals|
    ensures i * |intervals| + j < |Channels(symbols, intervals)|
    ensures Channels(symbols, intervals)[i * |intervals| + j] == StreamName(symbols[i], intervals[j])
    decreases |symbols|
  {
    var n, m := |symbols|, |intervals|;
    var pre := symbols[..n - 1];
    ChannelsLength(pre, intervals);
    assert (n - 1) * m + m == n * m;
    if i < n - 1 {
      assert pre[i] == symbols[i];
      ChannelsAt(pre, intervals, i, j);
      MulMonotone(i + 1, n - 1, m);
      assert i * m + j < (i + 1) * m;
    }
  }

  lemma {:induction false} ChannelsLength(symbols: seq<string>, intervals: seq<string>)
    ensures |Channels(symbols, intervals)| == |symbols| * |intervals|
    decreases |symbols|
  {
    if symbols != [] {
      var n, m := |symbols|, |intervals|;
      ChannelsLength(symbols[..n - 1], intervals);
      assert (n - 1) * m + m == n * m;
    }
  }

  /**
    The channel list of the combined stream: for each symbol, and within it
    for each interval, one channel name, in that order.
  */
  method StreamNames(symbols: seq<string>, intervals: seq<string>) returns (streams: seq<string>)
    ensures |streams| == |symbols| * |intervals|
    ensures forall i, j :: 0 <= i < |symbols| && 0 <= j < |intervals| ==>
              ChannelAt(streams, symbols, intervals, i, j)
    ensures streams == Channels(symbols, intervals)
  {
    streams := [];
    var i := 0;
    while i < |symbols|
      invariant 0 <= i <= |symbols|
      invariant streams == Channels(symbols[..i], intervals)
    {
      var j := 0;
      while j < |intervals|
        invariant 0 <= j <= |intervals|
        invariant streams == Channels(symbols[..i], intervals) + SymbolChannels(symbols[i], intervals[..j])
      {
        SymbolChannelsSnoc(symbols[i], intervals, j);
        streams := streams + [StreamName(symbols[i], intervals[j])];
        j := j + 1;
      }
      ChannelsSnoc(symbols, intervals, i);
      i := i + 1;
    }
    assert symbols[..i] == symbols;
    ChannelsLength(symbols, intervals);
    ChannelsLayout(symbols, intervals);
  }

  lemma SymbolChannelsSnoc(symbol: string, intervals: seq<string>, j: nat)
    requires j < |intervals|
    ensures SymbolChannels(symbol, intervals[..j + 1]) ==
            SymbolChannels(symbol, intervals[..j]) + [StreamName(symbol, intervals[j])]
  {
  }

  lemma ChannelsSnoc(symbols: seq<string>, intervals: seq<string>, i: nat)
    requires i < |symbols|
    ensures Channels(symbols[..i + 1], intervals) ==
            Channels(symbols[..i], intervals) + SymbolChannels(symbols[i], intervals[..|intervals|])
  {
    assert symbols[..i + 1][..i] == symbols[..i];
    assert intervals[..|intervals|] == intervals;
  }

  lemma ChannelsLayout(symbols: seq<string>, intervals: seq<string>)
    ensures forall i, j :: 0 <= i < |symbols| && 0 <= j < |intervals| ==>
              ChannelAt(Channels(symbols, intervals), symbols, intervals, i, j)
  {
    forall i, j | 0 <= i < |symbols| && 0 <= j < |intervals|
      ensures ChannelAt(Channels(symbols, intervals), symbols, intervals, i, j)
    {
      ChannelsAt(symbols, intervals, i, j);
    }
  }

  /** A channel name never contains a slash when its symbol and interval do not. */
  lemma StreamNameHasNoSlash(symbol: string, interval: string)
    requires '/' !in symbol && '/' !in interval
    ensures '/' !in StreamName(symbol, interval)
  {
    var low := Lower(symbol);
    assert forall i :: 0 <= i < |low| ==> low[i] == LowerChar(symbol[i]);
  }

  /**
    The combined-stream URL is unambiguous: after the base and its slash,
    splitting on slashes gives back exactly the channel list.
  */
  lemma StreamUrlLists(base: string, streams: seq<string>)
    requires |streams| >= 1
    requires forall i :: 0 <= i < |streams| ==> '/' !in streams[i]
    ensures StreamUrl(base, streams)[..|base| + 1] == base + "/"
    ensures Split(StreamUrl(base, streams)[|base| + 1..], '/') == streams
  {
    assert StreamUrl(base, streams)[|base| + 1..] == Join(streams, '/');
    SplitJoin(streams, '/');
  }

  /**
    The row formatting loop of the backfill: every row becomes a candle
    from cells 0 to 5, time truncated to an integer. A row with fewer than
    six cells raises, and then nothing is formatted.
  */
  method FormatBinanceRows(raw: seq<Row>) returns (formatted: Option<seq<Candle>>)
    ensures formatted.None? <==> exists i :: 0 <= i < |raw| && |raw[i]| < 6
    ensures formatted.Some? ==> |formatted.value| == |raw|
    ensures formatted.Some? ==> forall i :: 0 <= i < |raw| ==>
              && formatted.value[i].time == IntOf(raw[i][0])
              && formatted.value[i].open == raw[i][1]
              && formatted.value[i].high == raw[i][2]
              && formatted.value[i].low == raw[i][3]
              && formatted.value[i].close == raw[i][4]
              && formatted.value[i].volume == raw[i][5]
  {
    var out: seq<Candle> := [];
    var i := 0;
    while i < |raw|
      invariant 0 <= i <= |raw|
      invariant |out| == i
      invariant forall j :: 0 <= j < i ==> |raw[j]| >= 6 && out[j] == BinanceCandle(raw[j])
    {
      if |raw[i]| < 6 {
        return None;
      }
      out := out + [BinanceCandle(raw[i])];
      i := i + 1;
    }
    return Some(out);
  }

  class MarketDataService {
    /** The candle buffers, keyed by (symbol, interval). */
    var store: map<Key, seq<Candle>>

    /** No buffer holds more than HISTORY_LIMIT candles. */
    ghost predicate Valid()
      reads this
    {
      forall k :: k in store ==> |store[k]| <= HISTORY_LIMIT
    }

    /** The buffer for `k`; a missing pair reads as an empty buffer, as the nested defaultdict gives. */
    function Buffer(k: Key): seq<Candle>
      reads this
    {
      if k in store then store[k] else []
    }

    constructor ()
      ensures Valid()
      ensures store == map[]
    {
      store := map[];
    }

    /**
      A copy of the newest `limit` candles of a pair, in stored order: the
      whole buffer when `limit` is 0 (Python's `data[-0:]`), and nothing
      for a pair that was never written. The symbol is upper-cased first.
    */
    function GetCandles(symbol: string, interval: string, limit: int := 300): (r: seq<Candle>)
      reads this
      ensures (Upper(symbol), interval) !in store ==> r == []
      ensures (Upper(symbol), interval) in store ==> IsSuffix(r, store[(Upper(symbol), interval)])
      ensures (Upper(symbol), interval) in store && limit > 0 ==>
                |r| == Min(limit, |store[(Upper(symbol), interval)]|)
      ensures (Upper(symbol), interval) in store && limit == 0 ==> r == store[(Upper(symbol), interval)]
      ensures (Upper(symbol), interval) in store && limit < 0 ==>
                |r| == Max(0, |store[(Upper(symbol), interval)]| + limit)
    {
      var k := (Upper(symbol), interval);
      if k in store then PyTail(store[k], limit) else []
    }

    /**
      The streaming upsert on one buffer, done in place on its tail:
      append into an empty buffer, replace the tail on an equal open time,
      append (evicting the oldest when full) on a newer one, and leave the
      buffer alone on an older one. No other buffer changes.
    */
    method Upsert(symbol: string, interval: string, candle: Candle)
      requires Valid()
      modifies this
      ensures Valid()
      ensures store == old(store)[(symbol, interval) := UpsertSeries(old(Buffer((symbol, interval))), candle, HISTORY_LIMIT)]
      ensures StrictlyAscending(old(Buffer((symbol, interval)))) ==> StrictlyAscending(Buffer((symbol, interval)))
    {
      var k := (symbol, interval);
      var buffer := Buffer(k);
      ghost var before := buffer;
      if |buffer| == 0 {
        buffer := buffer + [candle];
      } else {
        var lastStoredTime := buffer[|buffer| - 1].time;
        if candle.time == lastStoredTime {
          buffer := buffer[..|buffer| - 1] + [candle];
        } else if candle.time > lastStoredTime {
          buffer := buffer + [candle];
          if |buffer| > HISTORY_LIMIT {
            buffer := buffer[1..];
          }
        }
      }
      assert buffer == UpsertSeries(before, candle, HISTORY_LIMIT);
      if StrictlyAscending(before) {
        UpsertKeepsAscending(before, candle, HISTORY_LIMIT);
      }
      store := store[k := buffer];
    }

    /**
      The backfill's bulk `extend`: the rows are appended verbatim, in the
      order given, and only the newest HISTORY_LIMIT candles stay.
    */
    method Extend(symbol: string, interval: string, rows: seq<Candle>)
      requires Valid()
      modifies this
      ensures Valid()
      ensures store == old(store)[(symbol, interval) := ExtendSeries(old(Buffer((symbol, interval))), rows, HISTORY_LIMIT)]
    {
      var k := (symbol, interval);
      var before := Buffer(k);
      ExtendKeepsNewest(before, rows, HISTORY_LIMIT);
      var buffer := before + rows;
      if |buffer| > HISTORY_LIMIT {
        buffer := buffer[|buffer| - HISTORY_LIMIT..];
      }
      assert buffer == Bounded(before + rows, HISTORY_LIMIT);
      store := store[k := buffer];
    }

    /**
      Handling of one combined-stream message: anything without `data`, or
      whose event type is not `kline`, changes nothing; a kline event goes
      through the upsert rule for the pair it names.
    */
    method ProcessStreamData(payload: StreamPayload) returns (outcome: StreamOutcome)
      requires Valid()
      modifies this
      ensures Valid()
      ensures outcome == Ignored <==> payload.data.None? || payload.data.value.event != Some("kline")
      ensures outcome == MissingKline <==>
                payload.data.Some? && payload.data.value.event == Some("kline") && payload.data.value.kline.None?
      ensures outcome != Applied ==> store == old(store)
      ensures outcome == Applied ==>
                var k := payload.data.value.kline.value;
                store == old(store)[(k.symbol, k.interval) :=
                  UpsertSeries(old(Buffer((k.symbol, k.interval))), KlineCandle(k), HISTORY_LIMIT)]
    {
      if payload.data.None? {
        return Ignored;
      }
      var data := payload.data.value;
      if data.event != Some("kline") {
        return Ignored;
      }
      if data.kline.None? {
        return MissingKline;
      }
      var k := data.kline.value;
      Upsert(k.symbol, k.interval, KlineCandle(k));
      return Applied;
    }

    /**
      The backfill of one pair from a REST response (None for a failed
      request or a status other than 200). A malformed row aborts the load;
      a failed or aborted load leaves the store as it was.
    */
    method BackfillSingle(symbol: string, interval: string, response: Option<seq<Row>>) returns (loaded: bool)
      requires Valid()
      modifies this
      ensures Valid()
      ensures loaded <==> response.Some? && AllLong(response.value, 6)
      ensures !loaded ==> store == old(store)
      ensures loaded ==>
                store == old(store)[(symbol, interval) :=
                  ExtendSeries(old(Buffer((symbol, interval))), BinanceCandles(response.value), HISTORY_LIMIT)]
    {
      if response.None? {
        return false;
      }
      var formatted := FormatBinanceRows(response.value);
      if formatted.None? {
        return false;
      }
      assert formatted.value == BinanceCandles(response.value);
      Extend(symbol, interval, formatted.value);
      return true;
    }
  }

  lemma {:induction false} ChannelsHaveNoSlash(symbols: seq<string>, intervals: seq<string>)
    requires forall i :: 0 <= i < |symbols| ==> '/' !in symbols[i]
    requires forall j :: 0 <= j < |intervals| ==> '/' !in intervals[j]
    ensures forall k :: 0 <= k < |Channels(symbols, intervals)| ==> '/' !in Channels(symbols, intervals)[k]
    decreases |symbols|
  {
    if symbols != [] {
      var n := |symbols|;
      ChannelsHaveNoSlash(symbols[..n - 1], intervals);
      forall j | 0 <= j < |intervals|
        ensures '/' !in StreamName(symbols[n - 1], intervals[j])
      {
        StreamNameHasNoSlash(symbols[n - 1], intervals[j]);
      }
    }
  }

  /**
    The tracked pairs give fifteen channels, and the combined-stream URL
    built from them splits back into exactly that channel list.
  */
  lemma TrackedStreamUrl(base: string)
    ensures |Channels(SYMBOLS, INTERVALS)| == 15
    ensures Split(StreamUrl(base, Channels(SYMBOLS, INTERVALS))[|base| + 1..], '/') == Channels(SYMBOLS, INTERVALS)
  {
    ChannelsLength(SYMBOLS, INTERVALS);
    ChannelsHaveNoSlash(SYMBOLS, INTERVALS);
    StreamUrlLists(base, Channels(SYMBOLS, INTERVALS));
  }
}
