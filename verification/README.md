# Quad-desk market data core, modelled in Dafny

This project models the market data core of the Quad-desk trading desk
backend. It has two parts.

- **The candle store** (`backend/market_data.py`). `MarketDataService`
  keeps one bounded buffer of candles `[time, open, high, low, close, volume]`
  per (symbol, interval) pair. Each buffer holds at most `HISTORY_LIMIT` = 300
  candles. Buffers are seeded once by a REST backfill and then updated from
  the multiplexed kline stream by a timestamp-keyed upsert. Readers get a
  copied suffix of a buffer.
- **The Kraken fallback path** (`backend/main.py`). This part maps an
  internal symbol and interval to Kraken's names. It also turns a decoded
  OHLC reply into candles or an HTTP error: it picks the row list, reshapes
  each row, sorts by time and keeps the newest `limit`.

Files:

- `wrappers.dfy`: `Option` and `Result`.
- `py_builtins.dfy`: the Python built-ins the core depends on, with their
  exact edge cases. These are `s[-limit:]`, `startswith`/`endswith`,
  substring `in`, ASCII `upper`/`lower`, and `'/'.join`. The file also
  defines `Split`, a reference inverse of the join. The core never calls
  `str.split`; `Split` serves only to prove that the stream URL lists its
  channels unambiguously.
- `candles.dfy`: the candle value, raw REST rows, Python's `int()`
  truncation, and the two orderings (strictly ascending, sorted).
- `series.dfy`: the value-level rules for one buffer. It holds the deque's
  `maxlen` trimming, `append`, the upsert rule and `extend`, with the lemmas
  about them.
- `market_data.dfy`: the class `MarketDataService`. Its `store` field is a
  `map` from (symbol, interval) to `seq<Candle>`, and its methods update that
  map in place. Each locked block of the original is one atomic method. The
  file also holds the two list-building loops: stream names and backfill row
  formatting.
- `kraken.dfy`: symbol and interval mapping, error classification, row
  selection, the reshaping loop, sorting, and the fetch itself. The fetch
  appears twice: as written, and corrected (see Findings).

Prices and volumes are `real` values that are carried along untouched. Only
the integer open time drives behaviour.

Three behaviours of the code are easy to overlook, and the model keeps
each of them as written:

- Backfill calls `deque.extend` (backend/market_data.py:107). It appends
  the rows verbatim, with no timestamp check, and the `maxlen` trim then
  keeps the newest 300. `Series.ExtendAgreesWithUpserts` shows that this
  equals upserting the rows one by one whenever the rows ascend and are
  newer than the tail. `Series.BackfillAfterStreamBreaksOrder` covers a
  backfill that fits in the buffer (old length plus rows at most the
  capacity) and starts at or before a streamed tail: the buffer is left
  out of order. A full backfill is different. The request asks for
  `limit: HISTORY_LIMIT` rows (backend/market_data.py:92), and when at
  least that many arrive, `Series.FullBackfillReplaces` shows that every
  earlier candle, streamed ones included, is evicted. The buffer is then
  the newest 300 rows in response order.
- `data[-limit:]` (backend/market_data.py:70) returns the whole buffer for
  `limit == 0`. For a negative `limit` it drops `-limit` candles from the
  front. The Kraken fetch slices the same way (backend/main.py:201).
- An upsert whose open time is older than the tail falls through every
  branch and is dropped silently (backend/market_data.py:175-183).

## Model

| member | source | states |
|---|---|---|
| `PyBuiltins.PyTail` | backend/market_data.py:70 | `s[-limit:]` is a suffix of `s`: length min(limit, n) for limit > 0, all of `s` for limit 0, and n + limit elements (at least 0) for limit < 0 |
| `PyBuiltins.Contains` | backend/main.py:175 | substring `in` holds exactly when `sub` occurs at some offset of `s` |
| `PyBuiltins.Upper` | backend/market_data.py:66 | `str.upper` on ASCII: same length, each lower-case letter becomes its upper-case letter (code point minus 32), every other character is unchanged |
| `PyBuiltins.Lower` | backend/market_data.py:120 | `str.lower` on ASCII: same length, each upper-case letter becomes its lower-case letter (code point plus 32), every other character is unchanged |
| `PyBuiltins.SplitJoin` | backend/market_data.py:122 | joining names that contain no `/` can be undone: splitting gives back the list |
| `Candles.IntOf` | backend/main.py:191 | `int()` on a number truncates toward zero (bounds on each side) |
| `Series.Bounded` | backend/market_data.py:25 | the `maxlen` deque keeps min(n, cap) elements, and they are a suffix of the input: the newest ones, in order |
| `Series.DequeAppend` | backend/market_data.py:183 | `deque.append` with `maxlen` (also at line 172): the length becomes min(n + 1, cap) and the new candle is last; `Series.UpsertNewer` gives the closed forms `s + [c]` and `s[1..] + [c]` |
| `Series.ExtendSeries` | backend/market_data.py:107 | `deque.extend` appends each row in turn with `maxlen` eviction: the length is min(n + rows, cap) and the last row ends up last; `Series.ExtendKeepsNewest` gives the closed form `Bounded(s + rows, cap)` |
| `Series.UpsertSeries` | backend/market_data.py:167-183 | an upsert never takes a buffer within capacity past capacity |
| `Series.UpsertIntoEmpty` | backend/market_data.py:171-173 | an upsert into an empty buffer leaves exactly that candle |
| `Series.UpsertSameTime` | backend/market_data.py:175-180 | an equal open time replaces only the tail; length and all earlier candles are unchanged |
| `Series.UpsertNewer` | backend/market_data.py:181-183 | a newer open time is appended as the last candle; when the buffer is full exactly the oldest is evicted, otherwise the length grows by one |
| `Series.UpsertStale` | backend/market_data.py:178-183 | an older open time leaves the buffer unchanged (there is no else branch) |
| `Series.UpsertIdempotent` | backend/market_data.py:175-180 | applying the same candle twice equals applying it once |
| `Series.UpsertKeepsAscending` | backend/market_data.py:167-183 | one upsert preserves strictly ascending, duplicate-free open times |
| `Series.UpsertOnlyInvariant` | backend/market_data.py:167-183 | any run of upserts keeps a buffer within capacity and strictly ascending |
| `Series.UpsertsFromEmptyAscending` | backend/market_data.py:171-183 | a buffer filled only by upserts from empty is bounded and strictly ascending |
| `Series.IncreasingUpsertsKeepNewest` | backend/market_data.py:181-183 | upserts with strictly increasing times leave the last `cap` of everything that arrived, oldest evicted first |
| `Series.ExtendKeepsNewest` | backend/market_data.py:106-107 | `extend` appends every row verbatim and keeps the newest `cap` candles |
| `Series.ExtendAgreesWithUpserts` | backend/market_data.py:106-107 | when the rows are ascending and newer than the tail, `extend` equals upserting them one by one |
| `Series.BackfillAfterStreamBreaksOrder` | backend/market_data.py:106-107 | when old length plus rows is at most the capacity (no eviction), backfill rows whose first time is not newer than the tail leave the buffer out of order |
| `Series.FullBackfillReplaces` | backend/market_data.py:89-107 | when at least `cap` rows arrive, as the `limit: HISTORY_LIMIT` request asks, the buffer becomes exactly the last `cap` rows in response order; every earlier candle is evicted |
| `Series.ThreeSlotScenario` | backend/market_data.py:171-183 | with capacity 3, times 100, 200, 300, 300 (updated), 400 end as 200, the updated 300, 400 |
| `MarketData.KlineCandle` | backend/market_data.py:158-165 | the stored candle takes the event's open time `t` as its key, then open, high, low, close and volume in the `[t, o, h, l, c, v]` order |
| `MarketData.StreamName` | backend/market_data.py:120 | a channel name is the lower-cased symbol, then `@kline_`, then the interval, with nothing else; `MarketData.StreamNameHasNoSlash` shows it holds no `/` when its parts hold none |
| `MarketData.StreamUrl` | backend/market_data.py:122 | the URL starts with the base and a slash; `MarketData.StreamUrlLists` shows the rest splits back into the channel list |
| `MarketData.StreamNames` | backend/market_data.py:117-120 | the channel list has one entry per symbol and interval, symbol-major: symbol i, interval j sits at position i × (number of intervals) + j as `lower(symbol)@kline_interval`; the list is exactly `Channels(symbols, intervals)`, the list `MarketData.TrackedStreamUrl` is stated about |
| `MarketData.StreamUrlLists` | backend/market_data.py:122 | the combined-stream URL is the base, a slash, and a string that splits back into exactly the channel list |
| `MarketData.TrackedStreamUrl` | backend/market_data.py:117-122 | the five tracked symbols and three intervals give 15 channels, which the URL encodes unambiguously |
| `MarketData.FormatBinanceRows` | backend/market_data.py:98-104 | each REST row becomes a candle from cells 0 to 5, with the time truncated to an integer; one short row fails the whole load |
| `MarketData.MarketDataService.constructor` | backend/market_data.py:25 | the store starts empty and within the size invariant |
| `MarketData.MarketDataService.GetCandles` | backend/market_data.py:64-71 | the symbol is upper-cased; an unknown pair gives []; otherwise the result is a suffix of the stored buffer of length min(limit, n) for limit > 0, all of it for limit 0, and max(0, n + limit) for limit < 0 |
| `MarketData.MarketDataService.Upsert` | backend/market_data.py:167-183 | the pair's buffer becomes the upsert of the old one; no other buffer changes; every buffer stays within HISTORY_LIMIT; ascending order is preserved |
| `MarketData.MarketDataService.Extend` | backend/market_data.py:106-107 | the pair's buffer becomes the old one extended verbatim and trimmed to HISTORY_LIMIT; nothing else changes |
| `MarketData.MarketDataService.ProcessStreamData` | backend/market_data.py:144-183 | a message without `data` or with an event other than `kline` changes nothing; a kline event without `k` raises and changes nothing; a kline event upserts its candle into its own pair only |
| `MarketData.MarketDataService.BackfillSingle` | backend/market_data.py:85-111 | a failed request or a short row leaves the store unchanged; otherwise the formatted rows extend the pair's buffer |
| `Kraken.MapSymbolToKraken` | backend/main.py:117-133 | the pair is XBT or the first three characters, followed by USDT or USD; it ends in USDT exactly when the symbol does |
| `Kraken.MapSymbolIdempotent` | backend/main.py:117-133 | for symbols of at least three characters, mapping an already mapped pair gives the same pair (a shorter symbol such as "" maps to "USD", which maps on to "USDUSD") |
| `Kraken.MapIntervalToKraken` | backend/main.py:135-145 | the result is one of 1, 5, 15, 60, 240, 1440 and is positive; a table entry is the same length of time the name denotes; any other name gives 1 |
| `Kraken.TableMatchesDurations` | backend/main.py:137-144 | each entry of the interval table equals the minutes its name denotes |
| `Kraken.ClassifyKrakenError` | backend/main.py:171-177 | a non-empty error list always gives an error: 404 when the first message contains "Unknown asset pair", otherwise 502 |
| `Kraken.FirstOhlcList` | backend/main.py:181-184 | the rows are those of the first list-valued `result` entry, or empty when there is none |
| `Kraken.FormatKrakenRows` | backend/main.py:186-197 | one candle per row: the time in milliseconds and columns 1, 2, 3, 4 and 6, skipping vwap at column 5; one short row fails |
| `Kraken.SortByTime` | backend/main.py:199-201 | the result is sorted by time and is a permutation of the input |
| `Kraken.FetchKrakenCandles` | backend/main.py:147-201 | the corrected fetch: the error decision is 404/502; a short row gives 500; on success the result is sorted and is a suffix of the sorted candles; its length is min(limit, n) for limit > 0, n for limit 0, and max(0, n + limit) for limit < 0 |
| `Kraken.FetchKrakenCandlesAsWritten` | backend/main.py:162-211 | as written, every failure is a 500, including a non-empty error list; the success value is sorted, a suffix of the sorted candles, and has the same three length cases |
| `Kraken.UnknownPairStatus` | backend/main.py:171-211 | for an "EQuery:Unknown asset pair" reply, the code as written answers 500 where 404 is intended |

## Left out

- The async lifecycle is left out: `start`/`stop`, task creation and
  cancellation, `asyncio.gather` over the pairs, and the `_ws_loop`
  reconnect loop with its 5 s sleep (backend/market_data.py:35-62, 73-83,
  124-142). The `asyncio.Lock` is not modelled; each locked block is one
  atomic method.
- The stream receive loop that passes each text frame to
  `_process_stream_data` is left out with the connection handling. It is
  modelled one message at a time (`ProcessStreamData`).
- The `__new__`/`initialized` singleton is left out; the service is a plain
  constructed object.
- Network and wire handling are left out: HTTP requests, `resp.status`,
  `raise_for_status` and its 502 branch, `resp.json()` and `json.loads`.
  A backfill response is an `Option` of rows (None for a failed request or a
  non-200 status). A Kraken reply is already decoded into its `error` list
  and its `result` entries, in dict order.
- The `if not self.session: return` guard in `_backfill_single` is left out;
  it belongs to the lifecycle.
- Float parsing and float rounding are left out: prices and volumes are
  `real` values. A non-numeric price string (`ValueError`) is not modelled.
  A row that is too short (`IndexError`) is modelled.
- A kline event with `k` present but a field missing inside `k` is not
  modelled (a `KeyError` in the original). Only the absence of `k` is.
- BackfillSingle: a non-list JSON body is not modelled; the response is a
  list of rows or a failure.
- GetCandles: `str.upper` is modelled for ASCII letters only.
- StreamNames: `str.lower` is modelled for ASCII letters only.
- SortByTime: it is a stable insertion sort, but its contract does
  not state stability (that equal times keep their input order), which
  Python's `sorted` guarantees.
- The store is a `map` of sequences rather than an array-backed ring
  buffer. The deque's `maxlen` eviction is stated on sequences; the O(1)
  in-place mechanics of a deque are not modelled.
- Logging (`logger.*`, `ListHandler`, `log_buffer`) is left out.
- Everything else in backend/main.py is left out because it is I/O, foreign
  services or floating point: the FastAPI app and endpoint bodies,
  `calculate_bands_logic`, alert evaluation, the market-intel cache TTL, the
  Gemini, news and Telegram calls, and the self-ping loop.
- backend/config.py holds only constants. `SYMBOLS`, `INTERVALS` and
  `HISTORY_LIMIT = 300` are Dafny constants in `market_data.dfy`; the REST
  and stream URLs are parameters.

## Findings

| source | as written | input that shows it | evidently intended | confidence | as-written member | corrected member |
|---|---|---|---|---|---|---|
| backend/main.py:171-177, 209-211 | The 404 or 502 `HTTPException` for a Kraken error list is raised inside the `try`. The generic `except Exception` at line 209 catches it, because `HTTPException` is an `Exception`. It is then re-raised as 500 "Internal Data Fetch Error". | a reply whose `error` is `["EQuery:Unknown asset pair"]` | 404 "Symbol not found on Kraken" for an unknown pair, 502 for other Kraken errors | high; not executed | `Kraken.FetchKrakenCandlesAsWritten`, `Kraken.UnknownPairStatus` | `Kraken.FetchKrakenCandles` |
